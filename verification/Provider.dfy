/** Messages, requests and routes (include/oran/core/content.hpp, include/oran/provider/types.hpp,
    include/oran/provider/system.hpp). Text is counted in bytes, one character each. */
module Provider {
  import opened Core

  datatype Role = User | Assistant | System | Tool

  datatype Content =
    | TextBlock(text: string)
    | Image(mediaType: string, data: string)
    | Thinking(thinking: string, signature: Option<string>)
    | ToolUse(id: string, name: string, input: string)
    | ToolResult(toolUseId: string, output: string, structured: Option<string>, isError: bool)

  datatype Message = Message(role: Role, blocks: seq<Content>)

  datatype ToolDef = ToolDef(name: string, description: string, schema: string)

  datatype Request = Request(
    messages: seq<Message>,
    systemPrompt: Option<string>,
    tools: seq<ToolDef>,
    maxTokens: Option<nat>,
    thinkingBudget: Option<nat>,
    maxAttempts: nat)

  datatype StopReason = EndTurn | MaxTokens | ToolUseStop | StopSequence | CancelledStop | ErrorStop

  datatype Response = Response(blocks: seq<Content>, stopReason: StopReason)

  datatype Protocol = AnthropicMessages | OtherProtocol(name: string)

  datatype Target = Target(profile: string, model: string, protocol: Protocol, thinkingBudget: Option<nat>)

  datatype Route = Route(primary: Target, fallbacks: seq<Target>) {
    /** Target 0 is the primary, the others are the fallbacks in order. */
    function At(index: nat): Target
      requires index <= |fallbacks|
    {
      if index == 0 then primary else fallbacks[index - 1]
    }
  }
}

/** The agent turn (src/oran-agent/loop.cpp): load history, then alternate provider requests and
    tool batches, keeping the provider's view a summary plus an exact suffix of the log. */
module TurnLoop {
  import opened Core
  import opened Provider
  import opened Context
  import opened Execution
  import opened StrandedResults
  import Utf8

  datatype ToolOutput = ToolOutput(text: string, structured: Option<string>, isError: bool)

  datatype Inputs = Inputs(
    tail: seq<Message>,
    context: Options,
    checkpoint: Checkpoint,
    historyEnd: nat,
    frame: Request,
    route: Route,
    hasTools: bool,
    hasSink: bool,
    maxIterations: nat)

  /** Everything outside the loop, as functions of how often it was asked: how many stored messages
      a page holds, what the inbox contains and the text in front of it, how the provider answers each
      attempt of an iteration, what each tool call of an iteration returns and how its error is
      rendered, and how summaries turn out. */
  datatype World = World(
    history: seq<Message>,
    page: Option<nat -> Result<nat>>,
    inbox: Option<nat -> Result<string>>,
    inboxPrefix: string,
    provider: nat -> (nat -> Answer),
    batchError: nat -> Option<ErrorKind>,
    tool: (nat, nat) -> Result<ToolOutput>,
    toolError: (nat, nat) -> string,
    render: (View, nat) -> string,
    fitCancelled: nat -> bool,
    summary: nat -> SummaryReply)

  /** A provider request that went out: the log it was cut from had `logLength` messages. */
  datatype Issued = Issued(request: Request, checkpoint: Checkpoint, logLength: nat, sends: seq<Send>)

  datatype Turn = Turn(view: View, transcript: seq<Message>, seen: set<string>, fits: nat, issued: seq<Issued>,
                       dispatched: seq<string>)

  // ---------------------------------------------------------------- budget

  /** The frame that context is budgeted for: the largest thinking budget of any target. */
  function BudgetFrame(inputs: Inputs): Request {
    inputs.frame.(thinkingBudget := Some(ThinkingReserve(inputs.frame.thinkingBudget, inputs.route)))
  }

  /** Input, output and thinking fit the budget together, by the built-in estimate. */
  predicate FitsBudget(request: Request, options: Options) {
    Estimate(request) + Reserve(request) <= options.maxTokens
  }

  lemma EstimateIgnoresThinking(request: Request, thinking: Option<nat>)
    ensures Estimate(request.(thinkingBudget := thinking)) == Estimate(request)
  {
  }

  /** A view within budget stays within budget as sent, whichever target gets which attempt. */
  lemma SendsFitBudget(inputs: Inputs, view: View, sends: seq<Send>, backend: nat -> Answer)
    requires inputs.context.counter.None?
    requires Cost(inputs.context, Framed(BudgetFrame(inputs), view)) <= inputs.context.maxTokens
    requires Trail(sends, backend, Framed(inputs.frame, view), inputs.route, inputs.hasSink)
    ensures forall k :: 0 <= k < |sends| ==> FitsBudget(sends[k].request, inputs.context)
  {
    var request := Framed(inputs.frame, view);
    forall k | 0 <= k < |sends| ensures FitsBudget(sends[k].request, inputs.context) {
      var target := sends[k].target;
      AttemptWithinReserve(request, inputs.route, target);
      var sent := AttemptRequest(request, inputs.route, target);
      EstimateIgnoresThinking(request, sent.thinkingBudget);
      EstimateIgnoresThinking(request, BudgetFrame(inputs).thinkingBudget);
      assert sent == request.(thinkingBudget := sent.thinkingBudget);
    }
  }

  // ---------------------------------------------------------------- view and log

  /** The view is the log from the covered position on; what is covered ends at a cut of the log and
      has a summary. `start` is where the turn's checkpoint began. */
  ghost predicate Mirrors(view: View, log: seq<Message>, start: nat) {
    && start <= view.checkpoint.covered <= |log|
    && view.messages == log[view.checkpoint.covered..]
    && (view.checkpoint.covered == start || IsCut(log[start..], view.checkpoint.covered - start))
    && (view.checkpoint.covered > 0 ==> view.checkpoint.summary != "")
  }

  lemma MirrorsClosed(view: View, log: seq<Message>, start: nat)
    requires Mirrors(view, log, start)
    ensures Open({}, log[start..view.checkpoint.covered]) == {}
  {
    var c := view.checkpoint.covered;
    assert log[start..][..c - start] == log[start..c];
  }

  lemma MirrorsAppend(view: View, log: seq<Message>, start: nat, more: seq<Message>)
    requires Mirrors(view, log, start)
    ensures Mirrors(view.(messages := view.messages + more), log + more, start)
  {
    var c := view.checkpoint.covered;
    assert (log + more)[c..] == log[c..] + more;
    if c > start {
      assert (log + more)[start..][..|log| - start] == log[start..];
      CutStays((log + more)[start..], |log| - start, c - start);
    }
  }

  /** Cutting the view keeps it a mirror of the log: a cut of the rest is a cut of the whole. */
  lemma MirrorsCut(before: View, after: View, log: seq<Message>, start: nat, cut: nat)
    requires Mirrors(before, log, start) && IsCut(before.messages, cut) && after.messages == before.messages[cut..]
    requires after.checkpoint.covered == before.checkpoint.covered + cut
    requires after.checkpoint.summary != ""
    ensures Mirrors(after, log, start)
  {
    var b, a := before.checkpoint.covered, after.checkpoint.covered;
    MirrorsClosed(before, log, start);
    assert log[b..][..cut] == log[b..a] && log[b..][cut..] == log[a..];
    assert log[start..][..a - start] == log[start..b] + log[b..a];
    OpenConcat({}, log[start..b], log[b..a]);
    assert log[start..][a - start - 1] == log[b..][cut - 1];
  }

  lemma MirrorsFitted(before: View, after: View, options: Options, log: seq<Message>, start: nat)
    requires Mirrors(before, log, start) && Fitted(before, after, options)
    ensures Mirrors(after, log, start)
  {
    var cut := FittedDropsPrefix(before, after, options);
    if cut > 0 {
      MirrorsCut(before, after, log, start, cut);
    } else {
      assert before.messages[0..] == before.messages;
    }
  }

  /** The request is the optional summary plus an exact suffix of the log as it was. */
  ghost predicate IssuedOk(i: Issued, log: seq<Message>, inputs: Inputs) {
    && i.checkpoint.covered <= i.logLength <= |log|
    && Mirrors(View(i.checkpoint, log[i.checkpoint.covered..i.logLength], false), log[..i.logLength],
               inputs.checkpoint.covered)
    && i.request == Framed(inputs.frame, View(i.checkpoint, log[i.checkpoint.covered..i.logLength], false))
    && (inputs.context.counter.None? ==> forall k :: 0 <= k < |i.sends| ==> FitsBudget(i.sends[k].request, inputs.context))
  }

  lemma IssuedStaysOk(i: Issued, log: seq<Message>, more: seq<Message>, inputs: Inputs)
    requires IssuedOk(i, log, inputs)
    ensures IssuedOk(i, log + more, inputs)
  {
    var n := i.logLength;
    assert (log + more)[..n] == log[..n];
    assert (log + more)[i.checkpoint.covered..n] == log[i.checkpoint.covered..n];
  }

  ghost predicate AllIssuedOk(issued: seq<Issued>, log: seq<Message>, inputs: Inputs) {
    forall k :: 0 <= k < |issued| ==> IssuedOk(issued[k], log, inputs)
  }

  ghost predicate TurnInv(t: Turn, base: seq<Message>, inputs: Inputs) {
    && Mirrors(t.view, base + t.transcript, inputs.checkpoint.covered)
    && AllIssuedOk(t.issued, base + t.transcript, inputs)
  }

  /** A message enters the transcript and the view together. */
  function Push(t: Turn, m: Message): Turn {
    t.(transcript := t.transcript + [m], view := t.view.(messages := t.view.messages + [m]))
  }

  lemma PushKeepsInv(t: Turn, m: Message, base: seq<Message>, inputs: Inputs)
    requires TurnInv(t, base, inputs)
    ensures TurnInv(Push(t, m), base, inputs)
  {
    var log := base + t.transcript;
    assert base + Push(t, m).transcript == log + [m];
    MirrorsAppend(t.view, log, inputs.checkpoint.covered, [m]);
    forall k | 0 <= k < |t.issued| ensures IssuedOk(t.issued[k], log + [m], inputs) {
      IssuedStaysOk(t.issued[k], log, [m], inputs);
    }
  }

  method Fit(world: World, inputs: Inputs, t: Turn, ghost base: seq<Message>) returns (r: Result<()>, u: Turn)
    requires TurnInv(t, base, inputs)
    ensures TurnInv(u, base, inputs)
    ensures u == t.(view := u.view, fits := t.fits + 1)
    ensures r.Err? ==> ContextFails(world, inputs, r.kind)
    ensures r.Ok? ==> Cost(inputs.context, Framed(BudgetFrame(inputs), u.view)) <= inputs.context.maxTokens
  {
    var view, asked;
    r, view, asked := FitContext(t.view, BudgetFrame(inputs), inputs.context, world.render,
                                 world.fitCancelled(t.fits), world.summary(t.fits));
    MirrorsFitted(t.view, view, inputs.context, base + t.transcript, inputs.checkpoint.covered);
    u := t.(view := view, fits := t.fits + 1);
  }

  // ---------------------------------------------------------------- history

  /** Loads the stored messages after the checkpoint page by page, fitting after each one. */
  method LoadHistory(world: World, inputs: Inputs, t: Turn) returns (r: Result<()>, u: Turn)
    requires inputs.checkpoint.covered <= inputs.historyEnd <= |world.history|
    requires t.view == View(inputs.checkpoint, [], false) && t.issued == [] && t.transcript == []
    requires inputs.checkpoint.covered > 0 ==> inputs.checkpoint.summary != ""
    ensures u == t.(view := u.view, fits := u.fits)
    ensures r.Ok? ==> Mirrors(u.view, world.history[..inputs.historyEnd], inputs.checkpoint.covered)
    ensures r.Err? ==> HistoryFails(world, inputs, r.kind) || ContextFails(world, inputs, r.kind)
  {
    u := t;
    var loaded := inputs.checkpoint.covered;
    var start := inputs.checkpoint.covered;
    assert world.history[..loaded][start..loaded] == [] == world.history[..loaded][loaded..];
    while loaded < inputs.historyEnd
      invariant start <= loaded <= inputs.historyEnd
      invariant u == t.(view := u.view, fits := u.fits)
      invariant Mirrors(u.view, world.history[..loaded], start)
      decreases inputs.historyEnd - loaded
    {
      if world.page.None? {
        return Err(InvalidArgument), u;
      }
      var page := world.page.value(loaded);
      if page.Err? {
        return Err(page.kind), u;
      }
      if page.value == 0 || page.value > inputs.historyEnd - loaded {
        return Err(Storage), u;
      }
      var end := loaded + page.value;
      while loaded < end
        invariant start <= loaded <= end
        invariant u == t.(view := u.view, fits := u.fits)
        invariant Mirrors(u.view, world.history[..loaded], start)
      {
        r, u := LoadOne(world, inputs, u, loaded);
        loaded := loaded + 1;
        if r.Err? {
          return;
        }
      }
    }
    return Ok(()), u;
  }

  method LoadOne(world: World, inputs: Inputs, t: Turn, loaded: nat) returns (r: Result<()>, u: Turn)
    requires loaded < |world.history| && t.issued == [] && t.transcript == []
    requires Mirrors(t.view, world.history[..loaded], inputs.checkpoint.covered)
    ensures u == t.(view := u.view, fits := u.fits)
    ensures Mirrors(u.view, world.history[..loaded + 1], inputs.checkpoint.covered)
    ensures r.Err? ==> ContextFails(world, inputs, r.kind)
  {
    var m := world.history[loaded];
    MirrorsAppend(t.view, world.history[..loaded], inputs.checkpoint.covered, [m]);
    assert world.history[..loaded + 1] == world.history[..loaded] + [m];
    var pushed := t.(view := t.view.(messages := t.view.messages + [m]));
    assert world.history[..loaded + 1] + [] == world.history[..loaded + 1];
    r, u := Fit(world, inputs, pushed, world.history[..loaded + 1]);
  }

  // ---------------------------------------------------------------- what is said in a turn

  /** What the inbox says to an iteration. */
  function Heard(world: World, n: nat): seq<Message> {
    if world.inbox.Some? && world.inbox.value(n).Ok? && world.inbox.value(n).value != "" then
      [Message(User, [TextBlock(world.inboxPrefix + world.inbox.value(n).value)])]
    else []
  }

  /** What the backend answered to the last send of an iteration, if that was a response. */
  function Reply(world: World, i: Issued, n: nat): Option<Response> {
    if i.sends == [] then None
    else
      match world.provider(n)(|i.sends| - 1)
      case Answered(Ok(response), _, _) => Some(response)
      case _ => None
  }

  function Said(world: World, i: Issued, n: nat): seq<Content> {
    if Reply(world, i, n).Some? then Reply(world, i, n).value.blocks else []
  }

  /** What call `k` of an iteration answers to the model. */
  function ToolAnswer(world: World, use: Content, n: nat, k: nat): Content
    requires use.ToolUse?
  {
    match world.tool(n, k)
    case Ok(v) => ToolResult(use.id, v.text, v.structured, v.isError)
    case Err(_) => ToolResult(use.id, world.toolError(n, k), None, true)
  }

  function ToolAnswers(world: World, uses: seq<Content>, n: nat): (answers: seq<Content>)
    requires AllToolUses(uses)
    ensures |answers| == |uses|
    ensures forall k :: 0 <= k < |uses| ==> answers[k] == ToolAnswer(world, uses[k], n, k)
  {
    seq(|uses|, k requires 0 <= k < |uses| => ToolAnswer(world, uses[k], n, k))
  }

  /** An iteration that calls tools: the inbox, the provider's own blocks, the answers of its calls. */
  function Round(world: World, i: Issued, n: nat): seq<Message> {
    var blocks := Said(world, i, n);
    Heard(world, n) + [Message(Assistant, blocks)] + [Message(Tool, ToolAnswers(world, ToolUses(blocks), n))]
  }

  function Rounds(world: World, issued: seq<Issued>): seq<Message> {
    if issued == [] then []
    else Rounds(world, issued[..|issued| - 1]) + Round(world, issued[|issued| - 1], |issued|)
  }

  /** The ids of all tools called, in the order of the calls. */
  function CalledIds(world: World, issued: seq<Issued>): seq<string> {
    if issued == [] then []
    else
      CalledIds(world, issued[..|issued| - 1]) +
      IdSeq(ToolUses(Said(world, issued[|issued| - 1], |issued|)))
  }

  /** Request `k` went out in iteration `k + 1`, right after that iteration's inbox was read, and its
      sends were answered by that iteration's backend. */
  ghost predicate AskedInTurn(world: World, inputs: Inputs, issued: seq<Issued>, k: nat)
    requires k < |issued|
  {
    && issued[k].logLength ==
       inputs.historyEnd + |inputs.tail| + |Rounds(world, issued[..k])| + |Heard(world, k + 1)|
    && Trail(issued[k].sends, world.provider(k + 1), issued[k].request, inputs.route, inputs.hasSink)
  }

  ghost predicate AllAsked(world: World, inputs: Inputs, issued: seq<Issued>) {
    forall k :: 0 <= k < |issued| ==> AskedInTurn(world, inputs, issued, k)
  }

  /** The provider's answer is complete and calls tools. */
  ghost predicate CallsTools(world: World, i: Issued, n: nat) {
    && Reply(world, i, n).Some?
    && CompleteStop(Reply(world, i, n).value.stopReason)
    && ToolUses(Reply(world, i, n).value.blocks) != []
  }

  ghost predicate AllCalled(world: World, issued: seq<Issued>) {
    forall k :: 0 <= k < |issued| ==> CallsTools(world, issued[k], k + 1)
  }

  /** Between iterations: every request so far was answered by tool calls, and the transcript is
      exactly the tail and those rounds. */
  ghost predicate Conversed(world: World, inputs: Inputs, t: Turn) {
    && t.transcript == inputs.tail + Rounds(world, t.issued)
    && AllAsked(world, inputs, t.issued)
    && AllCalled(world, t.issued)
    && t.dispatched == CalledIds(world, t.issued)
    && t.seen == Elements(t.dispatched)
  }

  /** Within an iteration: its request is out, and nothing has come of the answer yet. */
  ghost predicate Waiting(world: World, inputs: Inputs, t: Turn) {
    && t.issued != []
    && var earlier, n := t.issued[..|t.issued| - 1], |t.issued|;
    && t.transcript == inputs.tail + Rounds(world, earlier) + Heard(world, n)
    && AllAsked(world, inputs, t.issued)
    && AllCalled(world, earlier)
    && t.dispatched == CalledIds(world, earlier)
    && t.seen == Elements(t.dispatched)
    && t.view.checkpoint == t.issued[n - 1].checkpoint
  }

  lemma AskedMore(world: World, inputs: Inputs, issued: seq<Issued>, i: Issued)
    requires AllAsked(world, inputs, issued)
    requires i.logLength ==
      inputs.historyEnd + |inputs.tail| + |Rounds(world, issued)| + |Heard(world, |issued| + 1)|
    requires Trail(i.sends, world.provider(|issued| + 1), i.request, inputs.route, inputs.hasSink)
    ensures AllAsked(world, inputs, issued + [i])
  {
    var more := issued + [i];
    forall k | 0 <= k < |more| ensures AskedInTurn(world, inputs, more, k) {
      assert more[..k] == issued[..k];
      if k < |issued| {
        assert AskedInTurn(world, inputs, issued, k);
      } else {
        assert issued[..k] == issued;
      }
    }
  }

  lemma ElementsMore(ids: seq<string>, uses: seq<Content>)
    requires AllToolUses(uses)
    ensures Elements(ids + IdSeq(uses)) == Elements(ids) + Ids(uses)
  {
    var more := ids + IdSeq(uses);
    forall id | id in Elements(ids) ensures id in Elements(more) {
      var k :| 0 <= k < |ids| && ids[k] == id;
      assert more[k] == id;
    }
    forall id | id in Ids(uses) ensures id in Elements(more) {
      var k :| 0 <= k < |uses| && uses[k].id == id;
      assert more[|ids| + k] == id;
    }
  }

  lemma CalledMore(world: World, issued: seq<Issued>)
    requires issued != [] && AllCalled(world, issued[..|issued| - 1])
    requires CallsTools(world, issued[|issued| - 1], |issued|)
    ensures AllCalled(world, issued)
  {
    forall k | 0 <= k < |issued| ensures CallsTools(world, issued[k], k + 1) {
      if k < |issued| - 1 {
        assert issued[..|issued| - 1][k] == issued[k];
      }
    }
  }

  lemma RoundAdded(world: World, tail: seq<Message>, before: seq<Message>, after: seq<Message>, issued: seq<Issued>)
    requires issued != []
    requires before == tail + Rounds(world, issued[..|issued| - 1]) + Heard(world, |issued|)
    requires var blocks := Said(world, issued[|issued| - 1], |issued|);
      after == before + [Message(Assistant, blocks)]
               + [Message(Tool, ToolAnswers(world, ToolUses(blocks), |issued|))]
    ensures after == tail + Rounds(world, issued)
  {
    var n := |issued|;
    var blocks := Said(world, issued[n - 1], n);
    Regroup(tail, Rounds(world, issued[..n - 1]), Heard(world, n), Message(Assistant, blocks),
            Message(Tool, ToolAnswers(world, ToolUses(blocks), n)));
  }

  lemma Regroup(tail: seq<Message>, rounds: seq<Message>, heard: seq<Message>, call: Message, answer: Message)
    ensures tail + rounds + heard + [call] + [answer] == tail + (rounds + (heard + [call] + [answer]))
  {
  }

  /** Once the tools have answered, the iteration is one more round. */
  lemma RoundDone(world: World, inputs: Inputs, t: Turn, u: Turn)
    requires Waiting(world, inputs, t) && u.issued == t.issued
    requires CallsTools(world, t.issued[|t.issued| - 1], |t.issued|)
    requires var blocks := Said(world, t.issued[|t.issued| - 1], |t.issued|);
      && u.transcript == t.transcript + [Message(Assistant, blocks)]
         + [Message(Tool, ToolAnswers(world, ToolUses(blocks), |t.issued|))]
      && u.dispatched == t.dispatched + IdSeq(ToolUses(blocks)) && u.seen == t.seen + Ids(ToolUses(blocks))
    ensures Conversed(world, inputs, u)
  {
    ElementsMore(t.dispatched, ToolUses(Said(world, t.issued[|t.issued| - 1], |t.issued|)));
    RoundAdded(world, inputs.tail, t.transcript, u.transcript, t.issued);
    CalledMore(world, t.issued);
  }

  /** Once its request is out, an iteration waits. */
  lemma RequestOut(world: World, inputs: Inputs, t: Turn, u: Turn, i: Issued)
    requires Conversed(world, inputs, t)
    requires u.issued == t.issued + [i] && u.transcript == t.transcript + Heard(world, |t.issued| + 1)
    requires u.dispatched == t.dispatched && u.seen == t.seen && u.view.checkpoint == i.checkpoint
    requires i.logLength == inputs.historyEnd + |u.transcript|
    requires Trail(i.sends, world.provider(|t.issued| + 1), i.request, inputs.route, inputs.hasSink)
    ensures Waiting(world, inputs, u)
  {
    AskedMore(world, inputs, t.issued, i);
    assert u.issued[..|u.issued| - 1] == t.issued;
  }

  ghost function Elements(ids: seq<string>): set<string> {
    set k | 0 <= k < |ids| :: ids[k]
  }

  // ---------------------------------------------------------------- inbox and requests

  const MAX_INBOX_BYTES: nat := 32768

  function Hears(t: Turn, more: seq<Message>): Turn {
    t.(transcript := t.transcript + more, view := t.view.(messages := t.view.messages + more))
  }

  /** The inbox cannot be read, or what it holds is too long or no text. */
  ghost predicate InboxFails(world: World, n: nat, kind: ErrorKind) {
    && world.inbox.Some?
    && match world.inbox.value(n)
       case Err(k) => kind == k
       case Ok(text) => kind == InvalidArgument && (|text| > MAX_INBOX_BYTES || !ValidUtf8(text))
  }

  method ReadInbox(world: World, inputs: Inputs, t: Turn, iteration: nat, ghost base: seq<Message>)
    returns (r: Result<()>, u: Turn)
    requires TurnInv(t, base, inputs)
    ensures TurnInv(u, base, inputs)
    ensures u == t || (exists text :: u == Push(t, Message(User, [TextBlock(text)])))
    ensures r.Ok? ==> u == Hears(t, Heard(world, iteration))
    ensures r.Err? ==> u == t && InboxFails(world, iteration, r.kind)
  {
    u := t;
    assert Hears(t, []) == t;
    if world.inbox.None? {
      return Ok(()), u;
    }
    var inbox := world.inbox.value(iteration);
    if inbox.Err? {
      return Err(inbox.kind), u;
    }
    if |inbox.value| > MAX_INBOX_BYTES || !ValidUtf8(inbox.value) {
      return Err(InvalidArgument), u;
    }
    if inbox.value != "" {
      var m := Message(User, [TextBlock(world.inboxPrefix + inbox.value)]);
      PushKeepsInv(t, m, base, inputs);
      u := Push(t, m);
    }
    return Ok(()), u;
  }

  lemma RecordIssued(inputs: Inputs, view: View, log: seq<Message>, i: Issued, backend: nat -> Answer)
    requires Mirrors(view, log, inputs.checkpoint.covered)
    requires Cost(inputs.context, Framed(BudgetFrame(inputs), view)) <= inputs.context.maxTokens
    requires i.request == Framed(inputs.frame, view) && i.checkpoint == view.checkpoint && i.logLength == |log|
    requires Trail(i.sends, backend, i.request, inputs.route, inputs.hasSink)
    ensures IssuedOk(i, log, inputs)
  {
    if inputs.context.counter.None? {
      SendsFitBudget(inputs, view, i.sends, backend);
    }
    assert log[..|log|] == log && log[view.checkpoint.covered..|log|] == view.messages;
  }

  /** Sends the fitted view along the route and records every attempt. */
  method Ask(world: World, inputs: Inputs, t: Turn, iteration: nat, ghost base: seq<Message>)
    returns (r: Result<Response>, u: Turn)
    requires TurnInv(t, base, inputs)
    requires Cost(inputs.context, Framed(BudgetFrame(inputs), t.view)) <= inputs.context.maxTokens
    ensures TurnInv(u, base, inputs)
    ensures u == t.(issued := u.issued) && t.issued <= u.issued && |u.issued| == |t.issued| + 1
    ensures var i := u.issued[|t.issued|];
      && u.issued == t.issued + [i]
      && i.logLength == |base| + |t.transcript| && i.checkpoint == t.view.checkpoint
      && Trail(i.sends, world.provider(iteration), i.request, inputs.route, inputs.hasSink)
      && (r.Ok? ==> Reply(world, i, iteration) == Some(r.value))
      && (r.Err? ==> ProviderFails(world, i, iteration, r.kind))
  {
    var request := Framed(inputs.frame, t.view);
    var outcome, sends := Run(world.provider(iteration), request, inputs.route, inputs.hasSink);
    ghost var log := base + t.transcript;
    var logLength := t.view.checkpoint.covered + |t.view.messages|;
    u := t.(issued := t.issued + [Issued(request, t.view.checkpoint, logLength, sends)]);
    RecordIssued(inputs, t.view, log, u.issued[|t.issued|], world.provider(iteration));
    r := outcome.response;
  }

  // ---------------------------------------------------------------- tool calls

  function ToolUses(blocks: seq<Content>): (uses: seq<Content>)
    ensures forall u :: u in uses ==> u.ToolUse? && u in blocks
  {
    if blocks == [] then []
    else
      var last := blocks[|blocks| - 1];
      ToolUses(blocks[..|blocks| - 1]) + (if last.ToolUse? then [last] else [])
  }

  predicate AllToolUses(uses: seq<Content>) {
    forall k :: 0 <= k < |uses| ==> uses[k].ToolUse?
  }

  /** Ids are nonempty and new, also among themselves. */
  ghost predicate Fresh(uses: seq<Content>, seen: set<string>)
    requires AllToolUses(uses)
  {
    && (forall k :: 0 <= k < |uses| ==> uses[k].id != "" && uses[k].id !in seen)
    && (forall i, j :: 0 <= i < j < |uses| ==> uses[i].id != uses[j].id)
  }

  function Ids(uses: seq<Content>): set<string>
    requires AllToolUses(uses)
  {
    set k | 0 <= k < |uses| :: uses[k].id
  }

  method AdmitToolUseIds(uses: seq<Content>, before: set<string>) returns (ok: bool, seen: set<string>)
    requires AllToolUses(uses)
    ensures ok <==> Fresh(uses, before)
    ensures ok ==> seen == before + Ids(uses)
  {
    seen := before;
    for i := 0 to |uses|
      invariant Fresh(uses[..i], before)
      invariant seen == before + Ids(uses[..i])
    {
      assert uses[..i + 1] == uses[..i] + [uses[i]];
      assert forall k :: 0 <= k < i ==> uses[..i][k] == uses[k];
      if uses[i].id == "" || uses[i].id in seen {
        if uses[i].id in Ids(uses[..i]) {
          var k :| 0 <= k < i && uses[..i][k].id == uses[i].id;
          assert uses[k].id == uses[i].id;
        }
        return false, seen;
      }
      AddId(uses, i);
      seen := seen + {uses[i].id};
    }
    assert uses[..|uses|] == uses;
    ok := true;
  }

  lemma AddId(uses: seq<Content>, i: nat)
    requires AllToolUses(uses) && i < |uses|
    ensures Ids(uses[..i + 1]) == Ids(uses[..i]) + {uses[i].id}
    ensures forall k :: 0 <= k < i ==> uses[k].id in Ids(uses[..i])
  {
    var now, next := uses[..i], uses[..i + 1];
    forall k | 0 <= k < i ensures uses[k].id in Ids(now) {
      assert now[k] == uses[k];
    }
    assert next[i] == uses[i];
    forall id | id in Ids(now) ensures id in Ids(next) {
      var k :| 0 <= k < |now| && now[k].id == id;
      assert next[k].id == id;
    }
    forall id | id in Ids(next) ensures id in Ids(now) + {uses[i].id} {
      var k :| 0 <= k < |next| && next[k].id == id;
      if k < i {
        assert now[k].id == id;
      }
    }
  }

  predicate ModelVisible(kind: ErrorKind) {
    !kind.Cancelled? && !kind.Storage? && !kind.Internal?
  }

  /** One result per call, in call order, with the call's id. */
  predicate Answers(results: seq<Content>, uses: seq<Content>) {
    && |results| == |uses| && AllToolUses(uses)
    && forall k :: 0 <= k < |results| ==> results[k].ToolResult? && results[k].toolUseId == uses[k].id
  }

  /** A result carries its call's text, data and error flag, or the rendering of its call's error. */
  predicate TellsOutputs(world: World, results: seq<Content>, n: nat) {
    forall k :: 0 <= k < |results| ==>
      && results[k].ToolResult?
      && (world.tool(n, k).Ok? ==>
            && results[k].output == world.tool(n, k).value.text
            && results[k].structured == world.tool(n, k).value.structured
            && results[k].isError == world.tool(n, k).value.isError)
      && (world.tool(n, k).Err? ==>
            results[k].output == world.toolError(n, k) && results[k].structured.None? && results[k].isError)
  }

  /** The batch failed, or one of its calls did in a way the model cannot repair. */
  ghost predicate ToolsFail(world: World, uses: seq<Content>, n: nat, kind: ErrorKind) {
    || world.batchError(n) == Some(kind)
    || exists k: nat :: k < |uses| && world.tool(n, k) == Err(kind) && !ModelVisible(kind)
  }

  /** Errors the model can repair become error results; infrastructure errors end the turn. */
  method CollectToolResults(world: World, uses: seq<Content>, iteration: nat) returns (r: Result<seq<Content>>)
    requires AllToolUses(uses)
    ensures r.Ok? ==> Answers(r.value, uses) && r.value == ToolAnswers(world, uses, iteration)
    ensures r.Ok? ==> TellsOutputs(world, r.value, iteration)
    ensures r.Err? ==> ToolsFail(world, uses, iteration, r.kind)
    ensures r.Ok? <==>
      && world.batchError(iteration).None?
      && forall k :: 0 <= k < |uses| ==>
           world.tool(iteration, k).Ok? || ModelVisible(world.tool(iteration, k).kind)
  {
    if world.batchError(iteration).Some? {
      return Err(world.batchError(iteration).value);
    }
    var results: seq<Content> := [];
    for i := 0 to |uses|
      invariant |results| == i
      invariant forall k :: 0 <= k < i ==> results[k] == ToolAnswer(world, uses[k], iteration, k)
      invariant forall k :: 0 <= k < i ==> world.tool(iteration, k).Ok? || ModelVisible(world.tool(iteration, k).kind)
    {
      var output := world.tool(iteration, i);
      if output.Ok? {
        var v := output.value;
        results := results + [ToolResult(uses[i].id, v.text, v.structured, v.isError)];
      } else if ModelVisible(output.kind) {
        results := results + [ToolResult(uses[i].id, world.toolError(iteration, i), None, true)];
      } else {
        return Err(output.kind);
      }
    }
    return Ok(results);
  }

  // ---------------------------------------------------------------- pairing

  predicate NoResults(blocks: seq<Content>) {
    forall k :: 0 <= k < |blocks| ==> !blocks[k].ToolResult?
  }

  /** What a provider sends: assistant messages carry no tool results of their own. */
  predicate NoStrayResults(messages: seq<Message>) {
    forall k :: 0 <= k < |messages| && messages[k].role == Assistant ==> NoResults(messages[k].blocks)
  }

  lemma {:induction false} NoResultsPaired(open: set<string>, blocks: seq<Content>)
    requires NoResults(blocks)
    ensures PairedBlocks(open, blocks)
    ensures AfterBlocks(open, blocks) == open + Ids(ToolUses(blocks))
  {
    if blocks != [] {
      var init, last := blocks[..|blocks| - 1], blocks[|blocks| - 1];
      NoResultsPaired(open, init);
      if last.ToolUse? {
        var uses := ToolUses(blocks);
        assert uses[..|uses| - 1] == ToolUses(init);
        AddId(uses, |uses| - 1);
        assert uses[..|uses|] == uses;
      } else {
        assert ToolUses(init) + [] == ToolUses(init);
      }
    }
  }

  lemma {:induction false} AnswersPaired(open: set<string>, results: seq<Content>, uses: seq<Content>)
    requires Answers(results, uses) && Ids(uses) <= open
    requires forall i, j :: 0 <= i < j < |uses| ==> uses[i].id != uses[j].id
    ensures PairedBlocks(open, results)
    ensures AfterBlocks(open, results) == open - Ids(uses)
  {
    if results != [] {
      var n := |results| - 1;
      AddId(uses, n);
      assert uses[..n + 1] == uses;
      AnswersPaired(open, results[..n], uses[..n]);
      assert uses[n].id in Ids(uses);
      assert uses[n].id !in Ids(uses[..n]);
    }
  }

  lemma PairedPush(messages: seq<Message>, m: Message)
    ensures Paired({}, messages + [m]) <==> Paired({}, messages) && PairedBlocks(Open({}, messages), m.blocks)
    ensures Open({}, messages + [m]) == AfterBlocks(Open({}, messages), m.blocks)
  {
    assert (messages + [m])[..|messages|] == messages;
  }

  /** A call group and its answers keep a paired log paired. */
  lemma ExchangePaired(messages: seq<Message>, blocks: seq<Content>, results: seq<Content>)
    requires Paired({}, messages) && NoResults(blocks)
    requires Answers(results, ToolUses(blocks)) && Fresh(ToolUses(blocks), {})
    ensures Paired({}, messages + [Message(Assistant, blocks)])
    ensures Paired({}, messages + [Message(Assistant, blocks)] + [Message(Tool, results)])
  {
    var asked := messages + [Message(Assistant, blocks)];
    PairedPush(messages, Message(Assistant, blocks));
    NoResultsPaired(Open({}, messages), blocks);
    PairedPush(asked, Message(Tool, results));
    AnswersPaired(Open({}, asked), results, ToolUses(blocks));
  }

  /** The stored log and the tail were paired where the turn starts, and the provider sends no
      results of its own. */
  ghost predicate PairedInputs(base: seq<Message>, transcript: seq<Message>, inputs: Inputs) {
    && inputs.checkpoint.covered <= |base| && |inputs.tail| <= |transcript|
    && Paired({}, (base + inputs.tail)[inputs.checkpoint.covered..])
    && NoStrayResults(transcript[|inputs.tail|..])
  }

  ghost predicate StaysPaired(transcript: seq<Message>, base: seq<Message>, inputs: Inputs) {
    && inputs.tail <= transcript
    && inputs.checkpoint.covered <= |base|
    && (PairedInputs(base, transcript, inputs) ==> Paired({}, (base + transcript)[inputs.checkpoint.covered..]))
  }

  lemma StaysPairedPush(transcript: seq<Message>, m: Message, base: seq<Message>, inputs: Inputs)
    requires StaysPaired(transcript, base, inputs)
    requires m.role == Assistant || NoResults(m.blocks)
    ensures StaysPaired(transcript + [m], base, inputs)
  {
    var c, n := inputs.checkpoint.covered, |inputs.tail|;
    assert (base + (transcript + [m]))[c..] == (base + transcript)[c..] + [m];
    assert (transcript + [m])[n..] == transcript[n..] + [m];
    if NoStrayResults((transcript + [m])[n..]) {
      assert (transcript[n..] + [m])[|transcript[n..]|] == m;
      assert NoStrayResults(transcript[n..]) by {
        forall k | 0 <= k < |transcript[n..]| && transcript[n..][k].role == Assistant
          ensures NoResults(transcript[n..][k].blocks)
        {
          assert (transcript[n..] + [m])[k] == transcript[n..][k];
        }
      }
      NoResultsPaired(Open({}, (base + transcript)[c..]), m.blocks);
      PairedPush((base + transcript)[c..], m);
    }
  }

  lemma StaysPairedExchange(transcript: seq<Message>, blocks: seq<Content>, results: seq<Content>,
                            base: seq<Message>, inputs: Inputs)
    requires StaysPaired(transcript, base, inputs)
    requires Answers(results, ToolUses(blocks)) && Fresh(ToolUses(blocks), {})
    ensures StaysPaired(transcript + [Message(Assistant, blocks)] + [Message(Tool, results)], base, inputs)
  {
    var c, n := inputs.checkpoint.covered, |inputs.tail|;
    var log, call, answer := (base + transcript)[c..], Message(Assistant, blocks), Message(Tool, results);
    var more := transcript + [call] + [answer];
    assert (base + more)[c..] == log + [call] + [answer];
    if NoStrayResults(more[n..]) {
      assert more[n..][|transcript| - n] == call;
      assert NoStrayResults(transcript[n..]) by {
        forall k | 0 <= k < |transcript[n..]| && transcript[n..][k].role == Assistant
          ensures NoResults(transcript[n..][k].blocks)
        {
          assert more[n..][k] == transcript[n..][k];
        }
      }
      if Paired({}, log) {
        ExchangePaired(log, blocks, results);
      }
    }
  }

  // ---------------------------------------------------------------- one iteration

  predicate DistinctIds(ids: seq<string>) {
    forall i, j :: 0 <= i < j < |ids| ==> ids[i] != ids[j]
  }

  /** No tool-call id is dispatched twice in a turn, however much of it is compacted away. */
  ghost predicate Dispatches(t: Turn) {
    DistinctIds(t.dispatched) && forall k :: 0 <= k < |t.dispatched| ==> t.dispatched[k] in t.seen
  }

  function IdSeq(uses: seq<Content>): (r: seq<string>)
    requires AllToolUses(uses)
    ensures |r| == |uses| && forall k :: 0 <= k < |r| ==> r[k] == uses[k].id
  {
    seq(|uses|, k requires 0 <= k < |uses| => uses[k].id)
  }

  lemma DispatchMore(t: Turn, uses: seq<Content>)
    requires Dispatches(t) && AllToolUses(uses) && Fresh(uses, t.seen)
    ensures Dispatches(t.(seen := t.seen + Ids(uses), dispatched := t.dispatched + IdSeq(uses)))
  {
    var more := t.dispatched + IdSeq(uses);
    forall k | 0 <= k < |more| ensures more[k] in t.seen + Ids(uses) {
      if k >= |t.dispatched| {
        assert uses[k - |t.dispatched|].id in Ids(uses);
      }
    }
  }

  /** Everything the loop maintains between iterations. */
  ghost predicate LoopInv(t: Turn, base: seq<Message>, inputs: Inputs) {
    TurnInv(t, base, inputs) && StaysPaired(t.transcript, base, inputs) && Dispatches(t)
  }

  /** Tools are called that the turn does not have, or none although the provider stopped for them, or
      the batch fails. */
  ghost predicate ExchangeFails(world: World, inputs: Inputs, blocks: seq<Content>, n: nat, kind: ErrorKind) {
    if !inputs.hasTools || ToolUses(blocks) == [] then kind == Internal
    else ToolsFail(world, ToolUses(blocks), n, kind)
  }

  /** Runs one batch of tool calls and appends the exchange to transcript and view. */
  method Exchange(world: World, inputs: Inputs, t: Turn, blocks: seq<Content>, iteration: nat,
                  ghost base: seq<Message>)
    returns (r: Result<()>, u: Turn)
    requires LoopInv(t, base, inputs) && Fresh(ToolUses(blocks), t.seen)
    ensures AllIssuedOk(u.issued, base + u.transcript, inputs)
    ensures r.Ok? ==> LoopInv(u, base, inputs)
    ensures u.issued == t.issued && StaysPaired(u.transcript, base, inputs) && Dispatches(u)
    ensures r.Ok? ==> inputs.hasTools && ToolUses(blocks) != [] && u.view.checkpoint == t.view.checkpoint
    ensures r.Ok? ==>
      && u.transcript == t.transcript + [Message(Assistant, blocks)]
         + [Message(Tool, ToolAnswers(world, ToolUses(blocks), iteration))]
      && u.dispatched == t.dispatched + IdSeq(ToolUses(blocks)) && u.seen == t.seen + Ids(ToolUses(blocks))
    ensures r.Err? ==> ExchangeFails(world, inputs, blocks, iteration, r.kind)
  {
    var uses := ToolUses(blocks);
    DispatchMore(t, uses);
    u := t.(seen := t.seen + Ids(uses));
    if !inputs.hasTools || uses == [] {
      return Err(Internal), u;
    }
    var call := Message(Assistant, blocks);
    PushKeepsInv(t, call, base, inputs);
    StaysPairedPush(t.transcript, call, base, inputs);
    u := Push(u, call).(dispatched := t.dispatched + IdSeq(uses));
    var results := CollectToolResults(world, uses, iteration);
    if results.Err? {
      return Err(results.kind), u;
    }
    var answer := Message(Tool, results.value);
    PushKeepsInv(Push(t, call), answer, base, inputs);
    StaysPairedExchange(t.transcript, blocks, results.value, base, inputs);
    u := Push(u, answer);
    return Ok(()), u;
  }

  /** What an iteration leads to: another one, or the terminal answer. */
  datatype Progress = Again | Finished(blocks: seq<Content>, stopReason: StopReason)

  predicate CompleteStop(stop: StopReason) {
    stop == EndTurn || stop == StopSequence || stop == ToolUseStop
  }

  /** Fitting some view failed with this error. */
  ghost predicate ContextFails(world: World, inputs: Inputs, kind: ErrorKind) {
    exists view: View, fits: nat, asked: Option<Request> ::
      FitOutcome(view, BudgetFrame(inputs), inputs.context, world.render, world.fitCancelled(fits), world.summary(fits),
                 Err(kind), view, asked)
  }

  /** The sends of iteration `n` brought no response: the last one threw, was refused for good, or
      the pause after it was interrupted. */
  ghost predicate ProviderFails(world: World, i: Issued, n: nat, kind: ErrorKind) {
    if i.sends == [] then kind == InvalidArgument
    else
      match world.provider(n)(|i.sends| - 1)
      case Threw(aborted, _) => kind == if aborted then Cancelled else Internal
      case Answered(response, _, pause) => response == Err(kind) || (response.Err? && pause == Err(kind))
  }

  /** The provider answered, but not with something the turn may go on with. */
  ghost predicate ReplyFails(world: World, inputs: Inputs, issued: seq<Issued>, kind: ErrorKind)
    requires issued != []
  {
    var n := |issued|;
    var reply := Reply(world, issued[n - 1], n);
    && reply.Some?
    && if reply.value.stopReason == CancelledStop then kind == Cancelled
       else if !CompleteStop(reply.value.stopReason) then kind == Upstream
       else if !Fresh(ToolUses(reply.value.blocks), Elements(CalledIds(world, issued[..n - 1]))) then kind == Upstream
       else
         && (reply.value.stopReason == ToolUseStop || ToolUses(reply.value.blocks) != [])
         && ExchangeFails(world, inputs, reply.value.blocks, n, kind)
  }

  /** Why iteration `n` ends the turn with an error: before its request, or by what came of it. */
  ghost predicate IterationFails(world: World, inputs: Inputs, issued: seq<Issued>, n: nat, kind: ErrorKind) {
    || (|issued| == n - 1 && (InboxFails(world, n, kind) || ContextFails(world, inputs, kind)))
    || (|issued| == n && n > 0 &&
        (ProviderFails(world, issued[n - 1], n, kind) || ReplyFails(world, inputs, issued, kind)))
  }

  /** The last request was answered without tool calls, by these blocks. */
  ghost predicate AnsweredLast(world: World, inputs: Inputs, issued: seq<Issued>, blocks: seq<Content>,
                               stopReason: StopReason) {
    && issued != []
    && AllAsked(world, inputs, issued)
    && AllCalled(world, issued[..|issued| - 1])
    && Reply(world, issued[|issued| - 1], |issued|) == Some(Response(blocks, stopReason))
    && (stopReason == EndTurn || stopReason == StopSequence)
    && ToolUses(blocks) == []
  }

  /** The turn is about to end with this answer. */
  ghost predicate Closes(world: World, inputs: Inputs, t: Turn, answer: Progress)
    requires answer.Finished?
  {
    Waiting(world, inputs, t) && AnsweredLast(world, inputs, t.issued, answer.blocks, answer.stopReason)
  }

  method Iterate(world: World, inputs: Inputs, t: Turn, iteration: nat, ghost base: seq<Message>)
    returns (r: Result<Progress>, u: Turn)
    requires LoopInv(t, base, inputs) && Conversed(world, inputs, t)
    requires |base| == inputs.historyEnd && |t.issued| == iteration - 1
    ensures AllIssuedOk(u.issued, base + u.transcript, inputs)
    ensures StaysPaired(u.transcript, base, inputs) && Dispatches(u)
    ensures r.Ok? ==> LoopInv(u, base, inputs)
    ensures |u.issued| <= |t.issued| + 1
    ensures r.Ok? ==> |u.issued| == iteration
    ensures r.Ok? && r.value.Again? ==> Conversed(world, inputs, u)
    ensures r.Ok? && r.value.Finished? ==> Closes(world, inputs, u, r.value)
    ensures r.Err? ==> IterationFails(world, inputs, u.issued, iteration, r.kind)
  {
    var ready;
    ready, u := Prepare(world, inputs, t, iteration, base);
    if ready.Err? {
      return Err(ready.kind), u;
    }
    var response;
    response, u := Ask(world, inputs, u, iteration, base);
    RequestOut(world, inputs, t, u, u.issued[|t.issued|]);
    if response.Err? {
      return Err(response.kind), u;
    }
    r, u := Respond(world, inputs, u, response.value, iteration, base);
  }

  /** Acts on a response: it must be complete and call only with new ids; then its calls are run, or
      it is the terminal answer. */
  method Respond(world: World, inputs: Inputs, t: Turn, response: Response, iteration: nat, ghost base: seq<Message>)
    returns (r: Result<Progress>, u: Turn)
    requires LoopInv(t, base, inputs) && Waiting(world, inputs, t)
    requires |t.issued| == iteration && Reply(world, t.issued[iteration - 1], iteration) == Some(response)
    ensures AllIssuedOk(u.issued, base + u.transcript, inputs) && u.issued == t.issued
    ensures StaysPaired(u.transcript, base, inputs) && Dispatches(u)
    ensures r.Ok? ==> LoopInv(u, base, inputs)
    ensures r.Ok? && r.value.Again? ==> Conversed(world, inputs, u)
    ensures r.Ok? && r.value.Finished? ==> Closes(world, inputs, u, r.value)
    ensures r.Err? ==> ReplyFails(world, inputs, t.issued, r.kind)
  {
    u := t;
    if response.stopReason == CancelledStop {
      return Err(Cancelled), u;
    }
    if !CompleteStop(response.stopReason) {
      return Err(Upstream), u;
    }
    var admitted, seen := AdmitToolUseIds(ToolUses(response.blocks), u.seen);
    if !admitted {
      return Err(Upstream), u;
    }
    if response.stopReason == ToolUseStop || ToolUses(response.blocks) != [] {
      var done;
      done, u := CallTools(world, inputs, u, response, iteration, base);
      if done.Err? {
        return Err(done.kind), u;
      }
      return Ok(Again), u;
    }
    return Ok(Finished(response.blocks, response.stopReason)), u;
  }

  /** Runs the calls of a complete response, which completes the round. */
  method CallTools(world: World, inputs: Inputs, t: Turn, response: Response, iteration: nat, ghost base: seq<Message>)
    returns (r: Result<()>, u: Turn)
    requires LoopInv(t, base, inputs) && Waiting(world, inputs, t)
    requires |t.issued| == iteration && Reply(world, t.issued[iteration - 1], iteration) == Some(response)
    requires CompleteStop(response.stopReason) && Fresh(ToolUses(response.blocks), t.seen)
    ensures AllIssuedOk(u.issued, base + u.transcript, inputs) && u.issued == t.issued
    ensures StaysPaired(u.transcript, base, inputs) && Dispatches(u)
    ensures r.Ok? ==> LoopInv(u, base, inputs) && Conversed(world, inputs, u)
    ensures r.Err? ==> ExchangeFails(world, inputs, response.blocks, iteration, r.kind)
  {
    r, u := Exchange(world, inputs, t, response.blocks, iteration, base);
    if r.Ok? {
      RoundDone(world, inputs, t, u);
    }
  }

  /** Reads the inbox and fits the view. */
  method Prepare(world: World, inputs: Inputs, t: Turn, iteration: nat, ghost base: seq<Message>)
    returns (r: Result<()>, u: Turn)
    requires LoopInv(t, base, inputs)
    ensures LoopInv(u, base, inputs) && u.issued == t.issued
    ensures r.Ok? ==> u.transcript == t.transcript + Heard(world, iteration)
    ensures u.dispatched == t.dispatched && u.seen == t.seen
    ensures r.Err? ==> InboxFails(world, iteration, r.kind) || ContextFails(world, inputs, r.kind)
    ensures r.Ok? ==> Cost(inputs.context, Framed(BudgetFrame(inputs), u.view)) <= inputs.context.maxTokens
  {
    r, u := ReadInbox(world, inputs, t, iteration, base);
    if u != t {
      var text :| u == Push(t, Message(User, [TextBlock(text)]));
      StaysPairedPush(t.transcript, Message(User, [TextBlock(text)]), base, inputs);
    }
    if r.Ok? {
      r, u := Fit(world, inputs, u, base);
    }
  }

  // ---------------------------------------------------------------- the whole turn

  datatype TurnResult = TurnResult(blocks: seq<Content>, stopReason: StopReason, checkpoint: Checkpoint,
                                   iterations: nat)

  predicate ValidOptions(options: Options) {
    && 4096 <= options.maxTokens <= 16 * 1024 * 1024
    && 256 <= options.summaryMaxBytes <= 65536
    && options.summaryMaxBytes <= options.maxTokens / 4
  }

  predicate ValidCheckpoint(inputs: Inputs) {
    && inputs.checkpoint.covered <= inputs.historyEnd
    && (inputs.checkpoint.covered > 0 ==> inputs.checkpoint.summary != "")
    && (inputs.checkpoint.summary != "" ==> ValidSummary(inputs.checkpoint.summary, inputs.context.summaryMaxBytes))
  }

  /** No request shows a tool result without its call. */
  ghost predicate NoStrandedResult(issued: seq<Issued>, log: seq<Message>) {
    forall k :: 0 <= k < |issued| ==>
      issued[k].checkpoint.covered <= issued[k].logLength <= |log| &&
      Follows(log[issued[k].checkpoint.covered..issued[k].logLength])
  }

  /** In no request a result lacks an open call. */
  ghost predicate RequestsPaired(issued: seq<Issued>, log: seq<Message>) {
    forall k :: 0 <= k < |issued| ==>
      issued[k].checkpoint.covered <= issued[k].logLength <= |log| &&
      Paired({}, log[issued[k].checkpoint.covered..issued[k].logLength])
  }

  /** In the log from the turn's checkpoint on every result follows its call, and no cut lies between
      a repeated result and the last call of its id. */
  ghost predicate KeepsCalls(log: seq<Message>, start: nat) {
    start <= |log| && Follows(log[start..]) && RepeatsStayWithCalls(log[start..])
  }

  /** What a finished turn comes to. Its last request was sent, and what the backend answered to the
      last of those sends is what is returned, ends the transcript, and calls no tools. Before that
      the transcript is the tail and one round per earlier request: what the inbox held, the
      provider's own blocks, and what its tools returned. */
  ghost predicate Concludes(world: World, inputs: Inputs, result: TurnResult, transcript: seq<Message>,
                            issued: seq<Issued>, dispatched: seq<string>)
  {
    var n := result.iterations;
    && |issued| == n > 0
    && issued[n - 1].sends != []
    && var last := world.provider(n)(|issued[n - 1].sends| - 1);
    && last.Answered? && last.response == Ok(Response(result.blocks, result.stopReason))
    && (result.stopReason == EndTurn || result.stopReason == StopSequence)
    && ToolUses(result.blocks) == []
    && transcript == inputs.tail + Rounds(world, issued[..n - 1]) + Heard(world, n) + [Message(Assistant, result.blocks)]
    && AllAsked(world, inputs, issued)
    && AllCalled(world, issued[..n - 1])
    && dispatched == CalledIds(world, issued[..n - 1])
    && result.checkpoint == issued[n - 1].checkpoint
  }

  /** A page is missing, unreadable, empty or longer than what is left. */
  ghost predicate HistoryFails(world: World, inputs: Inputs, kind: ErrorKind) {
    || (world.page.None? && kind == InvalidArgument)
    || exists loaded: nat ::
         && inputs.checkpoint.covered <= loaded < inputs.historyEnd && world.page.Some?
         && match world.page.value(loaded)
            case Err(k) => kind == k
            case Ok(size) => kind == Storage && (size == 0 || size > inputs.historyEnd - loaded)
  }

  /** Why a turn ends with an error. */
  ghost predicate TurnFails(world: World, inputs: Inputs, issued: seq<Issued>, kind: ErrorKind) {
    if !ValidOptions(inputs.context) || !ValidCheckpoint(inputs) then kind == InvalidArgument && issued == []
    else
      || (issued == [] && (HistoryFails(world, inputs, kind) || ContextFails(world, inputs, kind)))
      || RunFails(world, inputs, issued, kind)
  }

  /** The cap was reached, or an iteration failed. */
  ghost predicate RunFails(world: World, inputs: Inputs, issued: seq<Issued>, kind: ErrorKind) {
    || CapReached(world, inputs, issued, kind)
    || exists n: nat :: 1 <= n <= inputs.maxIterations && IterationFails(world, inputs, issued, n, kind)
  }

  /** Every allowed iteration called tools. */
  ghost predicate CapReached(world: World, inputs: Inputs, issued: seq<Issued>, kind: ErrorKind) {
    |issued| == inputs.maxIterations && AllCalled(world, issued) && kind == Internal
  }

  /** For every behaviour of storage, provider, tools, inbox and summaries: each request that goes
      out is the optional summary plus an exact suffix of the log, within budget for every target;
      the checkpoint returned covers no more than the log that is later committed; no tool call is
      dispatched twice; and no request shows a result whose call was cut away. */
  method RunTurn(world: World, inputs: Inputs)
    returns (r: Result<TurnResult>, transcript: seq<Message>, issued: seq<Issued>, dispatched: seq<string>)
    requires inputs.historyEnd <= |world.history|
    ensures !ValidOptions(inputs.context) || !ValidCheckpoint(inputs) ==> r == Err(InvalidArgument) && issued == []
    ensures AllIssuedOk(issued, world.history[..inputs.historyEnd] + transcript, inputs)
    ensures |issued| <= inputs.maxIterations && DistinctIds(dispatched)
    ensures inputs.tail <= transcript
    ensures r.Ok? ==> r.value.checkpoint.covered <= inputs.historyEnd + |transcript|
    ensures r.Ok? && r.value.checkpoint.covered > 0 ==> r.value.checkpoint.summary != ""
    ensures r.Ok? ==> 1 <= r.value.iterations <= inputs.maxIterations
    ensures r.Ok? ==> Concludes(world, inputs, r.value, transcript, issued, dispatched)
    ensures r.Err? ==> TurnFails(world, inputs, issued, r.kind)
    ensures KeepsCalls(world.history[..inputs.historyEnd] + transcript, inputs.checkpoint.covered) ==>
      NoStrandedResult(issued, world.history[..inputs.historyEnd] + transcript)
    ensures PairedInputs(world.history[..inputs.historyEnd], transcript, inputs) ==>
      KeepsCalls(world.history[..inputs.historyEnd] + transcript, inputs.checkpoint.covered)
    ensures PairedInputs(world.history[..inputs.historyEnd], transcript, inputs) ==>
      RequestsPaired(issued, world.history[..inputs.historyEnd] + transcript)
  {
    transcript, issued, dispatched := inputs.tail, [], [];
    ghost var base := world.history[..inputs.historyEnd];
    PairedStart(base, inputs);
    if !ValidOptions(inputs.context) || !ValidCheckpoint(inputs) {
      return Err(InvalidArgument), transcript, issued, dispatched;
    }
    var t := Turn(View(inputs.checkpoint, [], false), [], {}, 0, [], []);
    var loaded;
    loaded, t := LoadHistory(world, inputs, t);
    if loaded.Err? {
      return Err(loaded.kind), transcript, issued, dispatched;
    }
    MirrorsAppend(t.view, base, inputs.checkpoint.covered, inputs.tail);
    t := t.(view := t.view.(messages := t.view.messages + inputs.tail), transcript := inputs.tail);
    var result, u := Repeat(world, inputs, t, base);
    transcript, issued, dispatched := u.transcript, u.issued, u.dispatched;
    NothingStranded(base + u.transcript, u.issued, inputs);
    PairedTurn(u.transcript, u.issued, base, inputs);
    r := result;
  }

  /** Iterates until the provider answers without tool calls or the cap is reached. */
  method Repeat(world: World, inputs: Inputs, t: Turn, ghost base: seq<Message>)
    returns (r: Result<TurnResult>, u: Turn)
    requires LoopInv(t, base, inputs) && t.issued == [] && |base| == inputs.historyEnd
    requires Conversed(world, inputs, t)
    ensures AllIssuedOk(u.issued, base + u.transcript, inputs)
    ensures |u.issued| <= inputs.maxIterations && DistinctIds(u.dispatched)
    ensures StaysPaired(u.transcript, base, inputs)
    ensures r.Ok? ==> r.value.checkpoint.covered <= |base| + |u.transcript|
    ensures r.Ok? && r.value.checkpoint.covered > 0 ==> r.value.checkpoint.summary != ""
    ensures r.Ok? ==> 1 <= r.value.iterations <= inputs.maxIterations
    ensures r.Ok? ==> Concludes(world, inputs, r.value, u.transcript, u.issued, u.dispatched)
    ensures r.Err? ==> RunFails(world, inputs, u.issued, r.kind)
  {
    u := t;
    var iteration := 1;
    while iteration <= inputs.maxIterations
      invariant 1 <= iteration <= inputs.maxIterations + 1
      invariant LoopInv(u, base, inputs) && Conversed(world, inputs, u) && |u.issued| == iteration - 1
    {
      var progress;
      progress, u := Iterate(world, inputs, u, iteration, base);
      if progress.Err? {
        return Err(progress.kind), u;
      }
      if progress.value.Finished? {
        r, u := Finish(world, inputs, u, progress.value, base);
        return;
      }
      iteration := iteration + 1;
    }
    return Err(Internal), u;
  }

  /** The terminal answer joins the transcript; the view's checkpoint is returned. */
  method Finish(world: World, inputs: Inputs, t: Turn, progress: Progress, ghost base: seq<Message>)
    returns (r: Result<TurnResult>, u: Turn)
    requires LoopInv(t, base, inputs) && progress.Finished? && Closes(world, inputs, t, progress)
    ensures AllIssuedOk(u.issued, base + u.transcript, inputs) && u.issued == t.issued
    ensures StaysPaired(u.transcript, base, inputs) && Dispatches(u)
    ensures r.Ok? && Concludes(world, inputs, r.value, u.transcript, u.issued, u.dispatched)
    ensures r.value.checkpoint.covered <= |base| + |u.transcript|
    ensures r.value.checkpoint.covered > 0 ==> r.value.checkpoint.summary != ""
  {
    var answer := Message(Assistant, progress.blocks);
    PushKeepsInv(t, answer, base, inputs);
    StaysPairedPush(t.transcript, answer, base, inputs);
    u := t.(transcript := t.transcript + [answer]);
    var result := TurnResult(progress.blocks, progress.stopReason, t.view.checkpoint, |t.issued|);
    AnswerConcludes(world, inputs, t, result);
    r := Ok(result);
  }

  lemma AnswerConcludes(world: World, inputs: Inputs, t: Turn, result: TurnResult)
    requires Closes(world, inputs, t, Finished(result.blocks, result.stopReason))
    requires result.checkpoint == t.view.checkpoint && result.iterations == |t.issued|
    ensures Concludes(world, inputs, result, t.transcript + [Message(Assistant, result.blocks)], t.issued, t.dispatched)
  {
  }

  /** However often the view was cut: if the log keeps its calls, so does every request cut from it. */
  lemma NothingStranded(log: seq<Message>, issued: seq<Issued>, inputs: Inputs)
    requires AllIssuedOk(issued, log, inputs)
    ensures KeepsCalls(log, inputs.checkpoint.covered) ==> NoStrandedResult(issued, log)
  {
    var start := inputs.checkpoint.covered;
    if KeepsCalls(log, start) {
      forall k | 0 <= k < |issued|
        ensures issued[k].checkpoint.covered <= issued[k].logLength <= |log| &&
          Follows(log[issued[k].checkpoint.covered..issued[k].logLength])
      {
        assert IssuedOk(issued[k], log, inputs);
        RequestStrandsNothing(issued[k], log, inputs);
      }
    }
  }

  lemma RequestStrandsNothing(i: Issued, log: seq<Message>, inputs: Inputs)
    requires IssuedOk(i, log, inputs) && KeepsCalls(log, inputs.checkpoint.covered)
    ensures Follows(log[i.checkpoint.covered..i.logLength])
  {
    var start, c, n := inputs.checkpoint.covered, i.checkpoint.covered, i.logLength;
    assert log[..n][start..] == log[start..][..n - start];
    StretchStrandsNothing(log[start..], c - start, n - start);
    assert log[start..][c - start..n - start] == log[c..n];
  }

  /** When what the turn starts from is paired and the provider's messages hold no results, the log
      stays paired and so does every request. */
  lemma PairedTurn(transcript: seq<Message>, issued: seq<Issued>, base: seq<Message>, inputs: Inputs)
    requires AllIssuedOk(issued, base + transcript, inputs) && StaysPaired(transcript, base, inputs)
    ensures PairedInputs(base, transcript, inputs) ==> KeepsCalls(base + transcript, inputs.checkpoint.covered)
    ensures PairedInputs(base, transcript, inputs) ==> RequestsPaired(issued, base + transcript)
  {
    var log, start := base + transcript, inputs.checkpoint.covered;
    if Paired({}, log[start..]) {
      PairedStrandsNothing(log[start..]);
      forall k | 0 <= k < |issued|
        ensures issued[k].checkpoint.covered <= issued[k].logLength <= |log| &&
          Paired({}, log[issued[k].checkpoint.covered..issued[k].logLength])
      {
        assert IssuedOk(issued[k], log, inputs);
        RequestClosed(issued[k], log, inputs);
        PairedAtCut(log, start, issued[k].checkpoint.covered, issued[k].logLength);
      }
    }
  }

  lemma PairedStart(base: seq<Message>, inputs: Inputs)
    ensures PairedInputs(base, inputs.tail, inputs) ==> KeepsCalls(base + inputs.tail, inputs.checkpoint.covered)
  {
    if PairedInputs(base, inputs.tail, inputs) {
      PairedStrandsNothing((base + inputs.tail)[inputs.checkpoint.covered..]);
    }
  }

  lemma RequestClosed(i: Issued, log: seq<Message>, inputs: Inputs)
    requires IssuedOk(i, log, inputs)
    ensures inputs.checkpoint.covered <= i.checkpoint.covered
    ensures Open({}, log[..i.logLength][inputs.checkpoint.covered..i.checkpoint.covered]) == {}
  {
    var view := View(i.checkpoint, log[i.checkpoint.covered..i.logLength], false);
    MirrorsClosed(view, log[..i.logLength], inputs.checkpoint.covered);
  }

  lemma PairedPrefix(a: seq<Message>, b: seq<Message>)
    requires Paired({}, a + b)
    ensures Paired({}, a) && Paired(Open({}, a), b)
  {
    PairedConcat({}, a, b);
  }

  lemma PairedAtCut(log: seq<Message>, start: nat, cut: nat, end: nat)
    requires start <= cut <= end <= |log| && Paired({}, log[start..])
    requires Open({}, log[..end][start..cut]) == {}
    ensures Paired({}, log[cut..end])
  {
    assert log[start..] == log[start..end] + log[end..];
    PairedPrefix(log[start..end], log[end..]);
    assert log[..end][start..cut] == log[start..cut];
    assert log[start..end] == log[start..cut] + log[cut..end];
    PairedPrefix(log[start..cut], log[cut..end]);
  }
}

/** Whether compaction can leave a tool result whose call was cut away
    (the choice of cuts in src/oran-agent/context.cpp). */
module StrandedResults {
  import opened Core
  import opened Provider
  import opened Context

  /** Block `b` of message `i` is a tool result. */
  predicate IsResult(messages: seq<Message>, i: nat, b: nat) {
    i < |messages| && b < |messages[i].blocks| && messages[i].blocks[b].ToolResult?
  }

  /** Among its first `n` blocks the message calls `id`. */
  predicate CallsWithin(m: Message, id: string, n: nat)
    requires n <= |m.blocks|
  {
    exists a :: 0 <= a < n && m.blocks[a].ToolUse? && m.blocks[a].id == id
  }

  /** Message `j` holds a call of the id that result (`i`, `b`) answers, made before the result. */
  predicate CalledIn(messages: seq<Message>, j: nat, i: nat, b: nat)
    requires IsResult(messages, i, b)
  {
    j <= i && CallsWithin(messages[j], messages[i].blocks[b].toolUseId, if j < i then |messages[j].blocks| else b)
  }

  /** The message of the last call of its id before the result. */
  function LastCall(messages: seq<Message>, i: nat, b: nat): (r: Option<nat>)
    requires IsResult(messages, i, b)
    ensures r.Some? ==> CalledIn(messages, r.value, i, b) && forall j: nat :: CalledIn(messages, j, i, b) ==> j <= r.value
    ensures r.None? ==> forall j: nat :: !CalledIn(messages, j, i, b)
  {
    LastCallUpTo(messages, i, b, i + 1)
  }

  function LastCallUpTo(messages: seq<Message>, i: nat, b: nat, n: nat): (r: Option<nat>)
    requires IsResult(messages, i, b) && n <= i + 1
    ensures r.Some? ==> r.value < n && CalledIn(messages, r.value, i, b)
    ensures r.Some? ==> forall j: nat :: j < n && CalledIn(messages, j, i, b) ==> j <= r.value
    ensures r.None? ==> forall j: nat :: j < n ==> !CalledIn(messages, j, i, b)
  {
    if n == 0 then None
    else if CalledIn(messages, n - 1, i, b) then Some(n - 1)
    else LastCallUpTo(messages, i, b, n - 1)
  }

  /** Every tool result follows a call of its id. */
  predicate Follows(messages: seq<Message>) {
    forall i: nat, b: nat :: i < |messages| && b < |messages[i].blocks| && IsResult(messages, i, b) ==>
      LastCall(messages, i, b).Some?
  }

  /** The calls that are open just before block `b` of message `i`. */
  function OpenBefore(messages: seq<Message>, i: nat, b: nat): set<string>
    requires i < |messages| && b <= |messages[i].blocks|
  {
    AfterBlocks(Open({}, messages[..i]), messages[i].blocks[..b])
  }

  /** A result whose call has been answered before. */
  predicate Repeats(messages: seq<Message>, i: nat, b: nat) {
    IsResult(messages, i, b) && messages[i].blocks[b].toolUseId !in OpenBefore(messages, i, b)
  }

  /** A cut at `k` separates the result from the last call of its id. */
  predicate Separates(messages: seq<Message>, k: nat, i: nat, b: nat)
    requires IsResult(messages, i, b)
  {
    k <= i && LastCall(messages, i, b).Some? && LastCall(messages, i, b).value < k
  }

  /** No cut lies between a repeated result and the last call of its id. This can be read off the
      log before anything is compacted; a log whose results all answer open calls satisfies it. */
  predicate RepeatsStayWithCalls(messages: seq<Message>) {
    forall k: nat, i: nat, b: nat :: k < |messages| && i < |messages| && b < |messages[i].blocks| ==>
      (IsCut(messages, k) && Repeats(messages, i, b) ==> !Separates(messages, k, i, b))
  }

  // ---------------------------------------------------------------- results and suffixes

  lemma SuffixCalls(messages: seq<Message>, k: nat, j: nat, i: nat, b: nat)
    requires k <= |messages| && IsResult(messages[k..], i, b) && j < |messages| - k
    ensures IsResult(messages, i + k, b) && (CalledIn(messages[k..], j, i, b) <==> CalledIn(messages, j + k, i + k, b))
  {
    assert messages[k..][i] == messages[i + k] && messages[k..][j] == messages[j + k];
  }

  /** In the suffix a result has a call exactly when no cut there separates it from its last call. */
  lemma SuffixLastCall(messages: seq<Message>, k: nat, i: nat, b: nat)
    requires k <= i && IsResult(messages, i, b) && LastCall(messages, i, b).Some?
    ensures IsResult(messages[k..], i - k, b)
    ensures LastCall(messages[k..], i - k, b).Some? <==> !Separates(messages, k, i, b)
  {
    assert messages[k..][i - k] == messages[i];
    var last := LastCall(messages, i, b).value;
    if last >= k {
      SuffixCalls(messages, k, last - k, i - k, b);
    }
    if LastCall(messages[k..], i - k, b).Some? {
      SuffixCalls(messages, k, LastCall(messages[k..], i - k, b).value, i - k, b);
    }
  }

  /** After a suffix is taken every result follows a call exactly when none is separated. */
  lemma SuffixFollows(messages: seq<Message>, k: nat)
    requires Follows(messages) && k <= |messages|
    ensures Follows(messages[k..]) <==> forall i: nat, b: nat :: IsResult(messages, i, b) ==> !Separates(messages, k, i, b)
  {
    forall i: nat, b: nat | IsResult(messages, i, b) && Separates(messages, k, i, b) ensures !Follows(messages[k..]) {
      SuffixLastCall(messages, k, i, b);
    }
    if forall i: nat, b: nat :: IsResult(messages, i, b) ==> !Separates(messages, k, i, b) {
      forall i: nat, b: nat | IsResult(messages[k..], i, b) ensures LastCall(messages[k..], i, b).Some? {
        assert messages[k..][i] == messages[i + k];
        assert IsResult(messages, i + k, b);
        SuffixLastCall(messages, k, i + k, b);
      }
    }
  }

  /** A beginning of the log keeps its calls. */
  lemma PrefixFollows(messages: seq<Message>, n: nat)
    requires Follows(messages) && n <= |messages|
    ensures Follows(messages[..n])
  {
    forall i: nat, b: nat | IsResult(messages[..n], i, b) ensures LastCall(messages[..n], i, b).Some? {
      assert messages[..n][i] == messages[i];
      var j := LastCall(messages, i, b).value;
      assert messages[..n][j] == messages[j];
      assert CalledIn(messages[..n], j, i, b);
    }
  }

  // ---------------------------------------------------------------- open calls

  lemma {:induction false} OpenedInBlocks(open: set<string>, blocks: seq<Content>, id: string)
    requires id in AfterBlocks(open, blocks)
    ensures id in open || exists a :: 0 <= a < |blocks| && blocks[a].ToolUse? && blocks[a].id == id
  {
    if blocks != [] {
      var init, last := blocks[..|blocks| - 1], blocks[|blocks| - 1];
      if id in AfterBlocks(open, init) {
        OpenedInBlocks(open, init, id);
        if id !in open {
          var a :| 0 <= a < |init| && init[a].ToolUse? && init[a].id == id;
          assert blocks[a] == init[a];
        }
      } else {
        assert blocks[|blocks| - 1].ToolUse? && blocks[|blocks| - 1].id == id;
      }
    }
  }

  lemma {:induction false} OpenedInMessages(messages: seq<Message>, id: string)
    requires id in Open({}, messages)
    ensures exists j :: 0 <= j < |messages| && CallsWithin(messages[j], id, |messages[j].blocks|)
  {
    var n := |messages| - 1;
    var init, last := messages[..n], messages[n];
    OpenedInBlocks(Open({}, init), last.blocks, id);
    if id in Open({}, init) {
      OpenedInMessages(init, id);
      var j :| 0 <= j < |init| && CallsWithin(init[j], id, |init[j].blocks|);
      assert messages[j] == init[j];
    } else {
      assert CallsWithin(messages[n], id, |messages[n].blocks|);
    }
  }

  /** A result that answers an open call follows that call. */
  lemma OpenIsCalled(messages: seq<Message>, i: nat, b: nat)
    requires IsResult(messages, i, b) && !Repeats(messages, i, b)
    ensures LastCall(messages, i, b).Some?
  {
    var id := messages[i].blocks[b].toolUseId;
    var before := messages[i].blocks[..b];
    OpenedInBlocks(Open({}, messages[..i]), before, id);
    if id in Open({}, messages[..i]) {
      OpenedInMessages(messages[..i], id);
      var j :| 0 <= j < i && CallsWithin(messages[..i][j], id, |messages[..i][j].blocks|);
      assert messages[..i][j] == messages[j];
      assert CalledIn(messages, j, i, b);
    } else {
      var a :| 0 <= a < b && before[a].ToolUse? && before[a].id == id;
      assert messages[i].blocks[a] == before[a];
      assert CalledIn(messages, i, i, b);
    }
  }

  /** Behind a position where no call is open, what is open is what the suffix has opened. */
  lemma SuffixOpen(messages: seq<Message>, k: nat, i: nat, b: nat)
    requires k <= i < |messages| && b <= |messages[i].blocks| && Open({}, messages[..k]) == {}
    ensures messages[k..][i - k] == messages[i] && OpenBefore(messages, i, b) == OpenBefore(messages[k..], i - k, b)
  {
    assert messages[..i] == messages[..k] + messages[k..][..i - k];
    OpenConcat({}, messages[..k], messages[k..][..i - k]);
  }

  /** No cut separates a result that answers an open call from that call: only a repeated result can
      be stranded. */
  lemma OnlyRepeatsAreSeparated(messages: seq<Message>, k: nat, i: nat, b: nat)
    requires IsCut(messages, k) && IsResult(messages, i, b) && Separates(messages, k, i, b)
    ensures Repeats(messages, i, b)
  {
    if !Repeats(messages, i, b) {
      SuffixOpen(messages, k, i, b);
      OpenIsCalled(messages[k..], i - k, b);
      SuffixLastCall(messages, k, i, b);
    }
  }

  // ---------------------------------------------------------------- when compaction strands nothing

  /** For every log whose results follow their calls: no cut of the log strands a result if and only
      if no cut lies between a repeated result and the last call of its id. */
  lemma CutsStrandNothingIff(messages: seq<Message>)
    requires Follows(messages)
    ensures (forall k: nat :: IsCut(messages, k) ==> Follows(messages[k..])) <==> RepeatsStayWithCalls(messages)
  {
    forall k: nat | IsCut(messages, k)
      ensures Follows(messages[k..]) <==>
        forall i: nat, b: nat :: Repeats(messages, i, b) ==> !Separates(messages, k, i, b)
    {
      SuffixFollows(messages, k);
      forall i: nat, b: nat | IsResult(messages, i, b) && Separates(messages, k, i, b) ensures Repeats(messages, i, b) {
        OnlyRepeatsAreSeparated(messages, k, i, b);
      }
    }
  }

  /** The log of one call answered twice. */
  function AnsweredTwice(id: string): seq<Message> {
    [Message(Assistant, [ToolUse(id, "read", "{}")]),
     Message(Tool, [ToolResult(id, "first", None, false)]),
     Message(Tool, [ToolResult(id, "second", None, false)])]
  }

  /** There every result follows its call, the only cut lies between the two answers, and behind it
      the second answer has lost its call. */
  lemma SecondAnswerIsStranded(id: string)
    ensures var ms := AnsweredTwice(id);
      && Follows(ms) && (forall k: nat :: IsCut(ms, k) <==> k == 2)
      && !Follows(ms[2..]) && Repeats(ms, 2, 0) && Separates(ms, 2, 2, 0)
  {
    var ms := AnsweredTwice(id);
    OpenAlongTwice(id);
    assert ms[0].blocks[0].ToolUse? && ms[0].blocks[0].id == id;
    assert CalledIn(ms, 0, 1, 0) && CalledIn(ms, 0, 2, 0);
    assert !CalledIn(ms, 1, 2, 0) && !CalledIn(ms, 2, 2, 0);
    forall i: nat, b: nat | IsResult(ms, i, b) ensures LastCall(ms, i, b).Some? {
      assert (i == 1 || i == 2) && b == 0;
    }
    assert IsResult(ms, 2, 0) && Separates(ms, 2, 2, 0);
    SuffixFollows(ms, 2);
  }

  /** So whenever such a view is compacted at all, the second answer is stranded. */
  lemma CompactionStrandsSecondAnswer(id: string, before: View, after: View, options: Options)
    requires before.messages == AnsweredTwice(id) && Fitted(before, after, options) && after.checkpoint != before.checkpoint
    ensures after.messages == before.messages[2..] && !Follows(after.messages)
  {
    SecondAnswerIsStranded(id);
    var cut := FittedDropsPrefix(before, after, options);
  }

  lemma OpenAlongTwice(id: string)
    ensures var ms := AnsweredTwice(id);
      && Open({}, ms[..1]) == {id} && Open({}, ms[..2]) == {} && OpenBefore(ms, 2, 0) == {}
  {
    var ms := AnsweredTwice(id);
    var one, two := ms[..1], ms[..2];
    assert one[..0] == [] && one[0] == ms[0];
    assert ms[0].blocks[..0] == [] && ms[1].blocks[..0] == [] && ms[2].blocks[..0] == [];
    assert AfterBlocks({}, ms[0].blocks) == {id};
    assert two[..1] == one && two[1] == ms[1];
    assert AfterBlocks({id}, ms[1].blocks) == {};
  }

  /** Appending messages moves no cut. */
  lemma CutStays(messages: seq<Message>, n: nat, k: nat)
    requires n <= |messages| && IsCut(messages[..n], k)
    ensures IsCut(messages, k)
  {
    assert messages[..n][..k] == messages[..k];
  }

  /** Any stretch of the log from a cut on, or from its start, keeps the calls of its results. */
  lemma StretchStrandsNothing(messages: seq<Message>, k: nat, n: nat)
    requires Follows(messages) && RepeatsStayWithCalls(messages)
    requires k <= n <= |messages| && (k == 0 || IsCut(messages[..n], k))
    ensures Follows(messages[k..n])
  {
    if k == 0 {
      assert messages[0..n] == messages[..n];
      PrefixFollows(messages, n);
    } else {
      CutStays(messages, n, k);
      CutsStrandNothingIff(messages);
      PrefixFollows(messages[k..], n - k);
      assert messages[k..][..n - k] == messages[k..n];
    }
  }

  // ---------------------------------------------------------------- paired logs

  lemma {:induction false} PairedBlocksAnswerOpen(open: set<string>, blocks: seq<Content>, b: nat)
    requires PairedBlocks(open, blocks) && b < |blocks| && blocks[b].ToolResult?
    ensures blocks[b].toolUseId in AfterBlocks(open, blocks[..b])
  {
    if b < |blocks| - 1 {
      var init := blocks[..|blocks| - 1];
      assert init[..b] == blocks[..b] && init[b] == blocks[b];
      PairedBlocksAnswerOpen(open, init, b);
    }
  }

  lemma {:induction false} PairedAnswersOpen(messages: seq<Message>, i: nat, b: nat)
    requires Paired({}, messages) && IsResult(messages, i, b)
    ensures !Repeats(messages, i, b)
  {
    var n := |messages| - 1;
    var init := messages[..n];
    if i < n {
      assert init[i] == messages[i] && init[..i] == messages[..i];
      PairedAnswersOpen(init, i, b);
    } else {
      PairedBlocksAnswerOpen(Open({}, init), messages[n].blocks, b);
    }
  }

  /** Where every result answers an open call, results follow their calls and no cut strands one. */
  lemma PairedStrandsNothing(messages: seq<Message>)
    requires Paired({}, messages)
    ensures Follows(messages) && RepeatsStayWithCalls(messages)
  {
    forall i: nat, b: nat | IsResult(messages, i, b) ensures LastCall(messages, i, b).Some? && !Repeats(messages, i, b) {
      PairedAnswersOpen(messages, i, b);
      OpenIsCalled(messages, i, b);
    }
  }

  // ---------------------------------------------------------------- what one compaction leaves

  /** Fitting a view strands no result if the log it stands for meets the condition. */
  lemma FittedStrandsNothing(before: View, after: View, options: Options)
    requires Fitted(before, after, options) && Follows(before.messages) && RepeatsStayWithCalls(before.messages)
    ensures Follows(after.messages)
  {
    var cut := FittedDropsPrefix(before, after, options);
    if cut == 0 {
      assert before.messages[0..] == before.messages;
    } else {
      CutsStrandNothingIff(before.messages);
    }
  }
}

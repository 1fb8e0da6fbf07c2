/** What a batch of tool calls comes to (src/oran-agent/scheduler.cpp): which calls run when, how a
    batch ends, and that its coroutine returns. */
module ToolSchedulerOutcomes {
  import opened Core
  import opened ToolScheduler

  // ---------------------------------------------------------------- starting a batch

  /** A batch starts exactly if calls can run, there are some, and the parent is not cancelled: then
      the first calls, as many as may run at once, are in flight and nothing else has happened. */
  lemma BatchStarts(s: State, context: Context, calls: seq<Call>, cancelled: bool)
    ensures var (t, r) := StartBatch(s, context, calls, cancelled);
      && (s.maxParallel == 0 ==> r == Err(InvalidArgument) && t == s)
      && (s.maxParallel > 0 && calls == [] ==> r == Ok([]) && t == s)
      && (s.maxParallel > 0 && calls != [] && cancelled ==> r == Err(Cancelled) && t == s)
      && (s.maxParallel > 0 && calls != [] && !cancelled ==> r.Ok? && Began(s, t, context, calls))
  {
    if s.maxParallel > 0 && calls != [] && !cancelled {
      assert (s.batches + [NewBatch(context, calls, s.maxParallel)])[|s.batches|] == NewBatch(context, calls, s.maxParallel);
    }
  }

  ghost predicate Began(s: State, t: State, context: Context, calls: seq<Call>) {
    && |t.batches| == |s.batches| + 1 && t.batches[..|s.batches|] == s.batches
    && var b := t.batches[|s.batches|];
    && b.context == context && b.calls == calls && b.phase == Receiving
    && b.queue == [] && b.reported == {} && b.completed == 0
    && |b.results| == |calls| && (forall i :: 0 <= i < |calls| ==> b.results[i].None?)
    && (forall i :: i in b.live <==> 0 <= i < |calls| && i < s.maxParallel)
    && b.admitted == (if |calls| <= s.maxParallel then |calls| else s.maxParallel)
  }

  // ---------------------------------------------------------------- what a step does

  /** A call that returns leaves its result and its place in the channel, and is no longer in flight. */
  lemma ReturnStores(b: Batch, i: nat, output: Result<string>)
    requires Tracked(b) && i in b.live
    ensures var c := Act(b, Returns(i, output));
      && c.results == b.results[i := Some(output)] && c.live == b.live - {i} && c.queue == b.queue + [i]
      && c.reported == b.reported && c.admitted == b.admitted && c.completed == b.completed
      && c.calls == b.calls && c.phase == b.phase
  {
  }

  /** Receiving accounts for the oldest completion and starts the next call, if one is left; the last
      completion ends the batch with every call's own result in batch order. */
  lemma ReceiveGoesOn(b: Batch, maxParallel: nat)
    requires BatchInv(b, maxParallel) && b.phase.Receiving? && b.queue != []
    ensures var c := Act(b, Receives(false));
      && c.queue == b.queue[1..] && c.reported == b.reported + {b.queue[0]} && c.completed == b.completed + 1
      && c.calls == b.calls && c.results == b.results && c.context == b.context
      && (b.admitted < |b.calls| ==> c.admitted == b.admitted + 1 && c.live == b.live + {b.admitted})
      && (b.admitted == |b.calls| ==> c.admitted == b.admitted && c.live == b.live)
      && (c.completed < |b.calls| ==> c.phase == Receiving)
      && (c.completed == |b.calls| ==> c.phase.Succeeded? && AllRows(b, c.phase.rows))
  {
    ActInv(b, Receives(false), maxParallel);
    TakeTracked(b);
    AdmitTracked(Take(b));
    var s := Admit(Take(b));
    if s.completed == |s.calls| {
      AllReported(s);
    }
  }

  ghost predicate AllRows(b: Batch, rows: seq<Row>) {
    && |rows| == |b.calls| == |b.results|
    && forall i :: 0 <= i < |rows| ==>
         && rows[i].toolUseId == b.calls[i].toolUseId && rows[i].name == b.calls[i].name
         && b.results[i] == Some(rows[i].output)
  }

  /** What cancellation leaves: no call starts any more, those that never started count as accounted
      for, and those in flight go on. */
  ghost predicate Cut(b: Batch, c: Batch) {
    && c.phase == Draining && c.admitted == b.admitted && c.live == b.live && c.results == b.results
    && (forall i :: i in c.reported <==> i in b.reported || b.admitted <= i < |b.calls|)
    && c.completed == b.completed + (|b.calls| - b.admitted) && c.queue == b.queue
    && |c.calls| == |b.calls| && (forall i :: 0 <= i < |b.calls| && i < b.admitted ==> c.calls[i] == b.calls[i])
  }

  lemma CancellationCuts(b: Batch)
    requires Tracked(b) && b.phase.Receiving?
    ensures Cut(b, Act(b, Cancels))
    ensures b.queue != [] ==> Cut(Take(b), Act(b, Receives(true)))
  {
  }

  lemma DrainAccounts(b: Batch)
    requires Tracked(b) && b.phase.Draining? && b.queue != []
    ensures var c := Act(b, Drains);
      && c.queue == b.queue[1..] && c.reported == b.reported + {b.queue[0]} && c.completed == b.completed + 1
      && c.phase == Draining && c.live == b.live && c.results == b.results && c.calls == b.calls
  {
  }

  /** A cancelled batch names exactly the calls that have not been accounted for. */
  lemma GiveUpNamesLaggards(b: Batch)
    requires Tracked(b) && b.phase.Draining?
    ensures var c := Act(b, GivesUp);
      && c.phase.Abandoned? && c.live == b.live && c.results == b.results
      && (forall i :: i in c.phase.lagging <==> 0 <= i < |b.calls| && i !in b.reported)
  {
  }

  // ---------------------------------------------------------------- the coroutine returns

  /** The wait has ended in a way that takes the coroutine on. */
  predicate Moves(b: Batch, how: Resumption) {
    || (b.phase.Receiving? && ((how.Received? && b.queue != []) || how.ReceiveCancelled?))
    || (b.phase.Draining? && ((how.Received? && b.queue != []) || how.GraceOver? || b.completed >= |b.calls|))
  }

  /** How often a batch may still move before it returns. */
  function Left(b: Batch): int {
    match b.phase
    case Receiving => |b.calls| - b.completed + 2
    case Draining => if b.completed <= |b.calls| then |b.calls| - b.completed + 1 else 1
    case _ => 0
  }

  predicate Over(b: Batch) {
    b.phase.Succeeded? || b.phase.Abandoned?
  }

  lemma MoveTakesOn(s: State, k: BatchId, how: Resumption)
    requires Inv(s) && Sized(s) && k < |s.batches|
    ensures var b, c := s.batches[k], Resumed(s, k, how).batches[k];
      if Moves(b, how) then Left(c) < Left(b) else c == b
    ensures !Over(s.batches[k]) ==> Left(s.batches[k]) > 0
  {
    var b := s.batches[k];
    assert BatchInv(b, s.maxParallel);
    if b.phase.Receiving? && how.Received? && b.queue != [] {
      if how.cancelled {
        CancellationCuts(b);
        AdmittedIsAccounted(b, s.maxParallel);
      } else {
        ReceiveGoesOn(b, s.maxParallel);
      }
    } else if b.phase.Receiving? && how.ReceiveCancelled? {
      CancellationCuts(b);
      AdmittedIsAccounted(b, s.maxParallel);
    }
  }

  lemma AdmittedIsAccounted(b: Batch, maxParallel: nat)
    requires BatchInv(b, maxParallel) && b.phase.Receiving?
    ensures b.completed + |b.queue| <= b.admitted
  {
    Balance(b);
  }

  /** Returns of calls do not take the coroutine on by themselves. */
  lemma {:induction false} ReturnsWait(s: State, returned: seq<Finished>, k: BatchId)
    requires Inv(s) && Sized(s) && k < |s.batches|
    ensures var t := FinishAll(s, returned);
      && Inv(t) && t.batches[k].phase == s.batches[k].phase && Left(t.batches[k]) == Left(s.batches[k])
      && t.batches[k].calls == s.batches[k].calls
  {
    if returned != [] {
      var init, f := returned[..|returned| - 1], returned[|returned| - 1];
      ReturnsWait(s, init, k);
      StepKeepsInv(FinishAll(s, init), f.batch, Returns(f.index, f.output));
    }
  }

  lemma ResumedKeepsInv(s: State, k: BatchId, how: Resumption)
    requires Inv(s) && Sized(s) && k < |s.batches|
    ensures Inv(Resumed(s, k, how))
  {
    StepKeepsInv(s, k, Drains);
    StepKeepsInv(s, k, GivesUp);
    StepKeepsInv(s, k, Cancels);
    if how.Received? {
      StepKeepsInv(s, k, Receives(how.cancelled));
    }
  }

  /** How many of these wakes take the coroutine on. */
  function MovesIn(s: State, k: BatchId, script: seq<Wake>): nat
    requires Sized(s) && k < |s.batches|
    decreases |script|
  {
    if script == [] then 0
    else
      var t := FinishAll(s, script[0].returned);
      var u := Resumed(t, k, script[0].resumption);
      (if Moves(t.batches[k], script[0].resumption) then 1 else 0) +
      (if Over(u.batches[k]) then 0 else MovesIn(u, k, script[1..]))
  }

  /** A coroutine that is still suspended has moved fewer times than the batch has calls, plus two:
      whatever the order of returns, cancellation and timeouts, it returns. */
  lemma {:induction false} SuspendedIsBounded(s: State, k: BatchId, script: seq<Wake>)
    requires Inv(s) && Sized(s) && k < |s.batches| && !Over(s.batches[k])
    ensures Await(s, k, script).1.None? ==> MovesIn(s, k, script) < Left(s.batches[k]) <= |s.batches[k].calls| + 2
    decreases |script|
  {
    assert BatchInv(s.batches[k], s.maxParallel);
    if script == [] {
      MoveTakesOn(s, k, GraceOver);
    } else {
      var t := FinishAll(s, script[0].returned);
      ReturnsWait(s, script[0].returned, k);
      MoveTakesOn(t, k, script[0].resumption);
      ResumedKeepsInv(t, k, script[0].resumption);
      var u := Resumed(t, k, script[0].resumption);
      if !Over(u.batches[k]) {
        SuspendedIsBounded(u, k, script[1..]);
      }
    }
  }

  /** A batch that receives always has something to wait for: a completion in the channel, or a call in
      flight. */
  lemma ReceivingIsNeverStuck(b: Batch, maxParallel: nat)
    requires BatchInv(b, maxParallel) && b.phase.Receiving? && 0 < maxParallel
    ensures b.queue != [] || b.live != {}
  {
    Balance(b);
  }

  /** The parent is not cancelled during these wakes. */
  predicate Uncancelled(script: seq<Wake>) {
    forall n :: 0 <= n < |script| ==>
      script[n].resumption.GraceOver? || (script[n].resumption.Received? && !script[n].resumption.cancelled)
  }

  predicate Calm(wake: Wake) {
    wake.resumption.GraceOver? || (wake.resumption.Received? && !wake.resumption.cancelled)
  }

  /** After one wake without cancellation: one more completion if the coroutine moved, and the end of
      the batch if that was the last one. */
  ghost predicate GoesOn(b: Batch, c: Batch, moved: bool) {
    && c.calls == b.calls
    && var completed := b.completed + (if moved then 1 else 0);
    if completed < |b.calls| then c.phase == Receiving && c.completed == completed
    else c.phase.Succeeded? && AllRows(c, c.phase.rows)
  }

  lemma CalmWake(s: State, k: BatchId, wake: Wake)
    requires Inv(s) && Sized(s) && k < |s.batches| && s.batches[k].phase.Receiving? && Calm(wake)
    ensures var t := FinishAll(s, wake.returned);
      var u := Resumed(t, k, wake.resumption);
      Inv(u) && GoesOn(s.batches[k], u.batches[k], Moves(t.batches[k], wake.resumption))
  {
    var t := FinishAll(s, wake.returned);
    ReturnsWait(s, wake.returned, k);
    ResumedKeepsInv(t, k, wake.resumption);
    var b := t.batches[k];
    assert BatchInv(b, t.maxParallel) && b.calls == s.batches[k].calls && b.completed == s.batches[k].completed;
    if Moves(b, wake.resumption) {
      ReceiveGoesOn(b, t.maxParallel);
    }
  }

  /** Without cancellation a batch can only succeed, and does so once it has moved as often as calls
      were left: with one row per call, in batch order, that holds the call's id, name and result. */
  lemma {:induction false} UncancelledSucceeds(s: State, k: BatchId, script: seq<Wake>)
    requires Inv(s) && Sized(s) && k < |s.batches| && s.batches[k].phase.Receiving?
    requires forall n :: 0 <= n < |script| ==> Calm(script[n])
    ensures var (t, r) := Await(s, k, script);
      var b := s.batches[k];
      && k < |t.batches| && t.batches[k].calls == b.calls
      && (r.Some? <==> MovesIn(s, k, script) >= |b.calls| - b.completed)
      && (r.Some? ==> r.value.Ok? && AllRows(t.batches[k], r.value.value))
    decreases |script|
  {
    assert BatchInv(s.batches[k], s.maxParallel);
    if script != [] {
      CalmWake(s, k, script[0]);
      var u := Resumed(FinishAll(s, script[0].returned), k, script[0].resumption);
      assert forall n :: 0 <= n < |script| - 1 ==> script[1..][n] == script[n + 1];
      if u.batches[k].phase.Receiving? {
        UncancelledSucceeds(u, k, script[1..]);
      }
    }
  }
}

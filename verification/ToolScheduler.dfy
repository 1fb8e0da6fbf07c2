/** Bounded parallel tool dispatch (src/oran-agent/scheduler.cpp). A batch runs as one coroutine
    that suspends on its completion channel; its calls return at any time, in any order, even
    after a cancelled batch has given up on them. */
module ToolScheduler {
  import opened Core

  /** Identity of a borrowed dispatch context, of a batch, and of a wait for idleness. */
  type Context = nat
  type BatchId = nat
  type Waiter = nat

  datatype Call = Call(toolUseId: string, name: string, input: string)
  datatype Row = Row(toolUseId: string, name: string, output: Result<string>)

  /** Receiving: the cancel-sensitive drain. Draining: the grace window after parent cancellation.
      The last two are the batch's return values; laggards may still be running. */
  datatype Phase = Receiving | Draining | Succeeded(rows: seq<Row>) | Abandoned(lagging: set<nat>)

  /** `live` are the calls in flight, `queue` the completion channel, `reported` the indices the
      batch has accounted for. */
  datatype Batch = Batch(
    context: Context,
    calls: seq<Call>,
    results: seq<Option<Result<string>>>,
    queue: seq<nat>,
    live: set<nat>,
    reported: set<nat>,
    admitted: nat,
    completed: nat,
    phase: Phase)

  /** `active` counts the calls in flight by context; `asleep` are the callers of wait_idle that sleep,
      each with what it waits for. */
  datatype State = State(
    maxParallel: nat,
    batches: seq<Batch>,
    active: map<Context, nat>,
    asleep: map<Waiter, Option<Context>>)

  function Min(a: nat, b: nat): nat {
    if a <= b then a else b
  }

  /** The indices from `low` up to but not including `high`. */
  function Between(low: nat, high: nat): (r: set<nat>)
    ensures forall i :: i in r <==> low <= i < high
    ensures |r| == if low < high then high - low else 0
  {
    if high <= low then {} else Between(low, high - 1) + {high - 1}
  }

  function Range(n: nat): (r: set<nat>)
    ensures forall i :: i in r <==> 0 <= i < n
    ensures |r| == n
  {
    Between(0, n)
  }

  // ---------------------------------------------------------------- steps of one batch

  function NewBatch(context: Context, calls: seq<Call>, maxParallel: nat): Batch {
    var workers := Min(|calls|, maxParallel);
    Batch(context, calls, seq(|calls|, _ => None), [], Range(workers), {}, workers, 0, Receiving)
  }

  /** A dispatch ends: its result is stored before its index is reported. */
  function Return(b: Batch, i: nat, output: Result<string>): Batch {
    if i !in b.live || i >= |b.results| then b
    else b.(results := b.results[i := Some(output)], live := b.live - {i}, queue := b.queue + [i])
  }

  function Ordered(calls: seq<Call>, results: seq<Option<Result<string>>>): seq<Row>
    requires |calls| == |results| && forall i :: 0 <= i < |results| ==> results[i].Some?
  {
    seq(|calls|, i requires 0 <= i < |calls| => Row(calls[i].toolUseId, calls[i].name, results[i].value))
  }

  /** Calls that never started are emptied and counted as accounted for. */
  function Cancel(b: Batch): Batch {
    b.(calls := seq(|b.calls|, i requires 0 <= i < |b.calls| => if i < b.admitted then b.calls[i] else Call("", "", "")),
       reported := b.reported + Between(b.admitted, |b.calls|),
       completed := b.completed + (if b.admitted <= |b.calls| then |b.calls| - b.admitted else 0),
       phase := Draining)
  }

  /** Taking the head of the channel. */
  function Take(b: Batch): Batch
    requires b.queue != []
  {
    b.(queue := b.queue[1..], reported := b.reported + {b.queue[0]}, completed := b.completed + 1)
  }

  function Admit(b: Batch): Batch {
    if b.admitted < |b.calls| then b.(live := b.live + {b.admitted}, admitted := b.admitted + 1) else b
  }

  /** One completion is received; a free slot admits the next call unless the parent is cancelled. */
  function Receive(b: Batch, cancelled: bool): Batch
    requires |b.calls| == |b.results|
  {
    if !b.phase.Receiving? || b.queue == [] then b
    else if cancelled then Cancel(Take(b))
    else
      var s := Admit(Take(b));
      if s.completed < |s.calls| then s else Conclude(s)
  }

  predicate HasAllResults(b: Batch) {
    |b.calls| == |b.results| && forall i :: 0 <= i < |b.results| ==> b.results[i].Some?
  }

  /** Every call has reported: the results, in batch order. */
  function Conclude(b: Batch): Batch {
    if HasAllResults(b) then b.(phase := Succeeded(Ordered(b.calls, b.results))) else b
  }

  function Drain(b: Batch): Batch {
    if !b.phase.Draining? || b.queue == [] then b else Take(b)
  }

  /** The grace window ends, or everything has reported: the batch returns its error. */
  function GiveUp(b: Batch): Batch {
    if !b.phase.Draining? then b
    else b.(phase := Abandoned(set i | 0 <= i < |b.calls| && i !in b.reported))
  }

  datatype Action =
    | Returns(index: nat, output: Result<string>)
    | Receives(cancelled: bool)
    | Cancels
    | Drains
    | GivesUp

  function Act(b: Batch, a: Action): Batch
    requires |b.calls| == |b.results|
  {
    match a
    case Returns(i, output) => Return(b, i, output)
    case Receives(cancelled) => Receive(b, cancelled)
    case Cancels => if b.phase.Receiving? then Cancel(b) else b
    case Drains => Drain(b)
    case GivesUp => GiveUp(b)
  }

  // ---------------------------------------------------------------- invariant of one batch

  predicate DistinctIndices(s: seq<nat>) {
    forall i, j :: 0 <= i < j < |s| ==> s[i] != s[j]
  }

  /** Every admitted call is running, waiting in the channel or accounted for, and only one of
      these; a call has a result exactly when it was admitted and has returned. */
  ghost predicate Tracked(b: Batch) {
    && |b.calls| == |b.results| && b.admitted <= |b.calls|
    && DistinctIndices(b.queue)
    && (forall i :: i in b.live ==> i < b.admitted && i !in b.queue && i !in b.reported)
    && (forall i :: i in b.queue ==> i < b.admitted && i !in b.reported)
    && (forall i :: 0 <= i < b.admitted ==> i in b.live || i in b.queue || i in b.reported)
    && (forall i :: 0 <= i < |b.results| ==> (b.results[i].Some? <==> i < b.admitted && i !in b.live))
  }

  /** What the phase says about the counters. */
  ghost predicate Phased(b: Batch, maxParallel: nat) {
    && |b.live| + |b.queue| <= maxParallel
    && (b.phase.Receiving? ==>
         && (forall i :: i in b.reported ==> i < b.admitted)
         && |b.reported| == b.completed < |b.calls|
         && b.admitted == Min(|b.calls|, maxParallel + b.completed))
    && (!b.phase.Receiving? ==> forall i :: b.admitted <= i < |b.calls| ==> i in b.reported || b.phase.Succeeded?)
    && (b.phase.Succeeded? ==>
         && b.admitted == |b.calls| && b.live == {} && b.queue == []
         && HasAllResults(b)
         && b.phase.rows == Ordered(b.calls, b.results))
    && (b.phase.Abandoned? ==> forall i :: i in b.phase.lagging ==> i < b.admitted)
  }

  ghost predicate BatchInv(b: Batch, maxParallel: nat) {
    Tracked(b) && Phased(b, maxParallel)
  }

  function Elements(s: seq<nat>): set<nat> {
    set i | i in s
  }

  lemma {:induction false} DistinctSize(s: seq<nat>)
    requires DistinctIndices(s)
    ensures |Elements(s)| == |s|
  {
    if s == [] {
      assert Elements(s) == {};
    } else {
      var init, last := s[..|s| - 1], s[|s| - 1];
      DistinctSize(init);
      assert Elements(s) == Elements(init) + {last};
      assert last !in init;
    }
  }

  /** Counting the admitted calls. */
  lemma Balance(b: Batch)
    requires Tracked(b) && forall i :: i in b.reported ==> i < b.admitted
    ensures |b.live| + |b.queue| + |b.reported| == b.admitted
  {
    DistinctSize(b.queue);
    var queued := Elements(b.queue);
    assert b.live !! queued;
    assert (b.live + queued) !! b.reported;
    assert b.live + queued + b.reported == Range(b.admitted);
  }

  lemma NewBatchInv(context: Context, calls: seq<Call>, maxParallel: nat)
    requires 0 < maxParallel && calls != []
    ensures BatchInv(NewBatch(context, calls, maxParallel), maxParallel)
  {
  }

  lemma ReturnTracked(b: Batch, i: nat, output: Result<string>)
    requires Tracked(b)
    ensures Tracked(Return(b, i, output))
  {
  }

  lemma ReturnInv(b: Batch, i: nat, output: Result<string>, maxParallel: nat)
    requires BatchInv(b, maxParallel)
    ensures BatchInv(Return(b, i, output), maxParallel)
  {
    ReturnTracked(b, i, output);
  }

  lemma TakeTracked(b: Batch)
    requires Tracked(b) && b.queue != []
    ensures Tracked(Take(b)) && b.queue[0] !in b.reported && b.queue[0] < b.admitted
  {
    var rest := b.queue[1..];
    assert b.queue[0] in b.queue;
    assert forall k :: 0 <= k < |rest| ==> rest[k] == b.queue[k + 1];
    assert forall i :: i in b.queue <==> i == b.queue[0] || i in rest;
  }

  lemma AdmitTracked(b: Batch)
    requires Tracked(b) && forall i :: i in b.reported ==> i < b.admitted
    ensures Tracked(Admit(b))
    ensures forall i :: i in b.reported ==> i < Admit(b).admitted
  {
  }

  lemma CancelInv(b: Batch, maxParallel: nat)
    requires Tracked(b) && |b.live| + |b.queue| <= maxParallel
    ensures BatchInv(Cancel(b), maxParallel)
  {
  }

  lemma ReceiveInv(b: Batch, cancelled: bool, maxParallel: nat)
    requires BatchInv(b, maxParallel)
    ensures BatchInv(Receive(b, cancelled), maxParallel)
  {
    if b.phase.Receiving? && b.queue != [] {
      TakeTracked(b);
      if cancelled {
        CancelInv(Take(b), maxParallel);
      } else {
        AdmitInv(b, maxParallel);
      }
    }
  }

  lemma AdmitInv(b: Batch, maxParallel: nat)
    requires BatchInv(b, maxParallel) && b.phase.Receiving? && b.queue != []
    ensures BatchInv(Receive(b, false), maxParallel)
  {
    TakeTracked(b);
    AdmitTracked(Take(b));
    var s := Admit(Take(b));
    assert |s.reported| == s.completed && s.admitted == Min(|s.calls|, maxParallel + s.completed);
    if s.completed < |s.calls| {
      StillReceiving(s, maxParallel);
    } else {
      Concluded(s, maxParallel);
    }
  }

  lemma StillReceiving(b: Batch, maxParallel: nat)
    requires Tracked(b) && b.phase.Receiving? && |b.reported| == b.completed < |b.calls|
    requires b.admitted == Min(|b.calls|, maxParallel + b.completed)
    requires forall i :: i in b.reported ==> i < b.admitted
    ensures BatchInv(b, maxParallel)
  {
    Balance(b);
  }

  lemma Concluded(b: Batch, maxParallel: nat)
    requires Tracked(b) && |b.reported| == |b.calls| && forall i :: i in b.reported ==> i < b.admitted
    ensures BatchInv(Conclude(b), maxParallel)
  {
    AllReported(b);
  }

  /** When as many indices are accounted for as there are calls, every call has its result. */
  lemma AllReported(b: Batch)
    requires Tracked(b) && |b.reported| == |b.calls| && forall i :: i in b.reported ==> i < b.admitted
    ensures b.admitted == |b.calls| && b.live == {} && b.queue == []
    ensures forall i :: 0 <= i < |b.results| ==> b.results[i].Some?
  {
    Balance(b);
  }

  lemma DrainInv(b: Batch, maxParallel: nat)
    requires BatchInv(b, maxParallel)
    ensures BatchInv(Drain(b), maxParallel)
  {
    if b.phase.Draining? && b.queue != [] {
      TakeTracked(b);
    }
  }

  lemma ActInv(b: Batch, a: Action, maxParallel: nat)
    requires BatchInv(b, maxParallel)
    ensures BatchInv(Act(b, a), maxParallel)
  {
    match a
    case Returns(i, output) => ReturnInv(b, i, output, maxParallel);
    case Receives(cancelled) => ReceiveInv(b, cancelled, maxParallel);
    case Cancels =>
      if b.phase.Receiving? {
        CancelInv(b, maxParallel);
      }
    case Drains => DrainInv(b, maxParallel);
    case GivesUp =>
  }

  // ---------------------------------------------------------------- how a batch evolves

  /** From `b` to `c`: calls start in order, each once and only while receiving; results never
      change once stored; an admitted call keeps its identity; a returned batch stays returned. */
  ghost predicate Progress(b: Batch, c: Batch) {
    && c.context == b.context && |c.calls| == |b.calls| && |c.results| == |b.results|
    && b.admitted <= c.admitted <= |c.calls|
    && (forall i :: i in c.live ==> i in b.live || b.admitted <= i)
    && (!b.phase.Receiving? ==> c.admitted == b.admitted && !c.phase.Receiving?)
    && (forall i :: 0 <= i < |b.results| && b.results[i].Some? ==> c.results[i] == b.results[i])
    && (forall i :: 0 <= i < b.admitted ==> c.calls[i] == b.calls[i])
    && (b.phase.Succeeded? || b.phase.Abandoned? ==> c.phase == b.phase)
  }

  lemma ReceiveProgress(b: Batch, cancelled: bool)
    requires Tracked(b)
    ensures Progress(b, Receive(b, cancelled))
  {
  }

  lemma ActProgress(b: Batch, a: Action)
    requires Tracked(b)
    ensures Progress(b, Act(b, a))
  {
    if a.Receives? {
      ReceiveProgress(b, a.cancelled);
    }
  }

  /** A result is only ever stored by the return of the call it belongs to. */
  lemma ResultsComeFromTheirCall(b: Batch, a: Action, i: nat)
    requires Tracked(b) && i < |b.results| && Act(b, a).results[i] != b.results[i]
    ensures a.Returns? && a.index == i && Act(b, a).results[i] == Some(a.output) && i in Act(b, a).queue
  {
  }

  /** No call starts once the batch has seen the parent cancelled. */
  lemma NothingStartsOnCancellation(b: Batch, a: Action)
    requires Tracked(b) && Act(b, a).phase.Draining?
    ensures Act(b, a).admitted == b.admitted && Act(b, a).live <= b.live
  {
  }

  /** The completion channel is as large as the batch, so reporting never fails. */
  lemma QueueFits(b: Batch)
    requires Tracked(b)
    ensures |b.queue| <= |b.calls|
  {
    DistinctSize(b.queue);
    SubsetSize(Elements(b.queue), Range(b.admitted));
  }

  lemma {:induction false} SubsetSize(a: set<nat>, b: set<nat>)
    requires a <= b
    ensures |a| <= |b|
  {
    if a != {} {
      var x :| x in a;
      SubsetSize(a - {x}, b - {x});
    }
  }

  ghost function Play(b: Batch, actions: seq<Action>, maxParallel: nat): (c: Batch)
    requires BatchInv(b, maxParallel)
    ensures BatchInv(c, maxParallel)
    decreases |actions|
  {
    if actions == [] then b
    else
      ActInv(b, actions[0], maxParallel);
      Play(Act(b, actions[0]), actions[1..], maxParallel)
  }

  lemma ProgressTransitive(a: Batch, b: Batch, c: Batch)
    requires Progress(a, b) && Progress(b, c)
    ensures Progress(a, c)
  {
  }

  lemma {:induction false} PlayProgress(b: Batch, actions: seq<Action>, maxParallel: nat)
    requires BatchInv(b, maxParallel)
    ensures Progress(b, Play(b, actions, maxParallel))
    decreases |actions|
  {
    if actions != [] {
      ActInv(b, actions[0], maxParallel);
      ActProgress(b, actions[0]);
      PlayProgress(Act(b, actions[0]), actions[1..], maxParallel);
      ProgressTransitive(b, Act(b, actions[0]), Play(b, actions, maxParallel));
    }
  }

  /** Whatever the tools and the parent do: never more than the bound in flight; success carries
      one row per call, in batch order, with that call's identity and stored result; a cancelled
      batch names as lagging only calls that had started. */
  lemma EveryBatchIsBounded(context: Context, calls: seq<Call>, actions: seq<Action>, maxParallel: nat)
    requires 0 < maxParallel && calls != []
    ensures BatchInv(NewBatch(context, calls, maxParallel), maxParallel)
    ensures var b := Play(NewBatch(context, calls, maxParallel), actions, maxParallel);
      && |b.live| <= maxParallel
      && (b.phase.Succeeded? ==> |b.phase.rows| == |calls| && forall i :: 0 <= i < |calls| ==>
           && b.phase.rows[i].toolUseId == calls[i].toolUseId && b.phase.rows[i].name == calls[i].name
           && b.results[i] == Some(b.phase.rows[i].output))
      && (b.phase.Abandoned? ==> forall i :: i in b.phase.lagging ==> i < b.admitted)
  {
    NewBatchInv(context, calls, maxParallel);
    AdmittedKeepIdentity(NewBatch(context, calls, maxParallel), actions, maxParallel);
  }

  /** A step of a receiving batch empties only calls that never start, and none while it still receives. */
  lemma StepKeepsIdentity(b: Batch, a: Action)
    requires Tracked(b) && b.phase.Receiving?
    ensures var c := Act(b, a);
      && |c.calls| == |b.calls| && (c.phase.Receiving? ==> c.calls == b.calls)
      && (forall i :: 0 <= i < c.admitted && i < |b.calls| ==> c.calls[i] == b.calls[i])
  {
  }

  lemma {:induction false} AdmittedKeepIdentity(b: Batch, actions: seq<Action>, maxParallel: nat)
    requires BatchInv(b, maxParallel) && b.phase.Receiving?
    ensures var c := Play(b, actions, maxParallel);
      |c.calls| == |b.calls| && forall i :: 0 <= i < c.admitted && i < |b.calls| ==> c.calls[i] == b.calls[i]
    decreases |actions|
  {
    if actions != [] {
      ActInv(b, actions[0], maxParallel);
      StepKeepsIdentity(b, actions[0]);
      var c := Act(b, actions[0]);
      if c.phase.Receiving? {
        AdmittedKeepIdentity(c, actions[1..], maxParallel);
      } else {
        PlayProgress(c, actions[1..], maxParallel);
      }
    }
  }

  // ---------------------------------------------------------------- all batches of a scheduler

  /** Calls in flight on one context, across batches. */
  function LiveOn(batches: seq<Batch>, context: Context): nat {
    if batches == [] then 0
    else
      var last := batches[|batches| - 1];
      LiveOn(batches[..|batches| - 1], context) + (if last.context == context then |last.live| else 0)
  }

  function CountOf(active: map<Context, nat>, context: Context): nat {
    if context in active then active[context] else 0
  }

  /** What wait_idle tests before it returns. */
  predicate IsIdle(active: map<Context, nat>, context: Option<Context>) {
    match context
    case Some(c) => c !in active
    case None => active == map[]
  }

  ghost predicate Counted(s: State) {
    && (forall c :: CountOf(s.active, c) == LiveOn(s.batches, c))
    && (forall c :: c in s.active ==> s.active[c] > 0)
  }

  /** Whoever sleeps in wait_idle has something to wait for. */
  ghost predicate Awaited(s: State) {
    forall w :: w in s.asleep ==> !IsIdle(s.active, s.asleep[w])
  }

  ghost predicate Inv(s: State) {
    && (forall k :: 0 <= k < |s.batches| ==> BatchInv(s.batches[k], s.maxParallel))
    && Counted(s) && Awaited(s)
  }

  /** A call starts: one more on its context. */
  function Increment(active: map<Context, nat>, context: Context): map<Context, nat> {
    active[context := CountOf(active, context) + 1]
  }

  /** A call ends: one less, and the context is erased at zero. */
  function Decrement(active: map<Context, nat>, context: Context): map<Context, nat> {
    if context in active && active[context] > 1 then active[context := active[context] - 1] else active - {context}
  }

  function Increments(active: map<Context, nat>, context: Context, n: nat): map<Context, nat> {
    if n == 0 then active else Increment(Increments(active, context, n - 1), context)
  }

  function StartBatch(s: State, context: Context, calls: seq<Call>, cancelled: bool): (State, Result<seq<Row>>) {
    if s.maxParallel == 0 then (s, Err(InvalidArgument))
    else if calls == [] then (s, Ok([]))
    else if cancelled then (s, Err(Cancelled))
    else
      (s.(batches := s.batches + [NewBatch(context, calls, s.maxParallel)],
          active := Increments(s.active, context, Min(|calls|, s.maxParallel))), Ok([]))
  }

  /** The completion handler of a call: its result is stored, the count goes down, everybody who
      waits for idleness is woken, then the index is reported. */
  function CallReturns(s: State, k: BatchId, i: nat, output: Result<string>): State
    requires k < |s.batches|
  {
    var b := s.batches[k];
    if i !in b.live || i >= |b.results| then s
    else
      s.(batches := s.batches[k := Return(b, i, output)], active := Decrement(s.active, b.context), asleep := map[])
  }

  /** Receiving a completion frees a slot for the next call. */
  predicate StartsNext(b: Batch, cancelled: bool) {
    b.phase.Receiving? && b.queue != [] && !cancelled && b.admitted < |b.calls|
  }

  function StepBatch(s: State, k: BatchId, a: Action): State
    requires forall i :: 0 <= i < |s.batches| ==> |s.batches[i].calls| == |s.batches[i].results|
  {
    if k >= |s.batches| then s
    else
      var b := s.batches[k];
      match a
      case Returns(i, output) => CallReturns(s, k, i, output)
      case Receives(cancelled) =>
        s.(batches := s.batches[k := Receive(b, cancelled)],
           active := if StartsNext(b, cancelled) then Increment(s.active, b.context) else s.active)
      case _ => s.(batches := s.batches[k := Act(b, a)])
  }

  /** One round of wait_idle: it is over, or the caller goes to sleep. */
  function Wait(s: State, w: Waiter, context: Option<Context>): (State, bool) {
    if IsIdle(s.active, context) then (s, true) else (s.(asleep := s.asleep[w := context]), false)
  }

  // ---------------------------------------------------------------- counts and calls in flight

  lemma {:induction false} LiveOnUpdate(batches: seq<Batch>, k: nat, c: Batch, context: Context)
    requires k < |batches| && c.context == batches[k].context
    ensures LiveOn(batches[k := c], context) ==
      LiveOn(batches, context) + (if c.context == context then |c.live| - |batches[k].live| else 0)
  {
    var n := |batches| - 1;
    if k == n {
      assert batches[k := c][..n] == batches[..n];
    } else {
      assert batches[k := c][..n] == batches[..n][k := c];
      LiveOnUpdate(batches[..n], k, c, context);
    }
  }

  lemma LiveOnAppend(batches: seq<Batch>, b: Batch, context: Context)
    ensures LiveOn(batches + [b], context) ==
      LiveOn(batches, context) + (if b.context == context then |b.live| else 0)
  {
    assert (batches + [b])[..|batches|] == batches;
  }

  lemma {:induction false} LiveOnAtLeast(batches: seq<Batch>, k: nat)
    requires k < |batches|
    ensures LiveOn(batches, batches[k].context) >= |batches[k].live|
  {
    if k < |batches| - 1 {
      LiveOnAtLeast(batches[..|batches| - 1], k);
    }
  }

  /** The calls in flight after a step: one less after a return, one more when one was admitted. */
  lemma LiveAfter(b: Batch, a: Action)
    requires Tracked(b)
    ensures Act(b, a).context == b.context
    ensures |Act(b, a).live| == |b.live| +
      if a.Returns? && a.index in b.live then -1 else if a.Receives? && StartsNext(b, a.cancelled) then 1 else 0
  {
    match a
    case Returns(i, output) =>
      assert i in b.live ==> Return(b, i, output).live == b.live - {i};
    case Receives(cancelled) =>
      assert StartsNext(b, cancelled) ==> Receive(b, cancelled).live == b.live + {b.admitted};
    case _ =>
  }

  lemma IncrementCounts(s: State, k: nat, c: Batch)
    requires Counted(s) && k < |s.batches| && c.context == s.batches[k].context && |c.live| == |s.batches[k].live| + 1
    ensures Counted(s.(batches := s.batches[k := c], active := Increment(s.active, c.context)))
  {
    forall x ensures CountOf(Increment(s.active, c.context), x) == LiveOn(s.batches[k := c], x) {
      LiveOnUpdate(s.batches, k, c, x);
    }
  }

  lemma DecrementCounts(s: State, k: nat, c: Batch)
    requires Counted(s) && k < |s.batches| && c.context == s.batches[k].context && |c.live| + 1 == |s.batches[k].live|
    ensures Counted(s.(batches := s.batches[k := c], active := Decrement(s.active, c.context), asleep := map[]))
  {
    LiveOnAtLeast(s.batches, k);
    forall x ensures CountOf(Decrement(s.active, c.context), x) == LiveOn(s.batches[k := c], x) {
      LiveOnUpdate(s.batches, k, c, x);
    }
  }

  lemma SameCounts(s: State, k: nat, c: Batch)
    requires Counted(s) && k < |s.batches| && c.context == s.batches[k].context && |c.live| == |s.batches[k].live|
    ensures Counted(s.(batches := s.batches[k := c]))
  {
    forall x ensures CountOf(s.active, x) == LiveOn(s.batches[k := c], x) {
      LiveOnUpdate(s.batches, k, c, x);
    }
  }

  lemma {:induction false} IncrementsAdd(active: map<Context, nat>, context: Context, n: nat)
    ensures forall x ::
      CountOf(Increments(active, context, n), x) == CountOf(active, x) + (if x == context then n else 0)
    ensures (forall x :: x in active ==> active[x] > 0) ==>
      forall x :: x in Increments(active, context, n) ==> Increments(active, context, n)[x] > 0
    ensures active.Keys <= Increments(active, context, n).Keys
  {
    if n > 0 {
      IncrementsAdd(active, context, n - 1);
    }
  }

  // ---------------------------------------------------------------- every step keeps the counts exact

  lemma StepKeepsCounts(s: State, k: BatchId, a: Action)
    requires k < |s.batches| && Counted(s) && Tracked(s.batches[k])
    requires forall i :: 0 <= i < |s.batches| ==> |s.batches[i].calls| == |s.batches[i].results|
    ensures Counted(StepBatch(s, k, a))
  {
    var b := s.batches[k];
    LiveAfter(b, a);
    if a.Returns? {
      if a.index in b.live {
        DecrementCounts(s, k, Act(b, a));
      }
    } else if a.Receives? && StartsNext(b, a.cancelled) {
      IncrementCounts(s, k, Act(b, a));
    } else {
      SameCounts(s, k, Act(b, a));
    }
  }

  /** Counts only go down when somebody is woken, so no sleeper is left behind. */
  lemma StepKeepsAwaited(s: State, k: BatchId, a: Action)
    requires k < |s.batches| && Awaited(s)
    requires forall i :: 0 <= i < |s.batches| ==> |s.batches[i].calls| == |s.batches[i].results|
    ensures Awaited(StepBatch(s, k, a))
  {
    var t := StepBatch(s, k, a);
    if t.asleep == s.asleep {
      assert t.active == s.active || t.active == Increment(s.active, s.batches[k].context) || t == s || t.asleep == map[];
    }
  }

  lemma StepKeepsInv(s: State, k: BatchId, a: Action)
    requires Inv(s)
    ensures Inv(StepBatch(s, k, a))
  {
    if k < |s.batches| {
      ActInv(s.batches[k], a, s.maxParallel);
      StepKeepsCounts(s, k, a);
      StepKeepsAwaited(s, k, a);
    }
  }

  lemma StartKeepsInv(s: State, context: Context, calls: seq<Call>, cancelled: bool)
    requires Inv(s)
    ensures Inv(StartBatch(s, context, calls, cancelled).0)
  {
    if s.maxParallel > 0 && calls != [] && !cancelled {
      NewBatchInv(context, calls, s.maxParallel);
      var b := NewBatch(context, calls, s.maxParallel);
      IncrementsAdd(s.active, context, Min(|calls|, s.maxParallel));
      forall c {
        LiveOnAppend(s.batches, b, c);
      }
    }
  }

  lemma WaitKeepsInv(s: State, w: Waiter, context: Option<Context>)
    requires Inv(s)
    ensures Inv(Wait(s, w, context).0)
  {
  }

  // ---------------------------------------------------------------- idleness over runs

  datatype Event =
    | StartEvent(context: Context, calls: seq<Call>, cancelled: bool)
    | StepEvent(batch: BatchId, action: Action)
    | WaitEvent(waiter: Waiter, target: Option<Context>)

  predicate Sized(s: State) {
    forall i :: 0 <= i < |s.batches| ==> |s.batches[i].calls| == |s.batches[i].results|
  }

  function Next(s: State, e: Event): (t: State)
    requires Sized(s)
    ensures Sized(t)
  {
    match e
    case StartEvent(context, calls, cancelled) => StartBatch(s, context, calls, cancelled).0
    case StepEvent(k, a) => StepBatch(s, k, a)
    case WaitEvent(w, context) => Wait(s, w, context).0
  }

  function Run(s: State, events: seq<Event>): (t: State)
    requires Sized(s)
    ensures Sized(t)
    decreases |events|
  {
    if events == [] then s else Run(Next(s, events[0]), events[1..])
  }

  function Empty(maxParallel: nat): State {
    State(maxParallel, [], map[], map[])
  }

  lemma NextKeepsInv(s: State, e: Event)
    requires Inv(s) && Sized(s)
    ensures Inv(Next(s, e))
  {
    match e
    case StartEvent(context, calls, cancelled) => StartKeepsInv(s, context, calls, cancelled);
    case StepEvent(k, a) => StepKeepsInv(s, k, a);
    case WaitEvent(w, context) => WaitKeepsInv(s, w, context);
  }

  lemma {:induction false} RunKeepsInv(s: State, events: seq<Event>)
    requires Inv(s) && Sized(s)
    ensures Inv(Run(s, events))
    decreases |events|
  {
    if events != [] {
      NextKeepsInv(s, events[0]);
      RunKeepsInv(Next(s, events[0]), events[1..]);
    }
  }

  /** No call on the context, or none at all, is in flight in any batch, finished or abandoned. */
  ghost predicate Quiet(s: State, context: Option<Context>) {
    forall k :: 0 <= k < |s.batches| && (context.None? || s.batches[k].context == context.value) ==> s.batches[k].live == {}
  }

  lemma IdleMeansNoCallInFlight(s: State, context: Option<Context>)
    requires Counted(s) && IsIdle(s.active, context)
    ensures Quiet(s, context)
  {
    forall k | 0 <= k < |s.batches| && (context.None? || s.batches[k].context == context.value)
      ensures s.batches[k].live == {}
    {
      LiveOnAtLeast(s.batches, k);
      assert s.batches[k].context !in s.active;
    }
  }

  /** Conversely the wait is not longer than needed. */
  lemma NoCallInFlightMeansIdle(s: State, context: Option<Context>)
    requires Counted(s) && Quiet(s, context)
    ensures IsIdle(s.active, context)
  {
    forall c | context.None? || c == context.value ensures c !in s.active {
      NothingLive(s.batches, c);
    }
  }

  lemma {:induction false} NothingLive(batches: seq<Batch>, context: Context)
    requires forall k :: 0 <= k < |batches| && batches[k].context == context ==> batches[k].live == {}
    ensures LiveOn(batches, context) == 0
  {
    if batches != [] {
      NothingLive(batches[..|batches| - 1], context);
    }
  }

  /** Over every sequence of batch starts, steps and waits: a wait for idleness ends exactly when no
      call it waits for is in flight in any batch, and whoever is asleep has such a call to wait for:
      the return that leaves none has woken everybody. */
  lemma WaitIdleIsExact(maxParallel: nat, events: seq<Event>, w: Waiter, context: Option<Context>)
    ensures var s := Run(Empty(maxParallel), events);
      && (Wait(s, w, context).1 <==> Quiet(s, context))
      && (forall v :: v in s.asleep ==> !Quiet(s, s.asleep[v]))
  {
    RunKeepsInv(Empty(maxParallel), events);
    var s := Run(Empty(maxParallel), events);
    if IsIdle(s.active, context) {
      IdleMeansNoCallInFlight(s, context);
    }
    if Quiet(s, context) {
      NoCallInFlightMeansIdle(s, context);
    }
    forall v | v in s.asleep ensures !Quiet(s, s.asleep[v]) {
      if Quiet(s, s.asleep[v]) {
        NoCallInFlightMeansIdle(s, s.asleep[v]);
      }
    }
  }

  lemma {:induction false} RunConcat(s: State, a: seq<Event>, b: seq<Event>)
    requires Sized(s)
    ensures Run(s, a + b) == Run(Run(s, a), b)
    decreases |a|
  {
    if a == [] {
      assert a + b == b;
    } else {
      assert (a + b)[1..] == a[1..] + b;
      RunConcat(Next(s, a[0]), a[1..], b);
    }
  }

  lemma RunThen(s: State, a: seq<Event>, e: Event)
    requires Sized(s)
    ensures Run(s, a + [e]) == Next(Run(s, a), e)
  {
    RunConcat(s, a, [e]);
  }

  // ---------------------------------------------------------------- loops over one batch

  /** Empties the calls that never started and counts them as accounted for. */
  method ClearUnstarted(b: Batch) returns (c: Batch)
    requires b.admitted <= |b.calls|
    ensures c == Cancel(b)
  {
    var calls := EmptyCalls(b);
    var reported, completed := b.reported, b.completed;
    for i := b.admitted to |b.calls|
      invariant reported == b.reported + Between(b.admitted, i) && completed == b.completed + (i - b.admitted)
    {
      BetweenGrows(b.reported, b.admitted, i);
      reported, completed := reported + {i}, completed + 1;
    }
    c := b.(calls := calls, reported := reported, completed := completed, phase := Draining);
  }

  method EmptyCalls(b: Batch) returns (calls: seq<Call>)
    requires b.admitted <= |b.calls|
    ensures calls == Cancel(b).calls
  {
    calls := b.calls;
    for i := b.admitted to |b.calls|
      invariant |calls| == |b.calls| && forall j :: 0 <= j < |b.calls| ==> calls[j] == Cleared(b, j, i)
    {
      calls := calls[i := Call("", "", "")];
    }
    CancelCalls(b);
  }

  lemma CancelCalls(b: Batch)
    requires b.admitted <= |b.calls|
    ensures |Cancel(b).calls| == |b.calls|
    ensures forall j :: 0 <= j < |b.calls| ==> Cancel(b).calls[j] == Cleared(b, j, |b.calls|)
  {
  }

  /** Call `j` when the calls from the first that never started up to `i` are emptied. */
  function Cleared(b: Batch, j: nat, i: nat): Call
    requires j < |b.calls|
  {
    if b.admitted <= j < i then Call("", "", "") else b.calls[j]
  }

  lemma BetweenGrows(base: set<nat>, low: nat, high: nat)
    requires low <= high
    ensures base + Between(low, high) + {high} == base + Between(low, high + 1)
  {
  }

  /** The results, in batch order. */
  method CollectRows(b: Batch) returns (rows: seq<Row>)
    requires HasAllResults(b)
    ensures rows == Ordered(b.calls, b.results)
  {
    rows := [];
    for i := 0 to |b.calls|
      invariant |rows| == i
      invariant forall j :: 0 <= j < i ==> rows[j] == Row(b.calls[j].toolUseId, b.calls[j].name, b.results[j].value)
    {
      rows := rows + [Row(b.calls[i].toolUseId, b.calls[i].name, b.results[i].value)];
    }
  }

  /** The calls that missed the grace window. */
  method NameLaggards(b: Batch) returns (lagging: set<nat>)
    ensures lagging == set i | 0 <= i < |b.calls| && i !in b.reported
  {
    lagging := {};
    for i := 0 to |b.calls|
      invariant forall j :: j in lagging <==> 0 <= j < i && j !in b.reported
    {
      if i !in b.reported {
        lagging := lagging + {i};
      }
    }
  }

  // ---------------------------------------------------------------- the scheduler object

  /** What happens while a batch is suspended, and how its wait ends: calls of any batch return; then
      a completion is received, possibly with the parent cancelled by then, or the receive is
      cancelled, or the grace window is over. */
  datatype Finished = Finished(batch: BatchId, index: nat, output: Result<string>)
  datatype Resumption = Received(cancelled: bool) | ReceiveCancelled | GraceOver
  datatype Wake = Wake(returned: seq<Finished>, resumption: Resumption)

  function FinishAll(s: State, returned: seq<Finished>): (t: State)
    requires Sized(s)
    ensures Sized(t) && |t.batches| == |s.batches|
  {
    if returned == [] then s
    else
      var t, f := FinishAll(s, returned[..|returned| - 1]), returned[|returned| - 1];
      if f.batch < |t.batches| then CallReturns(t, f.batch, f.index, f.output) else t
  }

  /** What the coroutine of a batch does when its wait ends this way. */
  function Resumed(s: State, k: BatchId, how: Resumption): (t: State)
    requires Sized(s) && k < |s.batches|
    ensures Sized(t) && |t.batches| == |s.batches|
  {
    var b := s.batches[k];
    if b.phase.Receiving? && how.Received? && b.queue != [] then StepBatch(s, k, Receives(how.cancelled))
    else if b.phase.Receiving? && how.ReceiveCancelled? then StepBatch(s, k, Cancels)
    else if b.phase.Draining? && how.Received? && b.queue != [] && b.completed < |b.calls| then StepBatch(s, k, Drains)
    else if b.phase.Draining? && (how.GraceOver? || b.completed >= |b.calls|) then StepBatch(s, k, GivesUp)
    else s
  }

  /** The coroutine from now on: its state when it returns or is left suspended, and what it returns. */
  function Await(s: State, k: BatchId, script: seq<Wake>): (State, Option<Result<seq<Row>>>)
    requires Sized(s) && k < |s.batches|
    decreases |script|
  {
    if script == [] then (s, None)
    else
      var t := Resumed(FinishAll(s, script[0].returned), k, script[0].resumption);
      match t.batches[k].phase
      case Succeeded(rows) => (t, Some(Ok(rows)))
      case Abandoned(_) => (t, Some(Err(Cancelled)))
      case _ => Await(t, k, script[1..])
  }

  class Scheduler {
    const maxParallel: nat
    var batches: seq<Batch>
    var active: map<Context, nat>
    var asleep: map<Waiter, Option<Context>>

    ghost function View(): State
      reads this
    {
      State(maxParallel, batches, active, asleep)
    }

    ghost predicate Valid()
      reads this
    {
      Inv(View())
    }

    constructor (maxParallel: nat)
      ensures Valid() && View() == Empty(maxParallel)
    {
      this.maxParallel := maxParallel;
      batches, active, asleep := [], map[], map[];
    }

    /** Counts a started call against its context. */
    method StartCall(context: Context)
      modifies this`active
      ensures active == Increment(old(active), context)
    {
      if context in active {
        active := active[context := active[context] + 1];
      } else {
        active := active[context := 1];
      }
    }

    /** The end of a call: the count goes down, waiters wake up. */
    method EndCall(context: Context)
      requires context in active
      modifies this`active, this`asleep
      ensures active == Decrement(old(active), context) && asleep == map[]
    {
      var left := if active[context] > 0 then active[context] - 1 else 0;
      if left == 0 {
        active := active - {context};
      } else {
        active := active[context := left];
      }
      asleep := map[];
    }

    /** Admits the batch: the first calls start at once, the others wait as values. */
    method RunBatch(context: Context, calls: seq<Call>, cancelled: bool) returns (r: Result<seq<Row>>)
      requires Valid()
      modifies this
      ensures Valid()
      ensures (View(), r) == StartBatch(old(View()), context, calls, cancelled)
    {
      StartKeepsInv(View(), context, calls, cancelled);
      if maxParallel == 0 {
        return Err(InvalidArgument);
      }
      if calls == [] {
        return Ok([]);
      }
      if cancelled {
        return Err(Cancelled);
      }
      AdmitWorkers(context, calls);
      return Ok([]);
    }

    method AdmitWorkers(context: Context, calls: seq<Call>)
      modifies this
      ensures batches == old(batches) + [NewBatch(context, calls, maxParallel)] && asleep == old(asleep)
      ensures active == Increments(old(active), context, Min(|calls|, maxParallel))
    {
      var workers := Min(|calls|, maxParallel);
      for admitted := 0 to workers
        invariant batches == old(batches) && asleep == old(asleep)
        invariant active == Increments(old(active), context, admitted)
      {
        StartCall(context);
      }
      batches := batches + [NewBatch(context, calls, maxParallel)];
    }

    /** The completion handler of a call in flight. */
    method FinishCall(k: BatchId, i: nat, output: Result<string>)
      requires k < |batches| && i in batches[k].live && i < |batches[k].results| && batches[k].context in active
      modifies this
      ensures View() == CallReturns(old(View()), k, i, output)
    {
      var b := batches[k];
      b := b.(results := b.results[i := Some(output)], live := b.live - {i});
      EndCall(b.context);
      batches := batches[k := b.(queue := b.queue + [i])];
    }

    /** The body of the receiving loop: account for a completion, start the next call or notice that
        the parent is cancelled, and collect the rows when all have reported. */
    method ReceiveOne(k: BatchId, cancelled: bool)
      requires Sized(View()) && k < |batches| && batches[k].phase.Receiving? && batches[k].queue != []
      requires batches[k].admitted <= |batches[k].calls|
      modifies this
      ensures View() == StepBatch(old(View()), k, Receives(cancelled))
    {
      var b := batches[k];
      b := b.(queue := b.queue[1..], reported := b.reported + {b.queue[0]}, completed := b.completed + 1);
      if cancelled {
        b := ClearUnstarted(b);
      } else {
        if b.admitted < |b.calls| {
          StartCall(b.context);
          b := b.(live := b.live + {b.admitted}, admitted := b.admitted + 1);
        }
        if b.completed >= |b.calls| && HasAllResults(b) {
          var rows := CollectRows(b);
          b := b.(phase := Succeeded(rows));
        }
      }
      batches := batches[k := b];
    }

    /** The receive itself was cancelled. */
    method CancelBatch(k: BatchId)
      requires Sized(View()) && k < |batches| && batches[k].phase.Receiving? && batches[k].admitted <= |batches[k].calls|
      modifies this`batches
      ensures View() == StepBatch(old(View()), k, Cancels)
    {
      var b := ClearUnstarted(batches[k]);
      batches := batches[k := b];
    }

    /** The body of the draining loop. */
    method DrainOne(k: BatchId)
      requires Sized(View()) && k < |batches| && batches[k].phase.Draining? && batches[k].queue != []
      modifies this`batches
      ensures View() == StepBatch(old(View()), k, Drains)
    {
      var b := batches[k];
      batches := batches[k := b.(queue := b.queue[1..], reported := b.reported + {b.queue[0]}, completed := b.completed + 1)];
    }

    /** The end of a cancelled batch. */
    method GiveUpOn(k: BatchId)
      requires Sized(View()) && k < |batches| && batches[k].phase.Draining?
      modifies this`batches
      ensures View() == StepBatch(old(View()), k, GivesUp)
    {
      var lagging := NameLaggards(batches[k]);
      batches := batches[k := batches[k].(phase := Abandoned(lagging))];
    }

    /** One round of wait_idle. */
    method PollIdle(w: Waiter, context: Option<Context>) returns (idle: bool)
      requires Valid()
      modifies this`asleep
      ensures Valid() && (View(), idle) == Wait(old(View()), w, context)
      ensures idle <==> Quiet(View(), context)
    {
      WaitKeepsInv(View(), w, context);
      idle := match context case Some(c) => c !in active case None => active == map[];
      if idle {
        IdleMeansNoCallInFlight(View(), context);
      } else {
        if Quiet(View(), context) {
          NoCallInFlightMeansIdle(View(), context);
        }
        asleep := asleep[w := context];
      }
    }

    /** The calls that return during one suspension, in order. */
    method FinishCalls(returned: seq<Finished>) returns (ghost events: seq<Event>)
      requires Valid() && Sized(View())
      modifies this
      ensures Valid() && Sized(View()) && View() == Run(old(View()), events)
      ensures |batches| == |old(batches)| && View() == FinishAll(old(View()), returned)
    {
      ghost var before := View();
      events := [];
      for n := 0 to |returned|
        invariant Valid() && Sized(View()) && View() == Run(before, events) && |batches| == |old(batches)|
        invariant View() == FinishAll(before, returned[..n])
      {
        assert returned[..n + 1][..n] == returned[..n];
        var f := returned[n];
        if f.batch < |batches| && f.index in batches[f.batch].live {
          ghost var s := View();
          StepKeepsInv(s, f.batch, Returns(f.index, f.output));
          LiveIsCounted(s, f.batch);
          FinishCall(f.batch, f.index, f.output);
          assert View() == StepBatch(s, f.batch, Returns(f.index, f.output));
          RunThen(before, events, StepEvent(f.batch, Returns(f.index, f.output)));
          events := events + [StepEvent(f.batch, Returns(f.index, f.output))];
        }
      }
      assert returned[..|returned|] == returned;
    }

    /** The coroutine of a batch, resumed once for each element of the script: it receives until every
        call has reported or the parent is cancelled, then drains until everything has reported or
        the grace window is over. Nothing is returned while it is still suspended. */
    method AwaitBatch(k: BatchId, script: seq<Wake>) returns (r: Option<Result<seq<Row>>>, ghost events: seq<Event>)
      requires Valid() && Sized(View()) && k < |batches|
      modifies this
      ensures Valid() && Sized(View()) && View() == Run(old(View()), events) && k < |batches|
      ensures r.Some? && r.value.Ok? ==> batches[k].phase == Succeeded(r.value.value)
      ensures r.Some? && r.value.Err? ==> r.value.kind == Cancelled && batches[k].phase.Abandoned?
      ensures (View(), r) == Await(old(View()), k, script)
    {
      ghost var before := View();
      events := [];
      for n := 0 to |script|
        invariant Valid() && Sized(View()) && View() == Run(before, events) && k < |batches|
        invariant Await(before, k, script) == Await(View(), k, script[n..])
      {
        assert script[n..][1..] == script[n + 1..];
        ghost var more := FinishCalls(script[n].returned);
        RunConcat(before, events, more);
        events := events + more;
        ghost var step := Resume(k, script[n].resumption);
        RunConcat(before, events, step);
        events := events + step;
        if batches[k].phase.Succeeded? {
          return Some(Ok(batches[k].phase.rows)), events;
        }
        if batches[k].phase.Abandoned? {
          return Some(Err(Cancelled)), events;
        }
      }
      r := None;
    }

    /** What the coroutine does when its wait ends this way. */
    method Resume(k: BatchId, how: Resumption) returns (ghost events: seq<Event>)
      requires Valid() && Sized(View()) && k < |batches|
      modifies this
      ensures Valid() && Sized(View()) && View() == Run(old(View()), events) && |batches| == |old(batches)|
      ensures View() == Resumed(old(View()), k, how)
    {
      ghost var s := View();
      assert Tracked(batches[k]);
      events := [];
      var b := batches[k];
      if b.phase.Receiving? && how.Received? && b.queue != [] {
        events := [StepEvent(k, Receives(how.cancelled))];
        StepKeepsInv(s, k, Receives(how.cancelled));
        ReceiveOne(k, how.cancelled);
      } else if b.phase.Receiving? && how.ReceiveCancelled? {
        events := [StepEvent(k, Cancels)];
        StepKeepsInv(s, k, Cancels);
        CancelBatch(k);
      } else if b.phase.Draining? && how.Received? && b.queue != [] && b.completed < |b.calls| {
        events := [StepEvent(k, Drains)];
        StepKeepsInv(s, k, Drains);
        DrainOne(k);
      } else if b.phase.Draining? && (how.GraceOver? || b.completed >= |b.calls|) {
        events := [StepEvent(k, GivesUp)];
        StepKeepsInv(s, k, GivesUp);
        GiveUpOn(k);
      }
      assert events == [] || Run(s, events) == Next(s, events[0]);
    }
  }

  /** A call in flight is counted on its context. */
  lemma LiveIsCounted(s: State, k: BatchId)
    requires Counted(s) && k < |s.batches| && s.batches[k].live != {}
    ensures s.batches[k].context in s.active
  {
    LiveOnAtLeast(s.batches, k);
  }
}

/** Bounded ownership of named child tasks (src/oran-async/task_group.cpp). Children finish on
    their own strand: removing a child and waking the joiner are two separate steps. */
module TaskGroup {
  import opened Core

  datatype Status = Succeeded | Failed | Stopped | Lagging

  datatype Outcome = Outcome(name: string, status: Status)

  /** A child of the group, and a row of a report, by spawn sequence. */
  datatype Child = Child(sequence: nat, name: string)
  datatype Record = Record(sequence: nat, outcome: Outcome)

  /** Where the one joining coroutine stands. */
  datatype Joiner = NotJoining | Checking | Waiting | Done(rows: seq<Record>, dropped: nat)

  /** `slot` is the one-place completion channel; `signalling` counts children that have left
      `active` but not yet tried to send. `settled` are the children already reported or dropped. */
  datatype Group = Group(
    maxTasks: nat,
    maxCompleted: nat,
    active: seq<Child>,
    completed: seq<Record>,
    nextSequence: nat,
    dropped: nat,
    closed: bool,
    stopRequested: bool,
    joinStarted: bool,
    slot: bool,
    signalling: nat,
    joiner: Joiner,
    settled: set<nat>,
    reported: nat)

  // ---------------------------------------------------------------- ordering by spawn sequence

  predicate Ascending(rows: seq<Record>) {
    forall i, j :: 0 <= i < j < |rows| ==> rows[i].sequence < rows[j].sequence
  }

  predicate Unique(rows: seq<Record>) {
    forall i, j :: 0 <= i < j < |rows| ==> rows[i].sequence != rows[j].sequence
  }

  function Insert(row: Record, rows: seq<Record>): (r: seq<Record>)
    ensures forall x :: x in r <==> x == row || x in rows
    ensures |r| == |rows| + 1
  {
    if rows == [] || row.sequence < rows[0].sequence then [row] + rows
    else [rows[0]] + Insert(row, rows[1..])
  }

  /** Rows by spawn order. */
  function Sort(rows: seq<Record>): (r: seq<Record>)
    ensures forall x :: x in r <==> x in rows
    ensures |r| == |rows|
  {
    if rows == [] then [] else Insert(rows[0], Sort(rows[1..]))
  }

  lemma {:induction false} InsertAscends(row: Record, rows: seq<Record>)
    requires Ascending(rows) && forall x :: x in rows ==> x.sequence != row.sequence
    ensures Ascending(Insert(row, rows))
  {
    if rows != [] && row.sequence >= rows[0].sequence {
      var rest := rows[1..];
      assert rows[0] in rows && forall x :: x in rest ==> x in rows;
      InsertAscends(row, rest);
      var tail := Insert(row, rest);
      forall x | x in tail ensures rows[0].sequence < x.sequence {
        if x != row {
          var k :| 0 <= k < |rest| && rest[k] == x;
          assert rows[k + 1] == x;
        }
      }
    }
  }

  lemma {:induction false} SortAscends(rows: seq<Record>)
    requires Unique(rows)
    ensures Ascending(Sort(rows))
  {
    if rows != [] {
      assert Unique(rows[1..]) by {
        forall i, j | 0 <= i < j < |rows[1..]| ensures rows[1..][i].sequence != rows[1..][j].sequence {
          assert rows[i + 1].sequence != rows[j + 1].sequence;
        }
      }
      SortAscends(rows[1..]);
      forall x | x in Sort(rows[1..]) ensures x.sequence != rows[0].sequence {
        var k :| 0 <= k < |rows[1..]| && rows[1..][k] == x;
        assert rows[k + 1] == x;
      }
      InsertAscends(rows[0], Sort(rows[1..]));
    }
  }

  /** Completed rows and lagging rows in one spawn order. */
  function Merge(a: seq<Record>, b: seq<Record>): (r: seq<Record>)
    ensures forall x :: x in r <==> x in a || x in b
    ensures |r| == |a| + |b|
  {
    if a == [] then b
    else if b == [] then a
    else if a[0].sequence < b[0].sequence then [a[0]] + Merge(a[1..], b)
    else [b[0]] + Merge(a, b[1..])
  }

  lemma TailAscends(rows: seq<Record>)
    requires Ascending(rows) && rows != []
    ensures Ascending(rows[1..])
    ensures forall x :: x in rows[1..] ==> rows[0].sequence < x.sequence
  {
    var rest := rows[1..];
    assert forall k :: 0 <= k < |rest| ==> rest[k] == rows[k + 1];
  }

  lemma ConsAscends(head: Record, rest: seq<Record>)
    requires Ascending(rest) && forall x :: x in rest ==> head.sequence < x.sequence
    ensures Ascending([head] + rest)
  {
  }

  lemma {:induction false} MergeAscends(a: seq<Record>, b: seq<Record>)
    requires Ascending(a) && Ascending(b)
    requires forall x, y :: x in a && y in b ==> x.sequence != y.sequence
    ensures Ascending(Merge(a, b))
    decreases |a| + |b|
  {
    if a != [] && b != [] {
      TailAscends(a);
      TailAscends(b);
      assert a[0] in a && b[0] in b;
      if a[0].sequence < b[0].sequence {
        MergeAscends(a[1..], b);
        assert forall x :: x in b ==> x == b[0] || x in b[1..];
        ConsAscends(a[0], Merge(a[1..], b));
      } else {
        MergeAscends(a, b[1..]);
        assert forall x :: x in a ==> x == a[0] || x in a[1..];
        ConsAscends(b[0], Merge(a, b[1..]));
      }
    }
  }

  /** What is still to be merged from positions `i` and `j` on. */
  ghost function MergeFrom(a: seq<Record>, b: seq<Record>, i: nat, j: nat): seq<Record>
    requires i <= |a| && j <= |b|
  {
    Merge(a[i..], b[j..])
  }

  method MergeRows(a: seq<Record>, b: seq<Record>) returns (rows: seq<Record>)
    ensures rows == Merge(a, b)
  {
    var i, j := 0, 0;
    rows := [];
    ghost var goal := Merge(a, b);
    MergeEnds(a, b);
    while i < |a| || j < |b|
      invariant 0 <= i <= |a| && 0 <= j <= |b|
      invariant rows + MergeFrom(a, b, i, j) == goal
      decreases |a| - i + |b| - j
    {
      if i < |a| && (j == |b| || a[i].sequence < b[j].sequence) {
        MergeLeft(a, b, i, j);
        rows := rows + [a[i]];
        i := i + 1;
      } else {
        MergeRight(a, b, i, j);
        rows := rows + [b[j]];
        j := j + 1;
      }
    }
  }

  lemma MergeEnds(a: seq<Record>, b: seq<Record>)
    ensures MergeFrom(a, b, 0, 0) == Merge(a, b) && MergeFrom(a, b, |a|, |b|) == []
  {
    assert a[0..] == a && b[0..] == b;
  }

  lemma MergeLeft(a: seq<Record>, b: seq<Record>, i: nat, j: nat)
    requires i < |a| && j <= |b| && (j == |b| || a[i].sequence < b[j].sequence)
    ensures MergeFrom(a, b, i, j) == [a[i]] + MergeFrom(a, b, i + 1, j)
  {
    assert a[i..] == [a[i]] + a[i + 1..];
  }

  lemma MergeRight(a: seq<Record>, b: seq<Record>, i: nat, j: nat)
    requires i <= |a| && j < |b| && (i == |a| || a[i].sequence >= b[j].sequence)
    ensures MergeFrom(a, b, i, j) == [b[j]] + MergeFrom(a, b, i, j + 1)
  {
    assert b[j..] == [b[j]] + b[j + 1..];
  }

  function LaggingRow(child: Child): Record {
    Record(child.sequence, Outcome(child.name, Lagging))
  }

  function LaggingRows(active: seq<Child>): (r: seq<Record>)
    ensures |r| == |active| && forall k :: 0 <= k < |r| ==> r[k] == LaggingRow(active[k])
  {
    seq(|active|, k requires 0 <= k < |active| => LaggingRow(active[k]))
  }

  /** The report of a join that saw every child finish, and of one that hit its deadline. */
  function JoinRows(g: Group): seq<Record> {
    Sort(g.completed)
  }

  function TimedRows(g: Group): seq<Record> {
    Merge(Sort(g.completed), Sort(LaggingRows(g.active)))
  }

  // ---------------------------------------------------------------- steps

  function Create(maxTasks: nat, maxCompleted: nat): Result<Group> {
    if maxTasks == 0 || maxCompleted == 0 then Err(InvalidArgument)
    else Ok(Group(maxTasks, maxCompleted, [], [], 0, 0, false, false, false, false, 0, NotJoining, {}, 0))
  }

  function Spawn(g: Group, name: string, hasTask: bool): (Group, Result<nat>) {
    if name == "" || !hasTask then (g, Err(InvalidArgument))
    else if g.closed then (g, Err(Conflict))
    else if |g.active| >= g.maxTasks then (g, Err(MailboxOverflowed))
    else
      (g.(active := g.active + [Child(g.nextSequence, name)], nextSequence := g.nextSequence + 1),
       Ok(g.nextSequence))
  }

  function RequestStop(g: Group): Group {
    g.(closed := true, stopRequested := true)
  }

  predicate IsActive(active: seq<Child>, sequence: nat) {
    exists k :: 0 <= k < |active| && active[k].sequence == sequence
  }

  function Remove(active: seq<Child>, sequence: nat): (r: seq<Child>)
    ensures forall c :: c in r <==> c in active && c.sequence != sequence
  {
    if active == [] then []
    else (if active[0].sequence == sequence then [] else [active[0]]) + Remove(active[1..], sequence)
  }

  /** The locked half of finishing a child: its outcome replaces it, and the oldest outcome is
      dropped when the buffer is full. A child that already finished is ignored. */
  function Finish(g: Group, sequence: nat, outcome: Outcome): Group {
    if !IsActive(g.active, sequence) then g
    else
      var full := |g.completed| == g.maxCompleted && g.completed != [];
      var kept := if full then g.completed[1..] else g.completed;
      g.(active := Remove(g.active, sequence),
         completed := kept + [Record(sequence, outcome)],
         dropped := g.dropped + (if full then 1 else 0),
         settled := g.settled + (if full then {g.completed[0].sequence} else {}),
         signalling := g.signalling + 1)
  }

  /** The unlocked half: try_send into the one-place channel, ignored when it is full. */
  function Signal(g: Group): Group {
    if g.signalling == 0 then g else g.(signalling := g.signalling - 1, slot := true)
  }

  function Sequences(rows: seq<Record>): set<nat> {
    set k | 0 <= k < |rows| :: rows[k].sequence
  }

  function Drain(g: Group): Group {
    g.(completed := [], dropped := 0, settled := g.settled + Sequences(g.completed),
       reported := g.reported + |g.completed| + g.dropped)
  }

  function BeginJoin(g: Group): (Group, Result<()>) {
    if g.joinStarted then (g.(closed := true), Err(Conflict))
    else (g.(closed := true, joinStarted := true, joiner := Checking), Ok(()))
  }

  /** The joiner tests whether children are left: it waits on the channel or reports. */
  function Check(g: Group): Group {
    if !g.joiner.Checking? then g
    else if g.active != [] then g.(joiner := Waiting)
    else Drain(g).(joiner := Done(JoinRows(g), g.dropped))
  }

  /** The channel hands its token to the waiting joiner, which tests again. */
  function Receive(g: Group): Group {
    if g.joiner.Waiting? && g.slot then g.(slot := false, joiner := Checking) else g
  }

  /** The parent is cancelled while the joiner waits: stop the children and keep joining. */
  function CancelJoin(g: Group): Group {
    if g.joiner.Waiting? then RequestStop(g).(joiner := Checking) else g
  }

  /** The deadline of a bounded join passes: report what is there, naming the laggards. */
  function Deadline(g: Group): Group {
    if !g.joiner.Waiting? && !g.joiner.Checking? then g
    else if g.active == [] then Drain(g).(joiner := Done(JoinRows(g), g.dropped))
    else Drain(RequestStop(g)).(joiner := Done(TimedRows(g), g.dropped))
  }

  datatype Event =
    | SpawnEvent(name: string, hasTask: bool)
    | CloseEvent
    | StopEvent
    | FinishEvent(sequence: nat, outcome: Outcome)
    | SignalEvent
    | DrainEvent
    | BeginJoinEvent
    | CheckEvent
    | ReceiveEvent
    | CancelJoinEvent
    | DeadlineEvent

  function Step(g: Group, e: Event): Group {
    match e
    case SpawnEvent(name, hasTask) => Spawn(g, name, hasTask).0
    case CloseEvent => g.(closed := true)
    case StopEvent => RequestStop(g)
    case FinishEvent(sequence, outcome) =>
      if outcome.status == Lagging then g else Finish(g, sequence, outcome)
    case SignalEvent => Signal(g)
    case DrainEvent => Drain(g)
    case BeginJoinEvent => BeginJoin(g).0
    case CheckEvent => Check(g)
    case ReceiveEvent => Receive(g)
    case CancelJoinEvent => CancelJoin(g)
    case DeadlineEvent => Deadline(g)
  }

  function Run(g: Group, events: seq<Event>): Group
    decreases |events|
  {
    if events == [] then g else Run(Step(g, events[0]), events[1..])
  }

  // ---------------------------------------------------------------- invariant

  predicate DistinctChildren(active: seq<Child>) {
    forall i, j :: 0 <= i < j < |active| ==> active[i].sequence != active[j].sequence
  }

  function ActiveSequences(active: seq<Child>): set<nat> {
    set k | 0 <= k < |active| :: active[k].sequence
  }

  /** Every child ever spawned is active, retained or settled, and only one of these. */
  ghost predicate Accounted(g: Group) {
    && DistinctChildren(g.active) && Unique(g.completed)
    && ActiveSequences(g.active) !! Sequences(g.completed)
    && ActiveSequences(g.active) !! g.settled
    && Sequences(g.completed) !! g.settled
    && (forall n :: n in ActiveSequences(g.active) || n in Sequences(g.completed) || n in g.settled <==>
         0 <= n < g.nextSequence)
    && |g.settled| == g.dropped + g.reported
  }

  /** The joiner waits only while someone is still going to wake it. */
  predicate NoLostWakeup(g: Group) {
    g.joiner.Waiting? ==> g.active != [] || g.signalling > 0 || g.slot
  }

  ghost predicate Inv(g: Group) {
    && 0 < g.maxTasks && 0 < g.maxCompleted
    && |g.active| <= g.maxTasks && |g.completed| <= g.maxCompleted
    && Accounted(g)
    && NoLostWakeup(g)
    && (forall r :: r in g.completed ==> r.outcome.status != Lagging)
    && (g.joiner.NotJoining? <==> !g.joinStarted)
    && (g.joinStarted ==> g.closed)
  }

  // ---------------------------------------------------------------- every step keeps it

  lemma SpawnKeepsInv(g: Group, name: string, hasTask: bool)
    requires Inv(g)
    ensures Inv(Spawn(g, name, hasTask).0)
  {
    var h := Spawn(g, name, hasTask).0;
    if h != g {
      assert h.active[|g.active|].sequence == g.nextSequence;
      forall k | 0 <= k < |g.active| ensures g.active[k].sequence < g.nextSequence {
        assert g.active[k].sequence in ActiveSequences(g.active);
      }
      assert ActiveSequences(h.active) == ActiveSequences(g.active) + {g.nextSequence} by {
        forall n | n in ActiveSequences(g.active) ensures n in ActiveSequences(h.active) {
          var k :| 0 <= k < |g.active| && g.active[k].sequence == n;
          assert h.active[k].sequence == n;
        }
      }
    }
  }

  lemma TailOfChildren(active: seq<Child>)
    requires DistinctChildren(active) && active != []
    ensures DistinctChildren(active[1..])
    ensures ActiveSequences(active) == {active[0].sequence} + ActiveSequences(active[1..])
    ensures forall k :: 0 <= k < |active[1..]| ==> active[1..][k].sequence != active[0].sequence
  {
    var rest := active[1..];
    assert forall k :: 0 <= k < |rest| ==> rest[k] == active[k + 1];
    assert active[0].sequence in ActiveSequences(active);
    forall n | n in ActiveSequences(rest) ensures n in ActiveSequences(active) {
      var k :| 0 <= k < |rest| && rest[k].sequence == n;
      assert active[k + 1].sequence == n;
    }
    forall n | n in ActiveSequences(active) && n != active[0].sequence ensures n in ActiveSequences(rest) {
      var k :| 0 <= k < |active| && active[k].sequence == n;
      assert rest[k - 1].sequence == n;
    }
  }

  lemma {:induction false} RemoveActive(active: seq<Child>, sequence: nat)
    requires DistinctChildren(active) && sequence in ActiveSequences(active)
    ensures DistinctChildren(Remove(active, sequence))
    ensures ActiveSequences(Remove(active, sequence)) == ActiveSequences(active) - {sequence}
    ensures |Remove(active, sequence)| == |active| - 1
  {
    var rest := active[1..];
    TailOfChildren(active);
    if active[0].sequence == sequence {
      RemoveAbsent(rest, sequence);
      assert sequence !in ActiveSequences(rest);
    } else {
      RemoveActive(rest, sequence);
      assert active[0].sequence !in ActiveSequences(rest);
      RemoveHead(active[0], Remove(rest, sequence));
    }
  }

  lemma {:induction false} RemoveAbsent(active: seq<Child>, sequence: nat)
    requires forall k :: 0 <= k < |active| ==> active[k].sequence != sequence
    ensures Remove(active, sequence) == active
  {
    if active != [] {
      assert forall k :: 0 <= k < |active[1..]| ==> active[1..][k] == active[k + 1];
      RemoveAbsent(active[1..], sequence);
    }
  }

  lemma RemoveHead(head: Child, rest: seq<Child>)
    requires DistinctChildren(rest) && head.sequence !in ActiveSequences(rest)
    ensures DistinctChildren([head] + rest)
    ensures ActiveSequences([head] + rest) == {head.sequence} + ActiveSequences(rest)
  {
    var all := [head] + rest;
    forall i, j | 0 <= i < j < |all| ensures all[i].sequence != all[j].sequence {
      assert all[j].sequence == rest[j - 1].sequence;
      assert rest[j - 1].sequence in ActiveSequences(rest);
    }
    assert all[0].sequence == head.sequence;
    forall n | n in ActiveSequences(rest) ensures n in ActiveSequences(all) {
      var k :| 0 <= k < |rest| && rest[k].sequence == n;
      assert all[k + 1].sequence == n;
    }
  }

  lemma DropFirst(rows: seq<Record>)
    requires rows != [] && Unique(rows)
    ensures Unique(rows[1..]) && Sequences(rows[1..]) == Sequences(rows) - {rows[0].sequence}
    ensures rows[0].sequence in Sequences(rows)
  {
    var rest := rows[1..];
    forall i, j | 0 <= i < j < |rest| ensures rest[i].sequence != rest[j].sequence {
      assert rows[i + 1].sequence != rows[j + 1].sequence;
    }
    forall n | n in Sequences(rest) ensures n in Sequences(rows) && n != rows[0].sequence {
      var k :| 0 <= k < |rest| && rest[k].sequence == n;
      assert rows[k + 1].sequence == n;
    }
    forall n | n in Sequences(rows) && n != rows[0].sequence ensures n in Sequences(rest) {
      var k :| 0 <= k < |rows| && rows[k].sequence == n;
      assert rest[k - 1].sequence == n;
    }
  }

  lemma AppendRow(rows: seq<Record>, row: Record)
    requires Unique(rows) && row.sequence !in Sequences(rows)
    ensures Unique(rows + [row]) && Sequences(rows + [row]) == Sequences(rows) + {row.sequence}
  {
    var all := rows + [row];
    forall i, j | 0 <= i < j < |all| ensures all[i].sequence != all[j].sequence {
      assert rows[i].sequence in Sequences(rows);
    }
    assert all[|rows|].sequence == row.sequence;
    forall n | n in Sequences(rows) ensures n in Sequences(all) {
      var k :| 0 <= k < |rows| && rows[k].sequence == n;
      assert all[k].sequence == n;
    }
  }

  lemma FinishKeepsAccounts(g: Group, sequence: nat, outcome: Outcome)
    requires Accounted(g) && 0 < g.maxCompleted && IsActive(g.active, sequence)
    ensures Accounted(Finish(g, sequence, outcome))
  {
    assert sequence in ActiveSequences(g.active);
    RemoveActive(g.active, sequence);
    var full := |g.completed| == g.maxCompleted && g.completed != [];
    var kept := if full then g.completed[1..] else g.completed;
    if full {
      DropFirst(g.completed);
    }
    AppendRow(kept, Record(sequence, outcome));
  }

  lemma FinishKeepsInv(g: Group, sequence: nat, outcome: Outcome)
    requires Inv(g) && outcome.status != Lagging
    ensures Inv(Finish(g, sequence, outcome))
  {
    if IsActive(g.active, sequence) {
      FinishKeepsAccounts(g, sequence, outcome);
      assert sequence in ActiveSequences(g.active);
      RemoveActive(g.active, sequence);
    }
  }

  lemma SequencesSize(rows: seq<Record>)
    requires Unique(rows)
    ensures |Sequences(rows)| == |rows|
  {
    if rows != [] {
      DropFirst(rows);
      SequencesSize(rows[1..]);
    }
  }

  lemma DrainKeepsInv(g: Group)
    requires Inv(g)
    ensures Inv(Drain(g))
  {
    SequencesSize(g.completed);
    assert Sequences([]) == {};
  }

  lemma StepKeepsInv(g: Group, e: Event)
    requires Inv(g)
    ensures Inv(Step(g, e))
  {
    match e
    case SpawnEvent(name, hasTask) => SpawnKeepsInv(g, name, hasTask);
    case FinishEvent(sequence, outcome) =>
      if outcome.status != Lagging {
        FinishKeepsInv(g, sequence, outcome);
      }
    case DrainEvent => DrainKeepsInv(g);
    case CheckEvent => DrainKeepsInv(g);
    case DeadlineEvent =>
      DrainKeepsInv(g);
      DrainKeepsInv(RequestStop(g));
    case CloseEvent =>
    case StopEvent =>
    case SignalEvent =>
    case BeginJoinEvent =>
    case ReceiveEvent =>
    case CancelJoinEvent =>
  }

  lemma {:induction false} RunKeepsInv(g: Group, events: seq<Event>)
    requires Inv(g)
    ensures Inv(Run(g, events))
    decreases |events|
  {
    if events != [] {
      StepKeepsInv(g, events[0]);
      RunKeepsInv(Step(g, events[0]), events[1..]);
    }
  }

  // ---------------------------------------------------------------- what holds over every run

  lemma {:induction false} ActiveSize(active: seq<Child>)
    requires DistinctChildren(active)
    ensures |ActiveSequences(active)| == |active|
  {
    if active != [] {
      TailOfChildren(active);
      ActiveSize(active[1..]);
    }
  }

  lemma {:induction false} InitialSegmentSize(s: set<nat>, n: nat)
    requires forall k :: k in s <==> 0 <= k < n
    ensures |s| == n
  {
    if n == 0 {
      assert s == {};
    } else {
      InitialSegmentSize(s - {n - 1}, n - 1);
    }
  }

  /** Children are conserved in every reachable state: each one spawned is running, retained,
      counted as dropped, or has been reported. */
  lemma ChildrenAreConserved(maxTasks: nat, maxCompleted: nat, events: seq<Event>)
    requires Create(maxTasks, maxCompleted).Ok?
    ensures var g := Run(Create(maxTasks, maxCompleted).value, events);
      g.nextSequence == |g.active| + |g.completed| + g.dropped + g.reported
      && |g.active| <= maxTasks && |g.completed| <= maxCompleted
  {
    var g0 := Create(maxTasks, maxCompleted).value;
    RunKeepsInv(g0, events);
    RunKeepsBounds(g0, events);
    var g := Run(g0, events);
    ActiveSize(g.active);
    SequencesSize(g.completed);
    var all := ActiveSequences(g.active) + Sequences(g.completed) + g.settled;
    InitialSegmentSize(all, g.nextSequence);
    assert |ActiveSequences(g.active) + Sequences(g.completed)| == |g.active| + |g.completed|;
    assert |all| == |ActiveSequences(g.active) + Sequences(g.completed)| + |g.settled|;
  }

  lemma {:induction false} RunKeepsBounds(g: Group, events: seq<Event>)
    ensures Run(g, events).maxTasks == g.maxTasks && Run(g, events).maxCompleted == g.maxCompleted
    decreases |events|
  {
    if events != [] {
      StepKeepsBounds(g, events[0]);
      RunKeepsBounds(Step(g, events[0]), events[1..]);
    }
  }

  lemma StepKeepsBounds(g: Group, e: Event)
    ensures Step(g, e).maxTasks == g.maxTasks && Step(g, e).maxCompleted == g.maxCompleted
  {
  }

  lemma LaggingRowsAreUnique(active: seq<Child>)
    requires DistinctChildren(active)
    ensures Unique(LaggingRows(active))
  {
  }

  /** Reports list children in spawn order, each once; in a report at the deadline the lagging
      rows are exactly the children still active. */
  lemma ReportsAreOrdered(g: Group)
    requires Inv(g)
    ensures Ascending(JoinRows(g)) && Ascending(TimedRows(g))
    ensures forall r :: r in JoinRows(g) <==> r in g.completed
    ensures forall r :: r in TimedRows(g) && r.outcome.status != Lagging <==> r in g.completed
    ensures forall r :: r in TimedRows(g) && r.outcome.status == Lagging <==>
      exists c :: c in g.active && r == LaggingRow(c)
  {
    SortAscends(g.completed);
    LaggingRowsAreUnique(g.active);
    var lagging := LaggingRows(g.active);
    SortAscends(lagging);
    forall x, y | x in Sort(g.completed) && y in Sort(lagging) ensures x.sequence != y.sequence {
      var i :| 0 <= i < |g.completed| && g.completed[i] == x;
      var k :| 0 <= k < |lagging| && lagging[k] == y;
      assert x.sequence in Sequences(g.completed);
      assert g.active[k].sequence in ActiveSequences(g.active);
    }
    MergeAscends(Sort(g.completed), Sort(lagging));
    LaggingAreActive(g.active);
  }

  lemma LaggingAreActive(active: seq<Child>)
    ensures forall r :: r in LaggingRows(active) <==> exists c :: c in active && r == LaggingRow(c)
  {
    var lagging := LaggingRows(active);
    forall r ensures r in lagging <==> exists c :: c in active && r == LaggingRow(c) {
      if r in lagging {
        var k :| 0 <= k < |lagging| && lagging[k] == r;
        assert active[k] in active;
      }
      if c :| c in active && r == LaggingRow(c) {
        var k :| 0 <= k < |active| && active[k] == c;
        assert lagging[k] == r;
      }
    }
  }

  /** In every reachable state: once the last child has finished and signalled, a waiting joiner
      has its token, and taking it ends the join with every retained outcome in spawn order. */
  lemma JoinerIsNeverStranded(maxTasks: nat, maxCompleted: nat, events: seq<Event>)
    requires Create(maxTasks, maxCompleted).Ok?
    ensures var g := Run(Create(maxTasks, maxCompleted).value, events);
      g.joiner.Waiting? && g.active == [] && g.signalling == 0 ==>
        g.slot && Check(Receive(g)).joiner == Done(JoinRows(g), g.dropped)
  {
    RunKeepsInv(Create(maxTasks, maxCompleted).value, events);
  }

  lemma SkipFirst(active: seq<Child>, i: nat)
    requires 0 < i < |active|
    ensures [active[0]] + (active[1..][..i - 1] + active[1..][i..]) == active[..i] + active[i + 1..]
  {
    assert [active[0]] + active[1..][..i - 1] == active[..i];
    assert active[1..][i..] == active[i + 1..];
  }

  lemma {:induction false} RemoveAtIndex(active: seq<Child>, i: nat)
    requires DistinctChildren(active) && i < |active|
    ensures Remove(active, active[i].sequence) == active[..i] + active[i + 1..]
  {
    var rest := active[1..];
    TailOfChildren(active);
    if i == 0 {
      RemoveAbsent(rest, active[0].sequence);
    } else {
      assert rest[i - 1] == active[i];
      RemoveAtIndex(rest, i - 1);
      SkipFirst(active, i);
    }
  }

  // ---------------------------------------------------------------- the group object

  /** What happens while a joiner is suspended, and how its wait ends. */
  datatype Outside = Finishes(sequence: nat, outcome: Outcome) | Signals
  datatype Waking = Received | ParentCancelled | TimedOut
  datatype Wake = Wake(meanwhile: seq<Outside>, how: Waking)

  /** How the waiting loop of a join ends, if it does. */
  datatype Waited = NoChildLeft | DeadlinePassed | StillWaiting

  /** What happens outside a suspended joiner, in order. */
  function Outsides(g: Group, meanwhile: seq<Outside>): (h: Group)
    ensures h.joiner == g.joiner && h.joinStarted == g.joinStarted
  {
    if meanwhile == [] then g
    else
      var h := Outsides(g, meanwhile[..|meanwhile| - 1]);
      match meanwhile[|meanwhile| - 1]
      case Finishes(sequence, outcome) => if outcome.status == Lagging then h else Finish(h, sequence, outcome)
      case Signals => Signal(h)
  }

  /** The end of one suspension. */
  function Resumed(g: Group, how: Waking): Group {
    match how
    case Received => Receive(g)
    case ParentCancelled => CancelJoin(g)
    case TimedOut => g
  }

  /** The waiting loop of a join, resumed once for each element of the script. */
  function Awaits(g: Group, script: seq<Wake>, bounded: bool): (Group, Waited)
    decreases |script|
  {
    if g.active == [] then (g, NoChildLeft)
    else if script == [] then (g, StillWaiting)
    else
      var h := Outsides(g.(joiner := Waiting), script[0].meanwhile);
      if script[0].how.TimedOut? then (h, if bounded then DeadlinePassed else StillWaiting)
      else
        var k := Resumed(h, script[0].how);
        if k.joiner.Waiting? then (k, StillWaiting) else Awaits(k, script[1..], bounded)
  }

  /** The group once its join has begun. */
  function Begun(g: Group): Group {
    g.(closed := true, joinStarted := true, joiner := Checking)
  }

  /** A join returns exactly when no child is left, with all rows that were retained and the number of
      those that were not. */
  predicate Joins(g: Group, script: seq<Wake>, report: Option<Result<(seq<Record>, nat)>>) {
    var (t, end) := Awaits(g, script, false);
    report == if end.NoChildLeft? then Some(Ok((JoinRows(t), t.dropped))) else None
  }

  /** A bounded join returns then or at the deadline, when it adds a row for each child that is left. */
  predicate JoinsInTime(g: Group, script: seq<Wake>, report: Option<Result<(seq<Record>, nat)>>) {
    var (t, end) := Awaits(g, script, true);
    report ==
      match end
      case NoChildLeft => Some(Ok((JoinRows(t), t.dropped)))
      case DeadlinePassed => Some(Ok((TimedRows(t), t.dropped)))
      case StillWaiting => None
  }

  lemma DeadlineOnly(g: Group)
    ensures Run(g, [DeadlineEvent]) == Deadline(g)
  {
    RunThen(g, [], DeadlineEvent);
    assert [] + [DeadlineEvent] == [DeadlineEvent];
  }

  /** The lagging rows are exactly the children still active. */
  ghost predicate NamesLaggards(rows: seq<Record>, active: seq<Child>) {
    forall r :: r in rows && r.outcome.status == Lagging <==> r in LaggingRows(active)
  }

  lemma TimedRowsNameLaggards(g: Group)
    requires Inv(g)
    ensures NamesLaggards(TimedRows(g), g.active)
  {
    ReportsAreOrdered(g);
    LaggingAreActive(g.active);
  }

  lemma NobodyLags(rows: seq<Record>)
    requires forall r :: r in rows ==> r.outcome.status != Lagging
    ensures NamesLaggards(rows, [])
  {
  }

  lemma {:induction false} RunConcat(g: Group, a: seq<Event>, b: seq<Event>)
    ensures Run(g, a + b) == Run(Run(g, a), b)
    decreases |a|
  {
    if a == [] {
      assert a + b == b;
    } else {
      assert (a + b)[1..] == a[1..] + b;
      RunConcat(Step(g, a[0]), a[1..], b);
    }
  }

  lemma RunThen(g: Group, a: seq<Event>, e: Event)
    ensures Run(g, a + [e]) == Step(Run(g, a), e)
  {
    RunConcat(g, a, [e]);
  }

  class Impl {
    const maxTasks: nat
    const maxCompleted: nat
    var active: seq<Child>
    var completed: seq<Record>
    var nextSequence: nat
    var dropped: nat
    var closed: bool
    var stopRequested: bool
    var joinStarted: bool
    var slot: bool
    var signalling: nat
    var joiner: Joiner
    ghost var settled: set<nat>
    ghost var reported: nat

    ghost function View(): Group
      reads this
    {
      Group(maxTasks, maxCompleted, active, completed, nextSequence, dropped, closed, stopRequested,
            joinStarted, slot, signalling, joiner, settled, reported)
    }

    ghost predicate Valid()
      reads this
    {
      Inv(View())
    }

    constructor (maxTasks: nat, maxCompleted: nat)
      requires Create(maxTasks, maxCompleted).Ok?
      ensures Valid() && Ok(View()) == Create(maxTasks, maxCompleted)
    {
      this.maxTasks, this.maxCompleted := maxTasks, maxCompleted;
      active, completed, nextSequence, dropped := [], [], 0, 0;
      closed, stopRequested, joinStarted := false, false, false;
      slot, signalling, joiner := false, 0, NotJoining;
      settled, reported := {}, 0;
    }

    method SpawnChild(name: string, hasTask: bool) returns (r: Result<nat>)
      requires Valid()
      modifies this
      ensures Valid()
      ensures (View(), r) == Spawn(old(View()), name, hasTask)
    {
      SpawnKeepsInv(View(), name, hasTask);
      if name == "" || !hasTask {
        return Err(InvalidArgument);
      }
      if closed {
        return Err(Conflict);
      }
      if |active| >= maxTasks {
        return Err(MailboxOverflowed);
      }
      var child := Child(nextSequence, name);
      nextSequence := nextSequence + 1;
      active := active + [child];
      return Ok(child.sequence);
    }

    method FinishChild(sequence: nat, outcome: Outcome)
      requires Valid() && outcome.status != Lagging
      modifies this
      ensures Valid()
      ensures View() == Finish(old(View()), sequence, outcome)
    {
      FinishKeepsInv(View(), sequence, outcome);
      Retire(sequence, outcome);
    }

    method FindChild(sequence: nat) returns (i: nat)
      ensures i <= |active|
      ensures i < |active| ==> active[i].sequence == sequence && IsActive(active, sequence)
      ensures i == |active| ==> !IsActive(active, sequence)
    {
      i := 0;
      while i < |active| && active[i].sequence != sequence
        invariant i <= |active|
        invariant forall k :: 0 <= k < i ==> active[k].sequence != sequence
      {
        i := i + 1;
      }
    }

    /** Erases the finished child and keeps its outcome, within the buffer's bound. */
    method Retire(sequence: nat, outcome: Outcome)
      requires DistinctChildren(active) && |completed| <= maxCompleted && 0 < maxCompleted
      modifies this
      ensures View() == Finish(old(View()), sequence, outcome)
    {
      var i := FindChild(sequence);
      if i == |active| {
        return;
      }
      EraseAt(i);
      KeepOutcome(Record(sequence, outcome));
      signalling := signalling + 1;
    }

    method EraseAt(i: nat)
      requires DistinctChildren(active) && i < |active|
      modifies this`active
      ensures active == Remove(old(active), old(active)[i].sequence)
    {
      RemoveAtIndex(active, i);
      active := active[..i] + active[i + 1..];
    }

    method KeepOutcome(row: Record)
      requires |completed| <= maxCompleted && 0 < maxCompleted
      modifies this`completed, this`dropped, this`settled
      ensures old(|completed|) < maxCompleted ==>
        completed == old(completed) + [row] && dropped == old(dropped) && settled == old(settled)
      ensures old(|completed|) == maxCompleted ==>
        && completed == old(completed)[1..] + [row] && dropped == old(dropped) + 1
        && settled == old(settled) + {old(completed)[0].sequence}
    {
      if |completed| == maxCompleted {
        settled := settled + {completed[0].sequence};
        completed := completed[1..];
        dropped := dropped + 1;
      }
      completed := completed + [row];
    }

    method DrainCompleted() returns (rows: seq<Record>, outcomesDropped: nat)
      requires Valid()
      modifies this
      ensures Valid()
      ensures View() == Drain(old(View()))
      ensures rows == JoinRows(old(View())) && Ascending(rows) && outcomesDropped == old(dropped)
    {
      DrainKeepsInv(View());
      ReportsAreOrdered(View());
      rows := Sort(completed);
      outcomesDropped := TakeCompleted();
    }

    /** Merges the completed outcomes with the children still active, both by spawn sequence. */
    method TimedJoinReport() returns (rows: seq<Record>, outcomesDropped: nat)
      requires Valid()
      modifies this
      ensures Valid()
      ensures View() == Drain(old(View()))
      ensures rows == TimedRows(old(View())) && Ascending(rows) && outcomesDropped == old(dropped)
    {
      DrainKeepsInv(View());
      ReportsAreOrdered(View());
      rows := MergeRows(Sort(completed), Sort(LaggingRows(active)));
      outcomesDropped := TakeCompleted();
    }

    method TakeCompleted() returns (outcomesDropped: nat)
      modifies this
      ensures View() == Drain(old(View())) && outcomesDropped == old(dropped)
    {
      outcomesDropped := dropped;
      settled := settled + Sequences(completed);
      reported := reported + |completed| + dropped;
      completed := [];
      dropped := 0;
    }

    // -------------------------------------------------------------- joining

    /** The unlocked half of finishing a child. */
    method SignalJoiner()
      requires signalling > 0
      modifies this`signalling, this`slot
      ensures View() == Signal(old(View()))
    {
      signalling := signalling - 1;
      slot := true;
    }

    /** Children finish and signal in any order while the joiner is suspended. */
    method RunOutside(meanwhile: seq<Outside>) returns (ghost events: seq<Event>)
      requires Valid()
      modifies this
      ensures Valid() && View() == Run(old(View()), events) && joiner == old(joiner) && joinStarted == old(joinStarted)
      ensures View() == Outsides(old(View()), meanwhile)
    {
      ghost var before := View();
      events := [];
      for n := 0 to |meanwhile|
        invariant Valid() && View() == Run(before, events)
        invariant View() == Outsides(before, meanwhile[..n])
      {
        assert meanwhile[..n + 1][..n] == meanwhile[..n];
        ghost var g := View();
        match meanwhile[n]
        case Finishes(sequence, outcome) =>
          if outcome.status != Lagging {
            FinishChild(sequence, outcome);
            RunThen(before, events, FinishEvent(sequence, outcome));
            events := events + [FinishEvent(sequence, outcome)];
          }
        case Signals =>
          if signalling > 0 {
            StepKeepsInv(g, SignalEvent);
            SignalJoiner();
            RunThen(before, events, SignalEvent);
            events := events + [SignalEvent];
          }
      }
      assert meanwhile[..|meanwhile|] == meanwhile;
    }

    /** A second join is refused; the first one closes the group. */
    method StartJoin() returns (r: Result<()>)
      requires Valid()
      modifies this
      ensures Valid() && (View(), r) == BeginJoin(old(View()))
    {
      StepKeepsInv(View(), BeginJoinEvent);
      closed := true;
      if joinStarted {
        return Err(Conflict);
      }
      joinStarted, joiner := true, Checking;
      r := Ok(());
    }

    /** The end of one suspension: a token was received, or the parent is cancelled and the children are
        asked to stop. Without a token the joiner is still suspended. */
    method Resume(how: Waking) returns (ghost events: seq<Event>)
      requires Valid() && joiner.Waiting? && !how.TimedOut?
      modifies this
      ensures Valid() && View() == Run(old(View()), events) && (joiner.Checking? || joiner.Waiting?)
      ensures View() == Resumed(old(View()), how)
    {
      events := [];
      if how.Received? {
        if slot {
          StepKeepsInv(View(), ReceiveEvent);
          events := [ReceiveEvent];
          slot, joiner := false, Checking;
        }
      } else {
        StepKeepsInv(View(), CancelJoinEvent);
        events := [CancelJoinEvent];
        closed, stopRequested, joiner := true, true, Checking;
      }
    }

    /** The loop both joins share: as long as children are left it suspends on the channel; a bounded
        join also ends when its deadline passes. */
    method AwaitChildren(script: seq<Wake>, bounded: bool) returns (end: Waited, ghost events: seq<Event>)
      requires Valid() && joiner.Checking?
      modifies this
      ensures Valid() && View() == Run(old(View()), events)
      ensures end.NoChildLeft? ==> joiner.Checking? && active == []
      ensures end.DeadlinePassed? ==> bounded && (joiner.Checking? || joiner.Waiting?)
      ensures (View(), end) == Awaits(old(View()), script, bounded)
    {
      ghost var before := View();
      events := [];
      for n := 0 to |script|
        invariant Valid() && View() == Run(before, events) && joiner.Checking?
        invariant Awaits(before, script, bounded) == Awaits(View(), script[n..], bounded)
      {
        assert script[n..][1..] == script[n + 1..];
        if active == [] {
          return NoChildLeft, events;
        }
        StepKeepsInv(View(), CheckEvent);
        RunThen(before, events, CheckEvent);
        events := events + [CheckEvent];
        joiner := Waiting;
        ghost var more := RunOutside(script[n].meanwhile);
        RunConcat(before, events, more);
        events := events + more;
        if script[n].how.TimedOut? {
          if bounded {
            return DeadlinePassed, events;
          }
          return StillWaiting, events;
        }
        ghost var rest := Resume(script[n].how);
        RunConcat(before, events, rest);
        events := events + rest;
        if joiner.Waiting? {
          return StillWaiting, events;
        }
      }
      end := if active == [] then NoChildLeft else StillWaiting;
    }

    /** The report of a join that saw every child finish. */
    method ReportAll() returns (rows: seq<Record>, outcomesDropped: nat)
      requires Valid() && joiner.Checking? && active == []
      modifies this
      ensures Valid() && View() == Check(old(View()))
      ensures rows == JoinRows(old(View())) && Ascending(rows) && joiner == Done(rows, outcomesDropped) && active == []
      ensures outcomesDropped == old(dropped)
      ensures NamesLaggards(rows, active)
    {
      ghost var g := View();
      ReportsAreOrdered(g);
      StepKeepsInv(g, CheckEvent);
      rows, outcomesDropped := DrainCompleted();
      NobodyLags(rows);
      joiner := Done(rows, outcomesDropped);
      assert View() == Check(g);
    }

    /** The report at the deadline: what is left is stopped and named as lagging. */
    method ReportLate() returns (rows: seq<Record>, outcomesDropped: nat)
      requires Valid() && (joiner.Checking? || joiner.Waiting?)
      modifies this
      ensures Valid() && View() == Deadline(old(View())) && Ascending(rows) && joiner == Done(rows, outcomesDropped)
      ensures NamesLaggards(rows, active) && rows == TimedRows(old(View())) && outcomesDropped == old(dropped)
    {
      ghost var g := View();
      StepKeepsInv(g, DeadlineEvent);
      if active == [] {
        ReportsAreOrdered(g);
        rows, outcomesDropped := DrainCompleted();
        NobodyLags(rows);
      } else {
        StepKeepsInv(g, StopEvent);
        closed, stopRequested := true, true;
        assert View() == RequestStop(g);
        TimedRowsNameLaggards(View());
        rows, outcomesDropped := TimedJoinReport();
      }
      joiner := Done(rows, outcomesDropped);
      assert View() == Deadline(g);
    }

    /** `join`: it returns only when every child has finished, with all retained rows in spawn order;
        until then it stays suspended, however often it is woken or its parent cancelled. */
    method Join(script: seq<Wake>) returns (report: Option<Result<(seq<Record>, nat)>>, ghost events: seq<Event>)
      requires Valid()
      modifies this
      ensures Valid() && View() == Run(old(View()), events)
      ensures old(joinStarted) ==> report == Some(Err(Conflict))
      ensures report.Some? && report.value.Ok? ==>
        active == [] && Ascending(report.value.value.0) && joiner == Done(report.value.value.0, report.value.value.1)
      ensures report.Some? && report.value.Ok? ==> NamesLaggards(report.value.value.0, [])
      ensures !old(joinStarted) ==> Joins(Begun(old(View())), script, report)
    {
      ghost var before := View();
      var begun := StartJoin();
      events := [BeginJoinEvent];
      RunThen(before, [], BeginJoinEvent);
      assert [] + [BeginJoinEvent] == events;
      report := None;
      if begun.Err? {
        report := Some(Err(begun.kind));
      } else {
        ghost var more;
        report, more := WaitForAll(script);
        RunConcat(before, events, more);
        events := events + more;
      }
    }

    method WaitForAll(script: seq<Wake>) returns (report: Option<Result<(seq<Record>, nat)>>, ghost events: seq<Event>)
      requires Valid() && joiner.Checking?
      modifies this
      ensures Valid() && View() == Run(old(View()), events)
      ensures report.Some? ==> report.value.Ok? && active == [] && Ascending(report.value.value.0)
      ensures report.Some? ==> joiner == Done(report.value.value.0, report.value.value.1)
      ensures report.Some? ==> NamesLaggards(report.value.value.0, active)
      ensures Joins(old(View()), script, report)
    {
      ghost var before := View();
      var end;
      end, events := AwaitChildren(script, false);
      if !end.NoChildLeft? {
        return None, events;
      }
      RunThen(before, events, CheckEvent);
      events := events + [CheckEvent];
      var rows, outcomesDropped := ReportAll();
      report := Some(Ok((rows, outcomesDropped)));
    }

    /** `join_with_timeout`: as `join`, but at the deadline the children that are left are stopped and
        listed as lagging among the retained rows. */
    method JoinWithTimeout(script: seq<Wake>) returns (report: Option<Result<(seq<Record>, nat)>>, ghost events: seq<Event>)
      requires Valid()
      modifies this
      ensures Valid() && View() == Run(old(View()), events)
      ensures old(joinStarted) ==> report == Some(Err(Conflict))
      ensures report.Some? && report.value.Ok? ==>
        Ascending(report.value.value.0) && joiner == Done(report.value.value.0, report.value.value.1)
      ensures report.Some? && report.value.Ok? ==> NamesLaggards(report.value.value.0, active)
      ensures !old(joinStarted) ==> JoinsInTime(Begun(old(View())), script, report)
    {
      ghost var before := View();
      var begun := StartJoin();
      events := [BeginJoinEvent];
      RunThen(before, [], BeginJoinEvent);
      assert [] + [BeginJoinEvent] == events;
      report := None;
      if begun.Err? {
        report := Some(Err(begun.kind));
      } else {
        ghost var more;
        report, more := WaitUntilDeadline(script);
        RunConcat(before, events, more);
        events := events + more;
      }
    }

    method WaitUntilDeadline(script: seq<Wake>)
      returns (report: Option<Result<(seq<Record>, nat)>>, ghost events: seq<Event>)
      requires Valid() && joiner.Checking?
      modifies this
      ensures Valid() && View() == Run(old(View()), events)
      ensures report.Some? ==> report.value.Ok? && Ascending(report.value.value.0)
      ensures report.Some? ==> joiner == Done(report.value.value.0, report.value.value.1)
      ensures report.Some? ==> NamesLaggards(report.value.value.0, active)
      ensures JoinsInTime(old(View()), script, report)
    {
      ghost var before := View();
      var end;
      end, events := AwaitChildren(script, true);
      if end.StillWaiting? {
        return None, events;
      }
      if end.NoChildLeft? {
        RunThen(before, events, CheckEvent);
        events := events + [CheckEvent];
        var all, lost := ReportAll();
        return Some(Ok((all, lost))), events;
      }
      ghost var last;
      report, last := EndLate();
      RunConcat(before, events, last);
      events := events + last;
    }

    method EndLate() returns (report: Option<Result<(seq<Record>, nat)>>, ghost events: seq<Event>)
      requires Valid() && (joiner.Checking? || joiner.Waiting?)
      modifies this
      ensures Valid() && View() == Run(old(View()), events)
      ensures report.Some? && report.value.Ok? && Ascending(report.value.value.0)
      ensures joiner == Done(report.value.value.0, report.value.value.1) && NamesLaggards(report.value.value.0, active)
      ensures report == Some(Ok((TimedRows(old(View())), old(dropped))))
    {
      ghost var before := View();
      events := [DeadlineEvent];
      DeadlineOnly(before);
      var rows, outcomesDropped := ReportLate();
      report := Some(Ok((rows, outcomesDropped)));
    }
  }
}

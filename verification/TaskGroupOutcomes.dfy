/** What becomes of the children of a task group and of its join (src/oran-async/task_group.cpp), field
    by field. */
module TaskGroupOutcomes {
  import opened Core
  import opened TaskGroup

  // ---------------------------------------------------------------- children

  /** Everything but the children and their outcomes is as before. */
  predicate SameState(g: Group, h: Group) {
    && h.maxTasks == g.maxTasks && h.maxCompleted == g.maxCompleted && h.closed == g.closed
    && h.stopRequested == g.stopRequested && h.joinStarted == g.joinStarted && h.slot == g.slot && h.joiner == g.joiner
  }

  /** A named task of an open group with room becomes its youngest child; anything else is refused and
      changes nothing. */
  lemma SpawnAddsChild(g: Group, name: string, hasTask: bool)
    ensures var (h, r) := Spawn(g, name, hasTask);
      && (name == "" || !hasTask ==> r == Err(InvalidArgument))
      && (name != "" && hasTask && g.closed ==> r == Err(Conflict))
      && (name != "" && hasTask && !g.closed && |g.active| >= g.maxTasks ==> r == Err(MailboxOverflowed))
      && (r.Err? ==> h == g)
      && (name != "" && hasTask && !g.closed && |g.active| < g.maxTasks ==>
            && r == Ok(g.nextSequence) && h.nextSequence == g.nextSequence + 1 && SameState(g, h)
            && h.active == g.active + [Child(g.nextSequence, name)]
            && h.completed == g.completed && h.dropped == g.dropped && h.signalling == g.signalling)
  {
  }

  /** A child that finishes leaves, and its own outcome is the newest that is retained; in a full list
      the oldest one is dropped for it and counted. */
  lemma FinishKeepsOutcome(g: Group, sequence: nat, outcome: Outcome)
    requires IsActive(g.active, sequence) && outcome.status != Lagging && 0 < g.maxCompleted
    ensures var h := Step(g, FinishEvent(sequence, outcome));
      var full := |g.completed| == g.maxCompleted;
      && (forall c :: c in h.active <==> c in g.active && c.sequence != sequence)
      && h.completed == (if full then g.completed[1..] else g.completed) + [Record(sequence, outcome)]
      && h.dropped == g.dropped + (if full then 1 else 0)
      && h.signalling == g.signalling + 1 && SameState(g, h) && h.nextSequence == g.nextSequence
  {
  }

  /** Whoever has finished already, or was never spawned, changes nothing. */
  lemma FinishHappensOnce(g: Group, sequence: nat, outcome: Outcome)
    requires !IsActive(g.active, sequence)
    ensures Step(g, FinishEvent(sequence, outcome)) == g
  {
  }

  /** A signal fills the channel, also when it is full already. */
  lemma SignalFills(g: Group)
    requires g.signalling > 0
    ensures Step(g, SignalEvent) == g.(slot := true, signalling := g.signalling - 1)
  {
  }

  lemma StopIsRemembered(g: Group)
    ensures Step(g, CloseEvent) == g.(closed := true)
    ensures Step(g, StopEvent) == g.(closed := true, stopRequested := true)
    ensures g.joiner.Waiting? ==>
      Step(g, CancelJoinEvent) == g.(closed := true, stopRequested := true, joiner := Checking)
  {
  }

  /** Nothing is spawned into a group that is closed, by whatever closed it. */
  lemma ClosedStaysClosed(g: Group, e: Event)
    requires g.closed
    ensures Step(g, e).closed && Step(g, e).nextSequence == g.nextSequence
    ensures g.stopRequested ==> Step(g, e).stopRequested
  {
  }

  /** Draining returns and forgets what is retained, and starts counting drops anew. */
  lemma DrainForgets(g: Group)
    ensures var h := Step(g, DrainEvent);
      h.completed == [] && h.dropped == 0 && h.active == g.active && h.signalling == g.signalling && SameState(g, h)
  {
  }

  /** The record leaves the list only by being drained, reported or dropped as the oldest of a full
      list. */
  lemma OutcomeStays(g: Group, e: Event, r: Record)
    requires Inv(g) && r in g.completed && r !in Step(g, e).completed
    ensures e.DrainEvent? || e.CheckEvent? || e.DeadlineEvent?
         || (e.FinishEvent? && |g.completed| == g.maxCompleted && r == g.completed[0])
    ensures e.CheckEvent? || e.DeadlineEvent? ==> Step(g, e).joiner.Done? && r in Step(g, e).joiner.rows
  {
    if e.CheckEvent? || e.DeadlineEvent? {
      ReportsAreOrdered(g);
    } else if e.FinishEvent? {
      assert g.completed == [g.completed[0]] + g.completed[1..];
    }
  }

  /** Over every run: the outcome of a child that has finished is retained until it is reported, drained
      or pushed out of a full list. */
  lemma {:induction false} OutcomeIsKept(g: Group, events: seq<Event>, r: Record)
    requires Inv(g) && r in g.completed
    ensures r in Run(g, events).completed || exists n: nat :: n < |events| && Leaves(Run(g, events[..n]), events[n], r)
    decreases |events|
  {
    if events != [] {
      var h, rest := Step(g, events[0]), events[1..];
      StepKeepsInv(g, events[0]);
      if r in h.completed {
        OutcomeIsKept(h, rest, r);
        if r !in Run(h, rest).completed {
          var n: nat :| n < |rest| && Leaves(Run(h, rest[..n]), rest[n], r);
          assert events[..n + 1][1..] == rest[..n] && events[..n + 1][0] == events[0];
          assert Leaves(Run(g, events[..n + 1]), events[n + 1], r);
        }
      } else {
        OutcomeStays(g, events[0], r);
        assert events[..0] == [] && Leaves(Run(g, events[..0]), events[0], r);
      }
    }
  }

  predicate Leaves(g: Group, e: Event, r: Record) {
    && r in g.completed
    && (e.DrainEvent? || ((e.CheckEvent? || e.DeadlineEvent?) && Step(g, e).joiner.Done? && r in Step(g, e).joiner.rows)
        || (e.FinishEvent? && |g.completed| == g.maxCompleted && r == g.completed[0]))
  }

  // ---------------------------------------------------------------- joining

  /** The first join closes the group and begins; a second one is refused. */
  lemma JoinBeginsOnce(g: Group)
    ensures var (h, r) := BeginJoin(g);
      && (g.joinStarted ==> r == Err(Conflict) && h == g.(closed := true))
      && (!g.joinStarted ==> r == Ok(()) && h == g.(closed := true, joinStarted := true, joiner := Checking))
  {
  }

  /** The joiner waits if a child is left, and otherwise is done with everything retained. */
  lemma CheckDecides(g: Group)
    requires Inv(g) && g.joiner.Checking?
    ensures var h := Step(g, CheckEvent);
      && (g.active != [] ==> h == g.(joiner := Waiting))
      && (g.active == [] ==>
            && h.joiner.Done? && h.joiner.dropped == g.dropped && |h.joiner.rows| == |g.completed|
            && (forall r :: r in h.joiner.rows <==> r in g.completed) && Ascending(h.joiner.rows)
            && h.completed == [] && h.dropped == 0)
  {
    ReportsAreOrdered(g);
  }

  /** At the deadline the children that are left are stopped, and each gets a lagging row of its own
      among those retained; they stay active. */
  lemma DeadlineReports(g: Group)
    requires Inv(g) && (g.joiner.Checking? || g.joiner.Waiting?)
    ensures var h := Step(g, DeadlineEvent);
      && h.joiner.Done? && h.joiner.dropped == g.dropped && Ascending(h.joiner.rows)
      && |h.joiner.rows| == |g.completed| + |g.active|
      && (forall r :: r in h.joiner.rows <==> r in g.completed || r in LaggingRows(g.active))
      && h.active == g.active && h.completed == [] && (g.active != [] ==> h.closed && h.stopRequested)
  {
    ReportsAreOrdered(g);
  }

  /** No deadline passes during these waits. */
  predicate Timeless(script: seq<Wake>) {
    forall n :: 0 <= n < |script| ==> !script[n].how.TimedOut?
  }

  lemma {:induction false} OutsidesKeepInv(g: Group, meanwhile: seq<Outside>)
    requires Inv(g)
    ensures Inv(Outsides(g, meanwhile))
  {
    if meanwhile != [] {
      var h, last := Outsides(g, meanwhile[..|meanwhile| - 1]), meanwhile[|meanwhile| - 1];
      OutsidesKeepInv(g, meanwhile[..|meanwhile| - 1]);
      match last
      case Finishes(sequence, outcome) => StepKeepsInv(h, FinishEvent(sequence, outcome));
      case Signals => StepKeepsInv(h, SignalEvent);
    }
  }

  lemma FinishRemovesOnly(g: Group, sequence: nat, outcome: Outcome, other: nat)
    requires IsActive(Finish(g, sequence, outcome).active, other)
    ensures IsActive(g.active, other) && other != sequence
  {
    var h := Finish(g, sequence, outcome);
    var k :| 0 <= k < |h.active| && h.active[k].sequence == other;
    assert h.active[k] in h.active && h.active[k] in g.active;
    var j :| 0 <= j < |g.active| && g.active[j] == h.active[k];
    assert g.active[j].sequence == other;
  }

  /** A child that finishes while the joiner is suspended is gone afterwards. */
  lemma {:induction false} FinishedIsGone(g: Group, meanwhile: seq<Outside>, n: nat, sequence: nat, outcome: Outcome)
    requires n < |meanwhile| && meanwhile[n] == Finishes(sequence, outcome) && outcome.status != Lagging
    ensures !IsActive(Outsides(g, meanwhile).active, sequence)
  {
    var init, last := meanwhile[..|meanwhile| - 1], meanwhile[|meanwhile| - 1];
    var h := Outsides(g, init);
    if n < |init| {
      assert init[n] == meanwhile[n];
      FinishedIsGone(g, init, n, sequence, outcome);
    }
    if last.Finishes? && IsActive(Finish(h, last.sequence, last.outcome).active, sequence) {
      FinishRemovesOnly(h, last.sequence, last.outcome, sequence);
    }
  }

  /** One wait: if a token has arrived, the joiner takes it and goes on; if the parent is cancelled, it
      asks the children to stop and goes on. */
  lemma OneWait(g: Group, wake: Wake, bounded: bool)
    requires g.active != [] && !wake.how.TimedOut?
    ensures var h := Outsides(g.(joiner := Waiting), wake.meanwhile);
      var next :=
        if wake.how.Received? && h.slot then h.(slot := false, joiner := Checking)
        else if wake.how.ParentCancelled? then h.(closed := true, stopRequested := true, joiner := Checking)
        else h;
      Awaits(g, [wake], bounded) ==
        (next, if next.joiner.Checking? && next.active == [] then NoChildLeft else StillWaiting)
  {
    var h := Outsides(g.(joiner := Waiting), wake.meanwhile);
    assert h.joiner.Waiting?;
    var k := Resumed(h, wake.how);
    assert [wake][1..] == [];
    assert k.joiner.Waiting? || Awaits(k, [], bounded) == (k, if k.active == [] then NoChildLeft else StillWaiting);
  }

  /** A joiner that has gone on waits for what comes next just as well. */
  lemma {:induction false} WaitsAddUp(g: Group, a: seq<Wake>, b: seq<Wake>, bounded: bool)
    requires Awaits(g, a, bounded).1.StillWaiting? && Awaits(g, a, bounded).0.joiner.Checking? && Timeless(a)
    ensures Awaits(g, a + b, bounded) == Awaits(Awaits(g, a, bounded).0, b, bounded)
    decreases |a|
  {
    if a == [] {
      assert a + b == b;
    } else {
      var h := Outsides(g.(joiner := Waiting), a[0].meanwhile);
      var k := Resumed(h, a[0].how);
      assert (a + b)[0] == a[0] && (a + b)[1..] == a[1..] + b;
      WaitsAddUp(k, a[1..], b, bounded);
    }
  }

  /** A join that is left suspended has somebody to wait for: a child that has not finished, or one that
      has still to signal. */
  lemma {:induction false} SuspendedHasReason(g: Group, script: seq<Wake>, bounded: bool)
    requires Inv(g) && g.joiner.Checking? && Timeless(script)
    ensures var (t, end) := Awaits(g, script, bounded);
      && Inv(t) && !end.DeadlinePassed?
      && (end.NoChildLeft? ==> t.active == [])
      && (end.StillWaiting? ==> t.active != [] || t.signalling > 0)
    decreases |script|
  {
    if g.active != [] && script != [] {
      StepKeepsInv(g, CheckEvent);
      var h := Outsides(g.(joiner := Waiting), script[0].meanwhile);
      OutsidesKeepInv(g.(joiner := Waiting), script[0].meanwhile);
      StepKeepsInv(h, ReceiveEvent);
      StepKeepsInv(h, CancelJoinEvent);
      var k := Resumed(h, script[0].how);
      if !k.joiner.Waiting? {
        assert forall n :: 0 <= n < |script| - 1 ==> script[1..][n] == script[n + 1];
        SuspendedHasReason(k, script[1..], bounded);
      }
    }
  }
}

/** What a session does with the reports of background jobs (src/oran-bootstrap/background_tasks.cpp
    and agent_session.cpp), field by field: what a batch holds, and what its end leaves of each report. */
module CompletionOutcomes {
  import opened Core
  import opened TaskBoard
  import opened TaskBoardInvariant
  import opened TaskBoardRuns
  import opened Completion

  // ---------------------------------------------------------------- the beginning of a batch

  /** The session holds this batch, claimed; no other report and no other session is concerned. */
  ghost predicate Holds(m: System, n: System, session: string, owner: string, ids: seq<Id>) {
    && n.holders == m.holders[session := Hold(owner, ids)]
    && Distinct(ids) && 1 <= |ids| <= 4
    && (forall k :: k in ids ==>
          && k in m.board.jobs && m.board.jobs[k].owner == owner && Terminal(m.board.jobs[k].state)
          && !m.board.jobs[k].claimed && !m.board.jobs[k].acknowledged
          && k in n.board.jobs && n.board.jobs[k] == m.board.jobs[k].(claimed := true))
    && (forall k :: k in n.board.jobs && k !in ids ==> k in m.board.jobs && n.board.jobs[k] == m.board.jobs[k])
  }

  /** A session that is woken for a report that is ready gets it, with the others that are ready for
      the same owner, up to four in all. */
  lemma ReadyReportIsHeld(m: System, session: string, owner: string, id: Id, now: set<Id>, later: nat -> set<Id>)
    requires OrderedJobs(m.board) && Automatic(m.board) && session !in m.holders && Deliverable(m.board, owner, id)
    ensures var n := Next(m, Begin(session, owner, id, now, later));
      && session in n.holders && n.holders[session].ids != [] && n.holders[session].ids[0] == id
      && Holds(m, n, session, owner, n.holders[session].ids)
    ensures var n := Next(m, Begin(session, owner, id, now, later));
      |n.holders[session].ids| == 4 || forall k :: k in n.board.jobs ==> !Deliverable(n.board, owner, k)
  {
    ReadyIsClaimed(m.board, owner, id, now);
    BatchIs(m.board, owner, id, now, later);
    var t := ClaimCompletion(m.board, owner, id, now).0;
    var (u, ids, _) := Gather(t, owner, [id], later);
    assert Started(m, session, owner, id, now, later) == System(u, m.holders[session := Hold(owner, ids)]);
    assert forall k :: k in Listed(ids) <==> k in ids;
  }

  /** A session that already works on a batch, or is woken for a report that is not ready, holds nothing
      more, and no report changes. */
  lemma UnreadyReportIsLeft(m: System, session: string, owner: string, id: Id, now: set<Id>, later: nat -> set<Id>)
    requires session in m.holders || ClaimCompletion(m.board, owner, id, now).1 != Ok(true)
    ensures var n := Next(m, Begin(session, owner, id, now, later));
      n.holders == m.holders && forall k :: k in n.board.jobs ==> k in m.board.jobs && n.board.jobs[k] == m.board.jobs[k]
  {
    if session !in m.holders {
      ClaimIs(m.board, owner, id, now);
    }
  }

  // ---------------------------------------------------------------- the end of a batch

  lemma {:induction false} UnexpiredIsKept(s: State, owner: string, ids: seq<Id>, committed: bool,
                                           expired: Id -> set<Id>, k: Id)
    requires k in s.jobs && forall x :: x in ids ==> k !in expired(x)
    ensures k in FinishEach(s, owner, ids, committed, expired).jobs
    decreases |ids|
  {
    if ids != [] {
      assert ids[0] in ids && forall x :: x in ids[1..] ==> x in ids;
      var t := FinishCompletion(s, owner, ids[0], committed, expired(ids[0]));
      UnexpiredIsKept(t, owner, ids[1..], committed, expired, k);
    }
  }

  /** A report of the batch after it was committed, or released without. */
  predicate Left(a: Job, b: Job, committed: bool) {
    && !b.claimed && b.acknowledged == (a.acknowledged || committed) && b.commits == a.commits + (if committed then 1 else 0)
    && b.state == a.state && b.result == a.result && b.error == a.error && b.owner == a.owner
  }

  /** No report of the batch is claimed any more; if it is committed each is acknowledged and committed
      once more, and otherwise each is as deliverable as before; reports of others are as they were. */
  ghost predicate SettlesOnly(s: State, u: State, ids: seq<Id>, committed: bool) {
    forall k :: k in u.jobs ==>
      k in s.jobs && if k in ids then Left(s.jobs[k], u.jobs[k], committed) else u.jobs[k] == s.jobs[k]
  }

  lemma SettledTwice(s: State, t: State, u: State, ids: seq<Id>, committed: bool)
    requires if committed then NewlySettled(s, t, Listed(ids), true) else t == s
    requires NewlySettled(t, u, Listed(ids), false)
    ensures SettlesOnly(s, u, ids, committed)
  {
    assert forall k :: k in Listed(ids) <==> k in ids;
  }

  /** What has not expired by then is still there. */
  ghost predicate KeepsUnexpired(s: State, u: State, ids: seq<Id>, first: Id -> set<Id>, second: Id -> set<Id>) {
    forall k :: k in s.jobs && (forall x :: x in ids ==> k !in first(x) && k !in second(x)) ==> k in u.jobs
  }

  lemma TwiceKeepsUnexpired(s: State, owner: string, ids: seq<Id>, committed: bool, first: Id -> set<Id>,
                            second: Id -> set<Id>)
    ensures var t := if committed then FinishEach(s, owner, ids, true, first) else s;
      KeepsUnexpired(s, FinishEach(t, owner, ids, false, second), ids, first, second)
  {
    var t := if committed then FinishEach(s, owner, ids, true, first) else s;
    forall k | k in s.jobs && (forall x :: x in ids ==> k !in first(x) && k !in second(x))
      ensures k in FinishEach(t, owner, ids, false, second).jobs
    {
      UnexpiredIsKept(s, owner, ids, true, first, k);
      UnexpiredIsKept(t, owner, ids, false, second, k);
    }
  }

  lemma HoldIsSettled(s: State, hold: Hold, committed: bool, first: Id -> set<Id>, second: Id -> set<Id>)
    requires Distinct(hold.ids) && OwnedBy(s, hold.owner, hold.ids)
    ensures var t := if committed then FinishEach(s, hold.owner, hold.ids, true, first) else s;
      SettlesOnly(s, FinishEach(t, hold.owner, hold.ids, false, second), hold.ids, committed)
  {
    var t := if committed then FinishEach(s, hold.owner, hold.ids, true, first) else s;
    FinishEachIs(s, hold.owner, hold.ids, true, first);
    FinishEachIs(t, hold.owner, hold.ids, false, second);
    SettledTwice(s, t, FinishEach(t, hold.owner, hold.ids, false, second), hold.ids, committed);
  }

  /** The end of a session's batch settles exactly its reports, and the session holds nothing. */
  lemma BatchIsSettled(m: System, session: string, committed: bool, first: Id -> set<Id>, second: Id -> set<Id>)
    requires session in m.holders && GoodHold(m.board, m.holders[session])
    ensures var n, ids := Next(m, End(session, committed, first, second)), m.holders[session].ids;
      && n.holders == m.holders - {session}
      && SettlesOnly(m.board, n.board, ids, committed) && KeepsUnexpired(m.board, n.board, ids, first, second)
  {
    var hold := m.holders[session];
    HoldIsSettled(m.board, hold, committed, first, second);
    TwiceKeepsUnexpired(m.board, hold.owner, hold.ids, committed, first, second);
  }

  lemma NothingHeldNothingSettled(m: System, session: string, committed: bool, first: Id -> set<Id>, second: Id -> set<Id>)
    requires session !in m.holders
    ensures Next(m, End(session, committed, first, second)) == m
  {
  }

  /** A committed report is never delivered again: no session holds it, and none can claim it. */
  lemma CommittedIsDelivered(m: System, id: Id, owner: string, now: set<Id>)
    requires GoodRecords(m.board) && GoodHolds(m) && id in m.board.jobs && m.board.jobs[id].commits == 1
    ensures forall c :: c in m.holders ==> id !in m.holders[c].ids
    ensures ClaimCompletion(m.board, owner, id, now).1 != Ok(true)
  {
    assert GoodRecord(m.board.jobs[id]);
    forall c | c in m.holders ensures id !in m.holders[c].ids {
      assert GoodHold(m.board, m.holders[c]);
    }
  }
}

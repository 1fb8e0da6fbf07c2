/** Delivery of finished background jobs to the session that started them: claim, batch, commit or
    release (src/oran-bootstrap/background_tasks.cpp and agent_session.cpp). */
module Completion {
  import opened Core
  import opened TaskBoard
  import opened TaskBoardInvariant
  import opened TaskBoardSteps
  import opened TaskBoardRuns
  import opened TaskBoardLaws

  const MAX_BATCH: nat := 4

  // ---------------------------------------------------------------- the service's side

  predicate Deliverable(s: State, owner: string, id: Id) {
    && Findable(s, owner, id) && Terminal(s.jobs[id].state) && s.jobs[id].automatic
    && !s.jobs[id].acknowledged && !s.jobs[id].claimed
  }

  /** The first report ready for this owner. */
  function NextCompletion(s: State, order: seq<Id>, owner: string): Option<Id> {
    if order == [] then None
    else if Deliverable(s, owner, order[0]) then Some(order[0])
    else NextCompletion(s, order[1..], owner)
  }

  // ---------------------------------------------------------------- the session's side

  /** Claims further reports that are ready, up to four in all; `expired` is what has expired when
      the report at that position is claimed. */
  function Gather(s: State, owner: string, ids: seq<Id>, expired: nat -> set<Id>): (State, seq<Id>, Result<()>)
    decreases MAX_BATCH - |ids|
  {
    var next := NextCompletion(s, s.order, owner);
    if |ids| >= MAX_BATCH || next.None? then (s, ids, Ok(()))
    else
      var (t, claimed) := ClaimCompletion(s, owner, next.value, expired(|ids|));
      if claimed.Err? then (t, ids + [next.value], Err(claimed.kind))
      else Gather(t, owner, ids + [next.value], expired)
  }

  function FinishEach(s: State, owner: string, ids: seq<Id>, committed: bool, expired: Id -> set<Id>): State
    decreases |ids|
  {
    if ids == [] then s
    else FinishEach(FinishCompletion(s, owner, ids[0], committed, expired(ids[0])), owner, ids[1..], committed, expired)
  }

  // ---------------------------------------------------------------- claiming

  /** The jobs of `t` are those of `s` that are retained, with exactly `ids` newly claimed. */
  ghost predicate NewlyClaimed(s: State, t: State, owner: string, ids: set<Id>) {
    && t.options == s.options
    && (forall k :: k in t.jobs ==> k in s.jobs && t.jobs[k] == if k in ids then s.jobs[k].(claimed := true) else s.jobs[k])
    && (forall k :: k in s.jobs && !Prunable(s.options, s.jobs[k]) ==> k in t.jobs)
    && (forall k :: k in ids ==> k in s.jobs && s.jobs[k].owner == owner && Terminal(s.jobs[k].state))
    && (forall k :: k in ids ==> k in t.jobs && !s.jobs[k].claimed && !s.jobs[k].acknowledged)
  }

  lemma ClaimIs(s: State, owner: string, id: Id, expired: set<Id>)
    ensures var (t, r) := ClaimCompletion(s, owner, id, expired);
      NewlyClaimed(s, t, owner, if r == Ok(true) then {id} else {})
  {
  }

  lemma ClaimsAddUp(s: State, t: State, u: State, owner: string, a: set<Id>, b: set<Id>)
    requires NewlyClaimed(s, t, owner, a) && NewlyClaimed(t, u, owner, b)
    ensures NewlyClaimed(s, u, owner, a + b) && a !! b
  {
    assert forall k :: k in a ==> t.jobs[k].claimed;
  }

  lemma {:induction false} NextIs(s: State, order: seq<Id>, owner: string)
    ensures var r := NextCompletion(s, order, owner); r.Some? ==> r.value in order && Deliverable(s, owner, r.value)
    ensures NextCompletion(s, order, owner).None? ==> forall id :: id in order ==> !Deliverable(s, owner, id)
  {
    if order != [] {
      NextIs(s, order[1..], owner);
      assert order == [order[0]] + order[1..];
    }
  }

  /** A report that is ready can be claimed at once. */
  lemma ReadyIsClaimed(s: State, owner: string, id: Id, expired: set<Id>)
    requires Automatic(s) && Deliverable(s, owner, id)
    ensures ClaimCompletion(s, owner, id, expired).1 == Ok(true)
  {
    assert !Prunable(s.options, s.jobs[id]);
  }

  ghost function Listed(ids: seq<Id>): set<Id> {
    set id | id in ids
  }

  lemma {:induction false} GatherKeepsInv(s: State, owner: string, ids: seq<Id>, expired: nat -> set<Id>)
    requires Inv(s)
    ensures Inv(Gather(s, owner, ids, expired).0)
    decreases MAX_BATCH - |ids|
  {
    var next := NextCompletion(s, s.order, owner);
    if |ids| >= MAX_BATCH || next.None? {
      assert Gather(s, owner, ids, expired).0 == s;
    } else {
      ClaimKeepsInv(s, owner, next.value, expired(|ids|));
      var (t, claimed) := ClaimCompletion(s, owner, next.value, expired(|ids|));
      if claimed.Ok? {
        GatherKeepsInv(t, owner, ids + [next.value], expired);
        assert Gather(s, owner, ids, expired).0 == Gather(t, owner, ids + [next.value], expired).0;
      } else {
        assert Gather(s, owner, ids, expired).0 == t;
      }
    }
  }

  /** Every claimed job that is on the list. */
  ghost predicate AllClaimed(s: State, ids: seq<Id>) {
    forall id :: id in ids ==> id in s.jobs && s.jobs[id].claimed
  }

  /** One more claim: still different jobs, all claimed. */
  lemma BatchGrows(s: State, t: State, owner: string, ids: seq<Id>, id: Id)
    requires Distinct(ids) && AllClaimed(s, ids) && NewlyClaimed(s, t, owner, {id})
    ensures Distinct(ids + [id]) && AllClaimed(t, ids + [id])
  {
    assert id in {id} && id !in ids;
    forall k | k in ids ensures k in t.jobs && t.jobs[k].claimed {
      assert !Prunable(s.options, s.jobs[k]);
    }
  }

  lemma ClaimKeepsAutomatic(s: State, owner: string, id: Id, expired: set<Id>)
    requires OrderedJobs(s) && Automatic(s)
    ensures var t := ClaimCompletion(s, owner, id, expired).0; OrderedJobs(t) && Automatic(t)
  {
    var u := Prune(s, expired);
    PruneForgets(s, expired);
    assert Automatic(u);
    if id in u.jobs {
      FlagKeepsOrder(u, id, u.jobs[id].(claimed := true));
    }
  }

  lemma FlagKeepsOrder(u: State, id: Id, job: Job)
    requires OrderedJobs(u) && Automatic(u) && id in u.jobs && SameCore(u.jobs[id], job)
    ensures OrderedJobs(u.(jobs := u.jobs[id := job])) && Automatic(u.(jobs := u.jobs[id := job]))
  {
  }

  /** The batch: never refused, at most four different reports, all claimed for this owner and no
      other changed, and complete unless it is full. */
  lemma {:induction false} GatherIs(s: State, owner: string, ids: seq<Id>, expired: nat -> set<Id>)
    requires OrderedJobs(s) && Automatic(s) && |ids| <= MAX_BATCH && Distinct(ids) && AllClaimed(s, ids)
    ensures var (t, all, r) := Gather(s, owner, ids, expired);
      r.Ok? && ids <= all && |all| <= MAX_BATCH && Distinct(all) && AllClaimed(t, all)
    ensures var (t, all, r) := Gather(s, owner, ids, expired); NewlyClaimed(s, t, owner, Listed(all) - Listed(ids))
    ensures var (t, all, r) := Gather(s, owner, ids, expired);
      |all| == MAX_BATCH || forall id :: id in t.jobs ==> !Deliverable(t, owner, id)
    decreases MAX_BATCH - |ids|
  {
    var next := NextCompletion(s, s.order, owner);
    NextIs(s, s.order, owner);
    if |ids| < MAX_BATCH && next.Some? {
      var id, now := next.value, expired(|ids|);
      ReadyIsClaimed(s, owner, id, now);
      ClaimIs(s, owner, id, now);
      ClaimKeepsAutomatic(s, owner, id, now);
      var t := ClaimCompletion(s, owner, id, now).0;
      BatchGrows(s, t, owner, ids, id);
      GatherIs(t, owner, ids + [id], expired);
      var (u, all, _) := Gather(t, owner, ids + [id], expired);
      ClaimsAddUp(s, t, u, owner, {id}, Listed(all) - Listed(ids + [id]));
      ListGrows(ids, id, all);
    } else {
      assert Listed(ids) - Listed(ids) == {};
    }
  }

  lemma ListGrows(ids: seq<Id>, id: Id, all: seq<Id>)
    requires ids + [id] <= all && id !in ids
    ensures ids <= all && {id} + (Listed(all) - Listed(ids + [id])) == Listed(all) - Listed(ids)
  {
    assert all[|ids|] == (ids + [id])[|ids|] == id;
    assert ids == (ids + [id])[..|ids|] == all[..|ids|];
  }

  // ---------------------------------------------------------------- committing and releasing

  /** The jobs of `t` are those of `s` that are retained, with exactly `ids` settled. */
  ghost predicate NewlySettled(s: State, t: State, ids: set<Id>, committed: bool) {
    && t.options == s.options
    && (forall k :: k in t.jobs ==> k in s.jobs && t.jobs[k] == if k in ids then Settled(s.jobs[k], committed) else s.jobs[k])
    && (forall k :: k in s.jobs && !Prunable(s.options, s.jobs[k]) && k !in ids ==> k in t.jobs)
  }

  ghost predicate OwnedBy(s: State, owner: string, ids: seq<Id>) {
    forall id :: id in ids && id in s.jobs ==> s.jobs[id].owner == owner
  }

  lemma FinishIs(s: State, owner: string, id: Id, committed: bool, expired: set<Id>)
    requires id in s.jobs ==> s.jobs[id].owner == owner
    ensures NewlySettled(s, FinishCompletion(s, owner, id, committed, expired), {id}, committed)
  {
  }

  lemma {:induction false} FinishEachKeepsInv(s: State, owner: string, ids: seq<Id>, committed: bool, expired: Id -> set<Id>)
    requires Inv(s)
    ensures Inv(FinishEach(s, owner, ids, committed, expired))
    decreases |ids|
  {
    if ids != [] {
      FinishCompletionKeepsInv(s, owner, ids[0], committed, expired(ids[0]));
      FinishEachKeepsInv(
        FinishCompletion(s, owner, ids[0], committed, expired(ids[0])), owner, ids[1..], committed, expired);
    }
  }

  lemma SettlingAddsUp(s: State, t: State, u: State, a: set<Id>, b: set<Id>, committed: bool)
    requires NewlySettled(s, t, a, committed) && NewlySettled(t, u, b, committed) && a !! b
    ensures NewlySettled(s, u, a + b, committed)
  {
  }

  lemma {:induction false} FinishEachIs(s: State, owner: string, ids: seq<Id>, committed: bool, expired: Id -> set<Id>)
    requires Distinct(ids) && OwnedBy(s, owner, ids)
    ensures NewlySettled(s, FinishEach(s, owner, ids, committed, expired), Listed(ids), committed)
    decreases |ids|
  {
    if ids == [] {
      assert NewlySettled(s, s, {}, committed);
    } else {
      var rest := ids[1..];
      assert ids == [ids[0]] + rest;
      assert forall i :: 0 <= i < |rest| ==> rest[i] == ids[i + 1];
      var t := FinishCompletion(s, owner, ids[0], committed, expired(ids[0]));
      FinishIs(s, owner, ids[0], committed, expired(ids[0]));
      FinishEachIs(t, owner, rest, committed, expired);
      assert ids[0] !in rest && Listed(ids) == {ids[0]} + Listed(rest);
      SettlingAddsUp(s, t, FinishEach(s, owner, ids, committed, expired), {ids[0]}, Listed(rest), committed);
    }
  }

  // ---------------------------------------------------------------- sessions at work

  datatype Hold = Hold(owner: string, ids: seq<Id>)

  /** The service with the sessions that are answering reports, each with the batch it claimed. Reports are
      claimed and settled by sessions only. */
  datatype System = System(board: State, holders: map<string, Hold>)

  datatype Happening =
    | Serve(event: Event)
    | Begin(session: string, owner: string, id: Id, now: set<Id>, later: nat -> set<Id>)
    | End(session: string, committed: bool, first: Id -> set<Id>, second: Id -> set<Id>)

  /** `run_completion` up to the prompt: claim the report and those that are ready with it. */
  function Started(m: System, session: string, owner: string, id: Id, now: set<Id>, later: nat -> set<Id>): System {
    if session in m.holders then m
    else
      var (t, claimed) := ClaimCompletion(m.board, owner, id, now);
      if claimed != Ok(true) then m.(board := t)
      else
        var (u, ids, gathered) := Gather(t, owner, [id], later);
        if gathered.Ok? then System(u, m.holders[session := Hold(owner, ids)])
        else m.(board := FinishEach(u, owner, ids, false, _ => now))
  }

  /** After the prompt: commit the batch if it succeeded; the claim is released in either case. */
  function Ended(m: System, session: string, committed: bool, first: Id -> set<Id>, second: Id -> set<Id>): System {
    if session !in m.holders then m
    else
      var hold := m.holders[session];
      var t := if committed then FinishEach(m.board, hold.owner, hold.ids, true, first) else m.board;
      System(FinishEach(t, hold.owner, hold.ids, false, second), m.holders - {session})
  }

  ghost function Next(m: System, e: Happening): System {
    match e
    case Serve(event) => if OfReports(event) then m else m.(board := Step(m.board, event))
    case Begin(session, owner, id, now, later) => Started(m, session, owner, id, now, later)
    case End(session, committed, first, second) => Ended(m, session, committed, first, second)
  }

  /** A job is committed at most once; a claimed one is finished and not yet committed. */
  predicate GoodRecord(job: Job) {
    && job.commits <= 1 && (job.commits == 1 ==> job.acknowledged && !job.claimed)
    && (job.claimed ==> Terminal(job.state))
  }

  ghost predicate GoodRecords(s: State) {
    forall id :: id in s.jobs ==> GoodRecord(s.jobs[id])
  }

  ghost predicate GoodHold(s: State, hold: Hold) {
    && Distinct(hold.ids) && |hold.ids| <= MAX_BATCH
    && (forall id :: id in hold.ids ==> id in s.jobs && s.jobs[id].claimed && s.jobs[id].owner == hold.owner)
  }

  ghost predicate GoodHolds(m: System) {
    forall c :: c in m.holders ==> GoodHold(m.board, m.holders[c])
  }

  /** No report is in two batches. */
  ghost predicate Exclusive(m: System) {
    forall c, d, id :: c in m.holders && d in m.holders && id in m.holders[c].ids && id in m.holders[d].ids ==> c == d
  }

  /** Every claimed report is in the batch of some session: no claim is left behind. */
  ghost predicate Accounted(m: System) {
    forall id :: id in m.board.jobs && m.board.jobs[id].claimed ==> exists c :: c in m.holders && id in m.holders[c].ids
  }

  ghost predicate Sound(m: System) {
    Inv(m.board) && GoodRecords(m.board) && GoodHolds(m) && Exclusive(m) && Accounted(m)
  }

  lemma ServeKeepsSound(m: System, event: Event)
    requires Sound(m) && !OfReports(event)
    ensures Sound(m.(board := Step(m.board, event)))
  {
    StepKeepsInv(m.board, event);
    StepSucceeds(m.board, event);
    SucceedingKeeps(m, Step(m.board, event));
  }

  lemma SucceedingKeeps(m: System, t: State)
    requires GoodRecords(m.board) && GoodHolds(m) && Exclusive(m) && Accounted(m) && Succeeds(m.board, t)
    ensures var n := m.(board := t); GoodRecords(t) && GoodHolds(n) && Exclusive(n) && Accounted(n)
  {
    forall id | id in t.jobs ensures GoodRecord(t.jobs[id]) {
      assert id in m.board.jobs ==> GoodRecord(m.board.jobs[id]);
    }
    forall c | c in m.holders ensures GoodHold(t, m.holders[c]) {
      assert GoodHold(m.board, m.holders[c]);
    }
  }

  /** The whole batch of a session: the report it was woken for and those ready with it. */
  lemma BatchIs(s: State, owner: string, id: Id, now: set<Id>, later: nat -> set<Id>)
    requires OrderedJobs(s) && Automatic(s) && ClaimCompletion(s, owner, id, now).1 == Ok(true)
    ensures var (u, ids, r) := Gather(ClaimCompletion(s, owner, id, now).0, owner, [id], later);
      r.Ok? && Distinct(ids) && 1 <= |ids| <= MAX_BATCH && ids[0] == id && NewlyClaimed(s, u, owner, Listed(ids))
    ensures var (u, ids, r) := Gather(ClaimCompletion(s, owner, id, now).0, owner, [id], later);
      |ids| == MAX_BATCH || forall k :: k in u.jobs ==> !Deliverable(u, owner, k)
  {
    var t := ClaimCompletion(s, owner, id, now).0;
    ClaimIs(s, owner, id, now);
    ClaimKeepsAutomatic(s, owner, id, now);
    assert [] + [id] == [id];
    BatchGrows(s, t, owner, [], id);
    GatherIs(t, owner, [id], later);
    var (u, ids, _) := Gather(t, owner, [id], later);
    BatchAddsUp(s, t, u, owner, id, ids);
  }

  lemma BatchAddsUp(s: State, t: State, u: State, owner: string, id: Id, ids: seq<Id>)
    requires NewlyClaimed(s, t, owner, {id}) && NewlyClaimed(t, u, owner, Listed(ids) - Listed([id])) && [id] <= ids
    ensures ids[0] == id && NewlyClaimed(s, u, owner, Listed(ids))
  {
    ClaimsAddUp(s, t, u, owner, {id}, Listed(ids) - Listed([id]));
    assert ids[0] == [id][0];
    assert {id} + (Listed(ids) - Listed([id])) == Listed(ids);
  }

  lemma BatchKeepsInv(s: State, owner: string, id: Id, now: set<Id>, later: nat -> set<Id>)
    requires Inv(s)
    ensures var t := ClaimCompletion(s, owner, id, now).0; Inv(t) && Inv(Gather(t, owner, [id], later).0)
  {
    ClaimKeepsInv(s, owner, id, now);
    GatherKeepsInv(ClaimCompletion(s, owner, id, now).0, owner, [id], later);
  }

  lemma BeginKeepsSound(m: System, session: string, owner: string, id: Id, now: set<Id>, later: nat -> set<Id>)
    requires Sound(m)
    ensures Sound(Started(m, session, owner, id, now, later))
  {
    if session !in m.holders {
      var (t, claimed) := ClaimCompletion(m.board, owner, id, now);
      BatchKeepsInv(m.board, owner, id, now, later);
      if claimed == Ok(true) {
        var (u, ids, _) := Gather(t, owner, [id], later);
        BatchIs(m.board, owner, id, now, later);
        HoldIsNew(m, u, session, Hold(owner, ids));
        assert Started(m, session, owner, id, now, later) == System(u, m.holders[session := Hold(owner, ids)]);
      } else {
        ClaimIs(m.board, owner, id, now);
        ClaimingKeeps(m, t);
        assert Started(m, session, owner, id, now, later) == m.(board := t);
      }
    }
  }

  lemma ClaimingKeeps(m: System, t: State)
    requires GoodRecords(m.board) && GoodHolds(m) && Exclusive(m) && Accounted(m) && NewlyClaimed(m.board, t, "", {})
    ensures var n := m.(board := t); GoodRecords(t) && GoodHolds(n) && Exclusive(n) && Accounted(n)
  {
    forall c | c in m.holders ensures GoodHold(t, m.holders[c]) {
      assert GoodHold(m.board, m.holders[c]);
    }
  }

  lemma HoldIsNew(m: System, u: State, session: string, hold: Hold)
    requires GoodRecords(m.board) && GoodHolds(m) && Exclusive(m) && Accounted(m) && session !in m.holders
    requires NewlyClaimed(m.board, u, hold.owner, Listed(hold.ids)) && Distinct(hold.ids) && |hold.ids| <= MAX_BATCH
    ensures var n := System(u, m.holders[session := hold]); GoodRecords(u) && GoodHolds(n) && Exclusive(n) && Accounted(n)
  {
    var n := System(u, m.holders[session := hold]);
    forall c | c in m.holders ensures GoodHold(u, m.holders[c]) {
      assert GoodHold(m.board, m.holders[c]);
    }
    assert forall id :: id in hold.ids ==> id in Listed(hold.ids);
    assert forall id, c :: id in hold.ids && c in m.holders ==> id !in m.holders[c].ids;
    forall id | id in u.jobs && u.jobs[id].claimed ensures exists c :: c in n.holders && id in n.holders[c].ids {
      if id in hold.ids {
        assert session in n.holders && id in n.holders[session].ids;
      } else {
        var c :| c in m.holders && id in m.holders[c].ids;
        assert c in n.holders && id in n.holders[c].ids;
      }
    }
  }

  lemma EndKeepsSound(m: System, session: string, committed: bool, first: Id -> set<Id>, second: Id -> set<Id>)
    requires Sound(m)
    ensures Sound(Ended(m, session, committed, first, second))
  {
    if session in m.holders {
      var hold := m.holders[session];
      assert GoodHold(m.board, hold);
      var t := if committed then FinishEach(m.board, hold.owner, hold.ids, true, first) else m.board;
      FinishEachKeepsInv(m.board, hold.owner, hold.ids, true, first);
      FinishEachIs(m.board, hold.owner, hold.ids, true, first);
      var u := FinishEach(t, hold.owner, hold.ids, false, second);
      FinishEachKeepsInv(t, hold.owner, hold.ids, false, second);
      FinishEachIs(t, hold.owner, hold.ids, false, second);
      SettlesBatch(m, t, u, session, committed);
      HoldEnds(m, u, session);
    }
  }

  /** What a batch leaves behind when its session ends. */
  ghost predicate BatchEnds(m: System, u: State, session: string)
    requires session in m.holders
  {
    && u.options == m.board.options
    && (forall k :: k in u.jobs ==> k in m.board.jobs)
    && (forall k :: k in u.jobs && k !in m.holders[session].ids ==> u.jobs[k] == m.board.jobs[k])
    && (forall k :: k in u.jobs && k in m.holders[session].ids ==> GoodRecord(u.jobs[k]) && !u.jobs[k].claimed)
    && (forall k :: k in m.board.jobs && m.board.jobs[k].claimed && k !in m.holders[session].ids ==> k in u.jobs)
  }

  lemma SettlesBatch(m: System, t: State, u: State, session: string, committed: bool)
    requires GoodRecords(m.board) && session in m.holders && GoodHold(m.board, m.holders[session])
    requires if committed then NewlySettled(m.board, t, Listed(m.holders[session].ids), true) else t == m.board
    requires NewlySettled(t, u, Listed(m.holders[session].ids), false)
    ensures BatchEnds(m, u, session)
  {
    var ids := m.holders[session].ids;
    assert forall id :: id in Listed(ids) <==> id in ids;
    forall id | id in u.jobs && id in ids ensures GoodRecord(u.jobs[id]) && !u.jobs[id].claimed {
      assert GoodRecord(m.board.jobs[id]);
    }
  }

  lemma HoldEnds(m: System, u: State, session: string)
    requires GoodRecords(m.board) && GoodHolds(m) && Exclusive(m) && Accounted(m) && session in m.holders
    requires BatchEnds(m, u, session)
    ensures var n := System(u, m.holders - {session}); GoodRecords(u) && GoodHolds(n) && Exclusive(n) && Accounted(n)
  {
    var n, ids := System(u, m.holders - {session}), m.holders[session].ids;
    forall c | c in n.holders ensures GoodHold(u, n.holders[c]) {
      assert GoodHold(m.board, m.holders[c]);
      assert forall id :: id in m.holders[c].ids ==> id !in ids;
    }
    forall id | id in u.jobs && u.jobs[id].claimed ensures exists c :: c in n.holders && id in n.holders[c].ids {
      var c :| c in m.holders && id in m.holders[c].ids;
      assert c in n.holders && id in n.holders[c].ids;
    }
  }

  /** Every event of the service and of its sessions keeps the books in order. */
  lemma NextKeepsSound(m: System, e: Happening)
    requires Sound(m)
    ensures Sound(Next(m, e))
  {
    match e
    case Serve(event) =>
      if !OfReports(event) {
        ServeKeepsSound(m, event);
      }
    case Begin(session, owner, id, now, later) => BeginKeepsSound(m, session, owner, id, now, later);
    case End(session, committed, first, second) => EndKeepsSound(m, session, committed, first, second);
  }

  // ---------------------------------------------------------------- runs

  ghost predicate Runs(run: seq<System>, events: seq<Happening>) {
    && |run| == |events| + 1
    && (forall i :: 0 <= i < |events| ==> run[i + 1] == Next(run[i], events[i]))
  }

  lemma RunKeepsSound(run: seq<System>, events: seq<Happening>, n: nat)
    requires Runs(run, events) && Sound(run[0]) && n < |run|
    ensures Sound(run[n])
  {
    forall k | 0 <= k < n ensures TaskBoardRuns.Keeps(run, Sound, k) {
      if Sound(run[k]) {
        NextKeepsSound(run[k], events[k]);
      }
    }
    Throughout(run, Sound, 0, n);
  }

  /** From the start of the service, over all interleavings of its events and its sessions: each job
      is committed to its parent at most once, two sessions never hold the same report, and every
      claim belongs to a session that still works on it. */
  lemma ReportsAreCommittedOnce(run: seq<System>, events: seq<Happening>, options: Options, n: nat)
    requires Runs(run, events) && run[0] == System(Init(options), map[]) && n < |run|
    ensures forall id :: id in run[n].board.jobs ==> run[n].board.jobs[id].commits <= 1
    ensures Exclusive(run[n]) && Accounted(run[n])
  {
    InitInv(options);
    assert Sound(run[0]);
    RunKeepsSound(run, events, n);
    forall id | id in run[n].board.jobs ensures run[n].board.jobs[id].commits <= 1 {
      assert GoodRecord(run[n].board.jobs[id]);
    }
  }

  /** A report that was finished and not acknowledged survives every event; only the commit of its
      own batch can make it expendable. */
  lemma UndeliveredSurvives(m: System, e: Happening, id: Id)
    requires Sound(m) && Undelivered(m.board, id)
    requires e.End? && e.session in m.holders && id in m.holders[e.session].ids ==> !e.committed
    ensures id in Next(m, e).board.jobs && Next(m, e).board.jobs[id].result == m.board.jobs[id].result
  {
    match e
    case Serve(event) => UndeliveredIsKept(m.board, event, id);
    case Begin(session, owner, first, now, later) => UndeliveredBegin(m, session, owner, first, now, later, id);
    case End(session, committed, first, second) => UndeliveredEnd(m, session, committed, first, second, id);
  }

  lemma ClaimKeepsUndelivered(s: State, u: State, owner: string, ids: set<Id>, id: Id)
    requires Undelivered(s, id) && NewlyClaimed(s, u, owner, ids)
    ensures id in u.jobs && u.jobs[id].result == s.jobs[id].result
  {
  }

  lemma UndeliveredBegin(m: System, session: string, owner: string, first: Id, now: set<Id>, later: nat -> set<Id>, id: Id)
    requires OrderedJobs(m.board) && Automatic(m.board) && Undelivered(m.board, id)
    ensures var t := Started(m, session, owner, first, now, later).board;
      id in t.jobs && t.jobs[id].result == m.board.jobs[id].result
  {
    if session !in m.holders {
      var (t, claimed) := ClaimCompletion(m.board, owner, first, now);
      ClaimIs(m.board, owner, first, now);
      if claimed == Ok(true) {
        BatchIs(m.board, owner, first, now, later);
        var (u, ids, _) := Gather(t, owner, [first], later);
        ClaimKeepsUndelivered(m.board, u, owner, Listed(ids), id);
        assert Started(m, session, owner, first, now, later).board == u;
      } else {
        ClaimKeepsUndelivered(m.board, t, owner, {}, id);
        assert Started(m, session, owner, first, now, later).board == t;
      }
    }
  }

  lemma UndeliveredEnd(m: System, session: string, committed: bool, first: Id -> set<Id>, second: Id -> set<Id>, id: Id)
    requires Sound(m) && Undelivered(m.board, id)
    requires session in m.holders && id in m.holders[session].ids ==> !committed
    ensures var t := Ended(m, session, committed, first, second).board;
      id in t.jobs && t.jobs[id].result == m.board.jobs[id].result
  {
    if session in m.holders {
      var hold := m.holders[session];
      assert GoodHold(m.board, hold);
      var t := if committed then FinishEach(m.board, hold.owner, hold.ids, true, first) else m.board;
      FinishEachIs(m.board, hold.owner, hold.ids, true, first);
      assert Undelivered(t, id) && t.jobs[id] == m.board.jobs[id];
      ReleaseKeeps(t, hold.owner, hold.ids, second, id);
    }
  }

  /** Releasing a batch without committing it keeps its undelivered reports. */
  lemma {:induction false} ReleaseKeeps(s: State, owner: string, ids: seq<Id>, expired: Id -> set<Id>, id: Id)
    requires Undelivered(s, id)
    ensures var t := FinishEach(s, owner, ids, false, expired); Undelivered(t, id) && t.jobs[id].result == s.jobs[id].result
    decreases |ids|
  {
    if ids != [] {
      var t := FinishCompletion(s, owner, ids[0], false, expired(ids[0]));
      assert Undelivered(t, id) && t.jobs[id].result == s.jobs[id].result;
      ReleaseKeeps(t, owner, ids[1..], expired, id);
    }
  }

  // ---------------------------------------------------------------- sessions are events of the service

  /** The service after a sequence of its events. */
  ghost function Served(s: State, events: seq<Event>): State
    decreases |events|
  {
    if events == [] then s else Served(Step(s, events[0]), events[1..])
  }

  lemma {:induction false} ServedConcat(s: State, a: seq<Event>, b: seq<Event>)
    ensures Served(s, a + b) == Served(Served(s, a), b)
    decreases |a|
  {
    if a == [] {
      assert a + b == b;
    } else {
      assert (a + b)[1..] == a[1..] + b;
      ServedConcat(Step(s, a[0]), a[1..], b);
    }
  }

  lemma ServedOnce(s: State, e: Event, rest: seq<Event>)
    ensures Served(s, [e] + rest) == Served(Step(s, e), rest)
  {
    assert ([e] + rest)[1..] == rest;
  }

  lemma {:induction false} GatherIsServed(s: State, owner: string, ids: seq<Id>, expired: nat -> set<Id>)
    returns (events: seq<Event>)
    ensures Served(s, events) == Gather(s, owner, ids, expired).0
    decreases MAX_BATCH - |ids|
  {
    var next := NextCompletion(s, s.order, owner);
    events := [];
    if |ids| < MAX_BATCH && next.Some? {
      var (t, claimed) := ClaimCompletion(s, owner, next.value, expired(|ids|));
      var rest: seq<Event> := [];
      if claimed.Ok? {
        rest := GatherIsServed(t, owner, ids + [next.value], expired);
      }
      events := [ClaimEvent(owner, next.value, expired(|ids|))] + rest;
      ServedOnce(s, events[0], rest);
    }
  }

  lemma {:induction false} FinishEachIsServed(s: State, owner: string, ids: seq<Id>, committed: bool, expired: Id -> set<Id>)
    returns (events: seq<Event>)
    ensures Served(s, events) == FinishEach(s, owner, ids, committed, expired)
    decreases |ids|
  {
    events := [];
    if ids != [] {
      var e := SettleEvent(ids[0], owner, committed, expired(ids[0]));
      var rest := FinishEachIsServed(Step(s, e), owner, ids[1..], committed, expired);
      events := [e] + rest;
      ServedOnce(s, e, rest);
    }
  }

  lemma StartedIsServed(m: System, session: string, owner: string, id: Id, now: set<Id>, later: nat -> set<Id>)
    returns (events: seq<Event>)
    ensures Served(m.board, events) == Started(m, session, owner, id, now, later).board
  {
    events := [];
    if session !in m.holders {
      var e := ClaimEvent(owner, id, now);
      var (t, claimed) := ClaimCompletion(m.board, owner, id, now);
      var rest: seq<Event> := [];
      if claimed == Ok(true) {
        var (u, ids, gathered) := Gather(t, owner, [id], later);
        rest := GatherIsServed(t, owner, [id], later);
        if gathered.Err? {
          var released := FinishEachIsServed(u, owner, ids, false, _ => now);
          ServedConcat(t, rest, released);
          rest := rest + released;
        }
      }
      events := [e] + rest;
      ServedOnce(m.board, e, rest);
    }
  }

  lemma EndedIsServed(m: System, session: string, committed: bool, first: Id -> set<Id>, second: Id -> set<Id>)
    returns (events: seq<Event>)
    ensures Served(m.board, events) == Ended(m, session, committed, first, second).board
  {
    events := [];
    if session in m.holders {
      var hold := m.holders[session];
      var t := m.board;
      if committed {
        events := FinishEachIsServed(m.board, hold.owner, hold.ids, true, first);
        t := FinishEach(m.board, hold.owner, hold.ids, true, first);
      }
      var rest := FinishEachIsServed(t, hold.owner, hold.ids, false, second);
      ServedConcat(m.board, events, rest);
      events := events + rest;
    }
  }

  /** Whatever happens to the service and its sessions, the service only sees events of its own. */
  lemma HappeningIsServed(m: System, e: Happening) returns (events: seq<Event>)
    ensures Served(m.board, events) == Next(m, e).board
  {
    match e
    case Serve(event) =>
      events := if OfReports(event) then [] else [event];
      ServedOnce(m.board, event, []);
      assert [event] + [] == [event];
    case Begin(session, owner, id, now, later) => events := StartedIsServed(m, session, owner, id, now, later);
    case End(session, committed, first, second) => events := EndedIsServed(m, session, committed, first, second);
  }

  /** Some sequence of service events leads from `s` to `t`. */
  ghost predicate Leads(s: State, t: State) {
    exists events: seq<Event> :: Served(s, events) == t
  }

  lemma LeadsOn(s: State, m: System, e: Happening)
    requires Leads(s, m.board)
    ensures Leads(s, Next(m, e).board)
  {
    var before: seq<Event> :| Served(s, before) == m.board;
    var more := HappeningIsServed(m, e);
    ServedConcat(s, before, more);
  }

  lemma BoardIsServed(run: seq<System>, events: seq<Happening>, n: nat)
    requires Runs(run, events) && n < |run|
    ensures Leads(run[0].board, run[n].board)
  {
    var start := run[0].board;
    var reached := (m: System) => Leads(start, m.board);
    assert Served(start, []) == start;
    forall k | 0 <= k < n ensures TaskBoardRuns.Keeps(run, reached, k) {
      if reached(run[k]) {
        LeadsOn(start, run[k], events[k]);
      }
    }
    Throughout(run, reached, 0, n);
  }

  lemma {:induction false} ServedIsRun(s: State, events: seq<Event>) returns (states: seq<State>)
    ensures Run(states, events) && states[0] == s && states[|events|] == Served(s, events)
    decreases |events|
  {
    if events == [] {
      states := [s];
    } else {
      var rest := ServedIsRun(Step(s, events[0]), events[1..]);
      states := [s] + rest;
      forall i | 0 <= i < |events| ensures states[i + 1] == Step(states[i], events[i]) {
        if i > 0 {
          assert rest[i - 1 + 1] == Step(rest[i - 1], events[1..][i - 1]);
        }
      }
    }
  }

  /** So every law about runs of the service holds of it at work with its sessions: each state it reaches
      with them is reached by a run of service events. */
  lemma SystemsRunTheService(run: seq<System>, events: seq<Happening>, n: nat)
    returns (states: seq<State>, served: seq<Event>)
    requires Runs(run, events) && n < |run|
    ensures Run(states, served) && states[0] == run[0].board && states[|served|] == run[n].board
  {
    BoardIsServed(run, events, n);
    served :| Served(run[0].board, served) == run[n].board;
    states := ServedIsRun(run[0].board, served);
  }
}

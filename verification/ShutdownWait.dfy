/** The wait of `shutdown` on the service's one-place channel
    (src/oran-bootstrap/background_tasks.cpp). */
module ShutdownWait {
  import opened Core
  import opened TaskBoard
  import opened TaskBoardInvariant
  import opened TaskBoardSteps
  import opened TaskBoardTeams
  import opened TaskBoardRuns
  import opened TaskBoardLaws

  /** Where the caller of shutdown is: about to test the counter, or suspended on the channel. */
  datatype Waiter = Absent | Testing | Suspended | Returned

  /** `token` says that the channel holds a message. */
  datatype World = World(board: State, token: bool, waiter: Waiter)

  /** `changed`: the event also cancelled something, which sends a message too. */
  datatype Happening = Serve(event: Event, changed: bool) | Call | Test | Receive

  /** The end of a job's monitor, which sends a message. */
  predicate EndsJob(s: State, e: Event) {
    e.FinishEvent? && e.id in s.jobs && Live(s.jobs[e.id].state)
  }

  ghost function Next(w: World, e: Happening): World {
    match e
    case Serve(event, changed) =>
      w.(board := Step(w.board, event), token := w.token || changed || EndsJob(w.board, event))
    case Call =>
      if w.waiter.Testing? || w.waiter.Suspended? then w else w.(board := Close(w.board), waiter := Testing)
    case Test =>
      if !w.waiter.Testing? then w else w.(waiter := if w.board.active == 0 then Returned else Suspended)
    case Receive =>
      if !w.waiter.Suspended? || !w.token then w else w.(token := false, waiter := Testing)
  }

  ghost predicate Sound(w: World) {
    && Inv(w.board)
    && (!w.waiter.Absent? ==> w.board.closed)
    && (w.waiter.Suspended? && w.board.active == 0 ==> w.token)
    && (w.waiter.Returned? ==> ShutDown(w.board))
  }

  // ---------------------------------------------------------------- only the end of a job lowers the counter

  lemma {:induction false} CancelEachKeepsActive(s: State, ids: seq<Id>)
    ensures CancelEach(s, ids).active == s.active
    decreases |ids|
  {
    if ids != [] {
      CancelKeepsActive(s, ids[0], false);
      CancelEachKeepsActive(CancelJob(s, ids[0], false), ids[1..]);
    }
  }

  lemma CancelKeepsActive(s: State, id: Id, timeout: bool)
    ensures CancelJob(s, id, timeout).active == s.active
  {
  }

  lemma {:induction false} StartEachRaisesActive(s: State, ids: seq<Id>, broken: set<Id>)
    ensures StartEach(s, ids, broken).active >= s.active
    decreases |ids|
  {
    if ids != [] && s.active < s.options.maxRunning {
      if ids[0] in s.jobs && s.jobs[ids[0]].state.Queued? && ids[0] in broken {
        CancelKeepsActive(s, ids[0], false);
      }
      StartEachRaisesActive(StartOne(s, ids[0], broken), ids[1..], broken);
    }
  }

  lemma LaunchKeepsActive(s: State, p: Slot, choice: Choice)
    ensures Launch(s, p, choice).0.active == s.active
  {
  }

  lemma {:induction false} LaunchEachKeepsActive(s: State, slots: seq<Slot>, choices: Slot -> Choice)
    ensures LaunchEach(s, slots, choices).active == s.active
    decreases |slots|
  {
    if slots != [] {
      LaunchKeepsActive(s, slots[0], choices(slots[0]));
      LaunchEachKeepsActive(Launch(s, slots[0], choices(slots[0])).0, slots[1..], choices);
    }
  }

  lemma StopKeepsActive(s: State, h: Handle)
    ensures StopTeam(s, h).active == s.active
  {
    if h in s.teams {
      CancelEachKeepsActive(s, Only(s.order, JobsOfTeam(s, s.teams[h])));
    }
  }

  lemma {:induction false} StopEachKeepsActive(s: State, hs: seq<Handle>)
    ensures StopEach(s, hs).active == s.active
    decreases |hs|
  {
    if hs != [] {
      StopKeepsActive(s, hs[0]);
      StopEachKeepsActive(StopTeam(s, hs[0]), hs[1..]);
    }
  }

  lemma CloseKeepsActive(s: State)
    ensures Close(s).active == s.active
  {
    var t := StopEach(s, s.teamOrder);
    StopEachKeepsActive(s, s.teamOrder);
    CancelEachKeepsActive(t, t.order);
  }

  lemma CancelOwnerKeepsActive(s: State, owner: string, turn: Option<Id>)
    ensures CancelOwner(s, owner, turn).active == s.active
  {
    var found := FindTeam(s.teamOrder, s.teams, owner);
    var t :=
      if found.None? then s
      else if turn.None? then StopTeam(s, found.value)
      else CancelWaiting(s, found.value, turn.value);
    if found.Some? {
      StopKeepsActive(s, found.value);
    }
    CancelEachKeepsActive(t, Only(t.order, JobsOfOwner(t, owner, turn)));
  }

  lemma UpdateKeepsActive(s: State, owner: string, review: Review, expired: set<Id>)
    ensures UpdateTask(s, owner, review, expired).0.active == s.active
  {
  }

  lemma JobStepActive(s: State, e: Event)
    requires OfJobs(e) && !EndsJob(s, e)
    ensures JobStep(s, e).active >= s.active
  {
    match e
    case PumpEvent(choices, broken) =>
      var t := PumpTeams(s, choices);
      LaunchEachKeepsActive(s, Slots(s.teamOrder, s.teams), choices);
      StartEachRaisesActive(t, t.order, broken);
    case _ =>
  }

  lemma TeamStepActive(s: State, e: Event)
    requires OfTeams(e)
    ensures TeamStep(s, e).active == s.active
  {
    match e
    case ReviewEvent(owner, review, expired) => UpdateKeepsActive(s, owner, review, expired);
    case StopEvent(owner) =>
      var found := FindTeam(s.teamOrder, s.teams, owner);
      if found.Some? {
        StopKeepsActive(s, found.value);
      }
    case CancelOwnerEvent(owner, turn) => CancelOwnerKeepsActive(s, owner, turn);
    case CloseEvent => CloseKeepsActive(s);
    case _ =>
  }

  lemma OnlyEndsLowerActive(s: State, e: Event)
    requires !EndsJob(s, e)
    ensures Step(s, e).active >= s.active
  {
    if OfJobs(e) {
      JobStepActive(s, e);
    } else if OfReports(e) {
      ReportsOnlyFlag(s, e);
    } else {
      TeamStepActive(s, e);
    }
  }

  // ---------------------------------------------------------------- the waiter

  lemma ServeKeepsSound(w: World, event: Event, changed: bool)
    requires Sound(w)
    ensures Sound(Next(w, Serve(event, changed)))
  {
    StepKeepsInv(w.board, event);
    if OfReports(event) {
      ReportsOnlyFlag(w.board, event);
    } else {
      StepSucceeds(w.board, event);
    }
    if !EndsJob(w.board, event) {
      OnlyEndsLowerActive(w.board, event);
      ActiveIsNatural(w.board);
    }
    if w.waiter.Returned? {
      ShutDownStep(w.board, event);
    }
  }

  lemma ActiveIsNatural(s: State)
    requires Inv(s)
    ensures s.active >= 0
  {
  }

  lemma NextKeepsSound(w: World, e: Happening)
    requires Sound(w)
    ensures Sound(Next(w, e))
  {
    match e
    case Serve(event, changed) => ServeKeepsSound(w, event, changed);
    case Call => CallKeepsSound(w);
    case Test =>
      if w.waiter.Testing? && w.board.active == 0 {
        ShutdownIsComplete(w.board);
      }
    case Receive =>
  }

  lemma CallKeepsSound(w: World)
    requires Sound(w)
    ensures Sound(Next(w, Call))
  {
    if !w.waiter.Testing? && !w.waiter.Suspended? {
      CloseKeepsInv(w.board);
    }
  }

  ghost predicate Runs(run: seq<World>, events: seq<Happening>) {
    && |run| == |events| + 1
    && (forall i :: 0 <= i < |events| ==> run[i + 1] == Next(run[i], events[i]))
  }

  lemma RunKeepsSound(run: seq<World>, events: seq<Happening>, n: nat)
    requires Runs(run, events) && Sound(run[0]) && n < |run|
    ensures Sound(run[n])
  {
    forall k | 0 <= k < n ensures Keeps(run, Sound, k) {
      if Sound(run[k]) {
        NextKeepsSound(run[k], events[k]);
      }
    }
    Throughout(run, Sound, 0, n);
  }

  /** Over every run of the service: a caller of shutdown that is suspended when no job is active finds a
      message, and returns when it takes it; and whenever shutdown has returned every job is finished. */
  lemma ShutdownIsNeverStranded(run: seq<World>, events: seq<Happening>, options: Options, n: nat)
    requires Runs(run, events) && run[0] == World(Init(options), false, Absent) && n < |run|
    ensures run[n].waiter.Suspended? && run[n].board.active == 0 ==>
      run[n].token && Next(Next(run[n], Receive), Test).waiter == Returned
    ensures run[n].waiter.Returned? ==> ShutDown(run[n].board)
  {
    InitInv(options);
    RunKeepsSound(run, events, n);
  }
}

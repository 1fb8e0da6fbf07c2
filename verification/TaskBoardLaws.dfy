/** Laws of the job and team service over whole runs: acceptance, readiness, draining, work
    conservation, retention and shutdown. */
module TaskBoardLaws {
  import opened Core
  import opened TaskBoard
  import opened TaskBoardInvariant
  import opened TaskBoardSteps
  import opened TaskBoardTeams
  import opened TaskBoardRuns

  // ---------------------------------------------------------------- readiness and draining

  /** If everything of a team that does not wait is accepted, its first waiting task is ready and its
      member is free: a live team is never stuck on its dependencies. */
  lemma FirstWaitingIsReady(s: State, p: Slot)
    requires Inv(s) && p in s.tasks && s.tasks[p].state.Waiting?
    requires forall q :: q in s.tasks && q.team == p.team ==> s.tasks[q].state.Waiting? || s.tasks[q].state.Accepted?
    requires forall q :: q in s.tasks && q.team == p.team && s.tasks[q].state.Waiting? ==> s.tasks[p].index <= s.tasks[q].index
    ensures Ready(s, p) && !s.teams[p.team].stopped && Launchable(s, p)
  {
    assert GoodTask(s, p, s.tasks[p]);
    forall d | d in s.tasks[p].dependsOn
      ensures Slot(p.team, d) in s.tasks && s.tasks[Slot(p.team, d)].state.Accepted?
    {
    }
  }

  /** A task that can be launched and finds room and a new identity is queued with its job. */
  lemma LaunchQueues(s: State, p: Slot, choice: Choice)
    requires Inv(s) && Launchable(s, p) && HasCapacity(Prune(s, choice.expired), true)
    requires choice.generated.Ok? && choice.generated.value !in s.jobs
    ensures var t := Launch(s, p, choice).0; InStep(t, choice.generated.value, p) && t.tasks[p].state.Queued?
  {
    PruneKeepsInv(s, choice.expired);
    RoomLasts(Prune(s, choice.expired), choice.expiredLater);
  }

  /** Once a stopped team has no work under way, every task is accepted, cancelled or failed. */
  lemma StoppedTeamDrains(s: State, h: Handle)
    requires Inv(s) && Drained(s, h)
    ensures forall p :: p in s.tasks && p.team == h ==>
      s.tasks[p].state.Accepted? || s.tasks[p].state.Cancelled? || s.tasks[p].state.Failed?
  {
    forall p | p in s.tasks && p.team == h
      ensures s.tasks[p].state.Accepted? || s.tasks[p].state.Cancelled? || s.tasks[p].state.Failed?
    {
      assert Settling(s.tasks[p].state);
    }
  }

  /** From the start, over every run: a task that is queued, running, cancelling, in review or accepted
      has all its dependencies accepted, and dependencies are earlier tasks of the same team. */
  lemma EveryRunHonoursDependencies(run: seq<State>, events: seq<Event>, options: Options, n: nat, p: Slot, d: Key)
    requires Run(run, events) && run[0] == Init(options) && n < |run|
    requires p in run[n].tasks && d in run[n].tasks[p].dependsOn
    ensures Slot(p.team, d) in run[n].tasks && run[n].tasks[Slot(p.team, d)].index < run[n].tasks[p].index
    ensures Underway(run[n].tasks[p].state) ==> run[n].tasks[Slot(p.team, d)].state.Accepted?
  {
    InitInv(options);
    RunKeepsInv(run, events, n);
  }

  // ---------------------------------------------------------------- how a stopped job ends

  /** What a job that was asked to stop ends with: a deadline makes it a failed, timed out job that its
      parent still hears of, a caller a cancelled and acknowledged one. */
  predicate StoppedAs(before: Job, after: Job, timeout: bool) {
    && after.state == (if timeout then JobState.Failed else JobState.Cancelled)
    && after.error == Some(if timeout then Timeout else ErrorKind.Cancelled)
    && after.acknowledged == (before.acknowledged || !timeout) && after.result == before.result && after.team.None?
  }

  /** Whatever its child answers, a job that finishes right after it was stopped ends as stopped, and so
      does the task it worked on; a queued job ends at once. */
  lemma FinishAfterStop(s: State, id: Id, timeout: bool, outcome: Result<string>)
    requires Inv(s) && id in s.jobs && !Ending(s.jobs[id].state)
    ensures var t := Finish(CancelJob(s, id, timeout), id, outcome);
      && id in t.jobs && StoppedAs(s.jobs[id], t.jobs[id], timeout)
      && (s.jobs[id].team.Some? ==>
        Slot(s.jobs[id].team.value, s.jobs[id].key) in t.tasks
        && t.tasks[Slot(s.jobs[id].team.value, s.jobs[id].key)].state == Mapped(t.jobs[id].state))
  {
    assert LinkedJob(s, id, s.jobs[id]);
    StopsAsAsked(s, id, timeout, outcome);
  }

  lemma JobStops(job: Job, timeout: bool, outcome: Result<string>)
    requires !Ending(job.state) && !job.timedOut
    ensures var c := CancelledJob(job, timeout);
      && c.team == job.team && c.key == job.key && c.attempt == job.attempt
      && (if Live(c.state)
          then Terminal(FinishedJob(c, outcome).state) && StoppedAs(job, FinishedJob(c, outcome).(team := None), timeout)
          else Terminal(c.state) && StoppedAs(job, c.(team := None), timeout))
  {
  }

  lemma StopsAsAsked(s: State, id: Id, timeout: bool, outcome: Result<string>)
    requires id in s.jobs && !Ending(s.jobs[id].state) && !s.jobs[id].timedOut
    requires s.jobs[id].team.Some? ==> Assigned(s, id, s.jobs[id])
    ensures var t := Finish(CancelJob(s, id, timeout), id, outcome);
      && id in t.jobs && StoppedAs(s.jobs[id], t.jobs[id], timeout)
      && (s.jobs[id].team.Some? ==>
        Slot(s.jobs[id].team.value, s.jobs[id].key) in t.tasks
        && t.tasks[Slot(s.jobs[id].team.value, s.jobs[id].key)].state == Mapped(t.jobs[id].state))
  {
    var job := CancelledJob(s.jobs[id], timeout);
    JobStops(s.jobs[id], timeout, outcome);
    var u := CancelJob(s, id, timeout);
    assert u == Advance(s, id, job);
    AdvanceTells(s, id, job);
    if Live(job.state) {
      var done := FinishedJob(job, outcome);
      AdvanceTells(u, id, done);
      assert Finish(u, id, outcome) == Advance(u, id, done);
    } else {
      assert Finish(u, id, outcome) == u;
    }
  }

  /** Moving a job on shows in the job and in the task it works on. */
  lemma AdvanceTells(s: State, id: Id, job: Job)
    requires id in s.jobs && job.team == s.jobs[id].team && (job.team.Some? ==> Assigned(s, id, job))
    ensures var t := Advance(s, id, job);
      && id in t.jobs && t.jobs[id] == (if Terminal(job.state) then job.(team := None) else job)
      && (job.team.Some? ==>
        Assigned(t, id, job) && t.tasks[Slot(job.team.value, job.key)].state == Mapped(job.state))
  {
  }

  // ---------------------------------------------------------------- the pump leaves no room unused

  /** Only entry `id` of the jobs changes, and it leaves the queue. */
  predicate Dequeues(s: State, t: State, id: Id) {
    && t.options == s.options && t.jobs.Keys == s.jobs.Keys && id in t.jobs && !t.jobs[id].state.Queued?
    && (forall k :: k in s.jobs && k != id ==> t.jobs[k] == s.jobs[k])
  }

  lemma AdvanceDequeues(s: State, id: Id, job: Job)
    requires id in s.jobs && !job.state.Queued?
    ensures Dequeues(s, Advance(s, id, job), id)
  {
  }

  lemma StartOneClears(s: State, id: Id, broken: set<Id>)
    requires id in s.jobs
    ensures Dequeues(s, StartOne(s, id, broken), id)
  {
    if s.jobs[id].state.Queued? {
      if id in broken {
        AdvanceDequeues(s, id, CancelledJob(s.jobs[id], false));
      } else {
        AdvanceDequeues(s, id, s.jobs[id].(state := JobState.Running));
      }
    }
  }

  lemma {:induction false} StartEachFills(s: State, ids: seq<Id>, broken: set<Id>)
    requires forall id :: id in ids ==> id in s.jobs
    ensures var t := StartEach(s, ids, broken); t.jobs.Keys == s.jobs.Keys && t.options == s.options
    ensures var t := StartEach(s, ids, broken);
      t.active >= t.options.maxRunning || forall id :: id in ids && id in t.jobs ==> !t.jobs[id].state.Queued?
    ensures var t := StartEach(s, ids, broken);
      forall id :: id in s.jobs && id in t.jobs && !s.jobs[id].state.Queued? ==> !t.jobs[id].state.Queued?
    decreases |ids|
  {
    if ids != [] && s.active < s.options.maxRunning {
      StartOneClears(s, ids[0], broken);
      StartEachFills(StartOne(s, ids[0], broken), ids[1..], broken);
      assert ids == [ids[0]] + ids[1..];
    }
  }

  /** Queued jobs start in the order in which they were queued. */
  lemma {:induction false} StartsInOrder(s: State, ids: seq<Id>, broken: set<Id>, i: nat, j: nat)
    requires Distinct(ids) && (forall id :: id in ids ==> id in s.jobs) && i < j < |ids| && s.jobs[ids[j]].state.Queued?
    ensures var t := StartEach(s, ids, broken);
      ids[i] in t.jobs && ids[j] in t.jobs && (!t.jobs[ids[j]].state.Queued? ==> !t.jobs[ids[i]].state.Queued?)
    decreases |ids|
  {
    StartEachFills(s, ids, broken);
    if s.active < s.options.maxRunning {
      var t, rest := StartOne(s, ids[0], broken), ids[1..];
      StartOneClears(s, ids[0], broken);
      assert forall k :: 0 <= k < |rest| ==> rest[k] == ids[k + 1];
      StartEachFills(t, rest, broken);
      if i > 0 {
        StartsInOrder(t, rest, broken, i - 1, j - 1);
      }
    }
  }

  /** After the pump no job waits in the queue unless the service runs all it may. */
  lemma PumpIsWorkConserving(s: State, choices: Slot -> Choice, broken: set<Id>, id: Id)
    requires Inv(s) && !s.closed
    ensures var t := Pump(s, choices, broken); id in t.jobs && t.jobs[id].state.Queued? ==> t.active == t.options.maxRunning
  {
    var t := PumpTeams(s, choices);
    LaunchEachKeepsInv(s, Slots(s.teamOrder, s.teams), choices);
    StartEachFills(t, t.order, broken);
    StartEachKeepsInv(t, t.order, broken);
  }

  // ---------------------------------------------------------------- acceptance is permanent

  /** Teams come only with new handles. */
  ghost predicate Roster(s: State, t: State) {
    && s.nextHandle <= t.nextHandle
    && (forall h :: h in t.teams ==> h in s.teams || h >= s.nextHandle)
  }

  ghost predicate SameTeams(s: State, t: State) {
    t.nextHandle == s.nextHandle && t.teams.Keys == s.teams.Keys
  }

  lemma LaunchSameTeams(s: State, p: Slot, choice: Choice)
    ensures SameTeams(s, Launch(s, p, choice).0)
  {
  }

  lemma {:induction false} LaunchEachSameTeams(s: State, slots: seq<Slot>, choices: Slot -> Choice)
    ensures SameTeams(s, LaunchEach(s, slots, choices))
    decreases |slots|
  {
    if slots != [] {
      LaunchSameTeams(s, slots[0], choices(slots[0]));
      LaunchEachSameTeams(Launch(s, slots[0], choices(slots[0])).0, slots[1..], choices);
    }
  }

  lemma StartOneSameTeams(s: State, id: Id, broken: set<Id>)
    ensures SameTeams(s, StartOne(s, id, broken))
  {
  }

  lemma {:induction false} StartEachSameTeams(s: State, ids: seq<Id>, broken: set<Id>)
    ensures SameTeams(s, StartEach(s, ids, broken))
    decreases |ids|
  {
    if ids != [] && s.active < s.options.maxRunning {
      StartOneSameTeams(s, ids[0], broken);
      StartEachSameTeams(StartOne(s, ids[0], broken), ids[1..], broken);
    }
  }

  lemma JobStepSameTeams(s: State, e: Event)
    requires OfJobs(e)
    ensures SameTeams(s, JobStep(s, e))
  {
    if e.PumpEvent? && !s.closed {
      LaunchEachSameTeams(s, Slots(s.teamOrder, s.teams), e.choices);
      var t := PumpTeams(s, e.choices);
      StartEachSameTeams(t, t.order, e.broken);
    }
  }

  lemma StopSameTeams(s: State, e: Event)
    requires Inv(s) && (e.StopEvent? || e.CancelOwnerEvent? || e.CloseEvent?)
    ensures SameTeams(s, TeamStep(s, e))
  {
    match e
    case StopEvent(owner) =>
      var found := FindTeam(s.teamOrder, s.teams, owner);
      if found.Some? {
        StopKeepsInv(s, found.value);
      }
    case CancelOwnerEvent(owner, turn) =>
      CancelOwnerSameTeams(s, owner, turn);
    case CloseEvent =>
      var t := StopEach(s, s.teamOrder);
      StopEachKeepsInv(s, s.teamOrder);
      CancelEachIsOnward(t, t.order);
  }

  lemma CancelOwnerSameTeams(s: State, owner: string, turn: Option<Id>)
    requires Inv(s)
    ensures SameTeams(s, CancelOwner(s, owner, turn))
  {
    var found := FindTeam(s.teamOrder, s.teams, owner);
    var t :=
      if found.None? then s
      else if turn.None? then StopTeam(s, found.value)
      else CancelWaiting(s, found.value, turn.value);
    if found.Some? && turn.None? {
      StopKeepsInv(s, found.value);
    }
    CancelEachIsOnward(t, Only(t.order, JobsOfOwner(t, owner, turn)));
  }

  lemma AskSameTeams(s: State, e: Event)
    requires e.JoinEvent? || e.SubmitEvent? || e.ReviewEvent?
    ensures SameTeams(s, TeamStep(s, e))
  {
    match e
    case JoinEvent(_, _, _, _) =>
    case SubmitEvent(_, _, _) =>
    case ReviewEvent(owner, review, expired) => UpdateSameTeams(s, owner, review, expired);
  }

  lemma UpdateSameTeams(s: State, owner: string, review: Review, expired: set<Id>)
    ensures SameTeams(s, UpdateTask(s, owner, review, expired).0)
  {
  }

  lemma CreateRoster(
    s: State, owner: string, names: seq<string>, maxChildren: nat, id: Result<Id>, refused: string -> Option<ErrorKind>)
    ensures Roster(s, CreateTeam(s, owner, names, maxChildren, id, refused).0)
    ensures forall p :: p in s.tasks && p !in CreateTeam(s, owner, names, maxChildren, id, refused).0.tasks ==>
      p.team !in CreateTeam(s, owner, names, maxChildren, id, refused).0.teams || p.team == s.nextHandle
  {
  }

  lemma StepRoster(s: State, e: Event)
    requires Inv(s)
    ensures Roster(s, Step(s, e))
  {
    if OfJobs(e) {
      JobStepSameTeams(s, e);
    } else if OfReports(e) {
      ReportsOnlyFlag(s, e);
    } else if e.CreateEvent? {
      CreateRoster(s, e.owner, e.names, e.maxChildren, e.generated, e.refused);
    } else if e.StopEvent? || e.CancelOwnerEvent? || e.CloseEvent? {
      StopSameTeams(s, e);
    } else {
      AskSameTeams(s, e);
    }
  }

  /** A task disappears only with its team. */
  lemma TasksLeaveWithTeam(s: State, e: Event, p: Slot)
    requires Inv(s) && p in s.tasks && p !in Step(s, e).tasks
    ensures p.team !in Step(s, e).teams
  {
    if e.FinishEvent? {
      FinishReports(s, e, p);
    } else if e.ReviewEvent? {
      ReviewJudges(s, e, p);
    } else if e.CreateEvent? {
      assert GoodTask(s, p, s.tasks[p]);
      CreateRoster(s, e.owner, e.names, e.maxChildren, e.generated, e.refused);
    } else if OfJobs(e) {
      JobStepIsQuiet(s, e);
    } else if OfReports(e) {
      ReportsAreQuiet(s, e);
    } else {
      TeamStepIsQuiet(s, e);
    }
  }

  /** The team of the slot has been replaced; its handle is never used again. */
  predicate Gone(s: State, p: Slot) {
    p !in s.tasks && p.team !in s.teams && p.team < s.nextHandle
  }

  lemma AcceptedStays(s: State, e: Event, p: Slot)
    requires Inv(s) && p in s.tasks && s.tasks[p].state.Accepted? && p in Step(s, e).tasks
    ensures Step(s, e).tasks[p] == s.tasks[p]
  {
    TasksChangeLawfully(s, e, p);
    LawfullyAccepted(s, e, p, Step(s, e).tasks[p]);
  }

  lemma LawfullyAccepted(s: State, e: Event, p: Slot, b: Task)
    requires p in s.tasks && s.tasks[p].state.Accepted?
    requires Quiet(s.tasks[p], b) || Reported(s, e, p, b) || Judged(s, e, p, b)
    ensures b == s.tasks[p]
  {
  }

  lemma TasksGo(s: State, e: Event, p: Slot)
    requires Inv(s) && p in s.tasks && p !in Step(s, e).tasks
    ensures Gone(Step(s, e), p)
  {
    assert GoodTask(s, p, s.tasks[p]);
    TasksLeaveWithTeam(s, e, p);
    StepRoster(s, e);
  }

  lemma GoneStep(s: State, e: Event, p: Slot)
    requires Inv(s) && Gone(s, p)
    ensures Gone(Step(s, e), p)
  {
    StepRoster(s, e);
    StepKeepsInv(s, e);
    assert p in Step(s, e).tasks ==> GoodTask(Step(s, e), p, Step(s, e).tasks[p]);
  }

  /** Task `p` is exactly this, unless its team has been replaced. */
  predicate Frozen(s: State, p: Slot, task: Task) {
    Gone(s, p) || (p in s.tasks && s.tasks[p] == task)
  }

  lemma FrozenStep(s: State, e: Event, p: Slot, task: Task)
    requires Inv(s) && Frozen(s, p, task) && task.state.Accepted?
    ensures Frozen(Step(s, e), p, task)
  {
    if Gone(s, p) {
      GoneStep(s, e, p);
    } else if p in Step(s, e).tasks {
      AcceptedStays(s, e, p);
    } else {
      TasksGo(s, e, p);
    }
  }

  /** Over every run an accepted task never changes again; it is dropped only with its whole team. */
  lemma AcceptanceIsPermanent(run: seq<State>, events: seq<Event>, i: nat, j: nat, p: Slot)
    requires Run(run, events) && Inv(run[0]) && i <= j < |run| && p in run[i].tasks && run[i].tasks[p].state.Accepted?
    ensures Frozen(run[j], p, run[i].tasks[p])
  {
    var task := run[i].tasks[p];
    var frozen := s => Frozen(s, p, task);
    forall n | i <= n < j ensures Keeps(run, frozen, n) {
      if Frozen(run[n], p, task) {
        FrozenRunStep(run, events, n, p, task);
      }
    }
    Throughout(run, frozen, i, j);
  }

  lemma FrozenRunStep(run: seq<State>, events: seq<Event>, n: nat, p: Slot, task: Task)
    requires Run(run, events) && Inv(run[0]) && n < |events| && Frozen(run[n], p, task) && task.state.Accepted?
    ensures Frozen(run[n + 1], p, task)
  {
    RunKeepsInv(run, events, n);
    FrozenStep(run[n], events[n], p, task);
  }

  // ---------------------------------------------------------------- what becomes of jobs

  /** Every job stays and moves on. */
  ghost predicate LaterJobs(s: State, t: State) {
    && t.options == s.options && t.closed == s.closed && t.jobs.Keys == s.jobs.Keys
    && (forall id :: id in s.jobs ==> Later(s.jobs[id], t.jobs[id]))
  }

  /** Some finished jobs are forgotten, some new ones queued, the others are untouched. */
  ghost predicate Retained(s: State, t: State) {
    && t.options == s.options && t.closed == s.closed
    && (forall id :: id in s.jobs && !Prunable(s.options, s.jobs[id]) ==> id in t.jobs && t.jobs[id] == s.jobs[id])
    && (forall id :: id in t.jobs ==> (id in s.jobs && t.jobs[id] == s.jobs[id]) || (!s.closed && !t.jobs[id].claimed && t.jobs[id].commits == 0))
  }

  /** What any event does to the jobs: nothing that must be retained is lost, nothing is claimed, a
      closed service admits nothing. */
  ghost predicate Succeeds(s: State, t: State) {
    && t.options == s.options && (s.closed ==> t.closed)
    && (forall id :: id in s.jobs && !Prunable(s.options, s.jobs[id]) ==> id in t.jobs && Later(s.jobs[id], t.jobs[id]))
    && (forall id :: id in t.jobs ==>
      (id in s.jobs && Later(s.jobs[id], t.jobs[id])) || (!s.closed && !t.jobs[id].claimed && t.jobs[id].commits == 0))
  }

  lemma RetainedThenLater(s: State, u: State, t: State)
    requires Retained(s, u) && LaterJobs(u, t)
    ensures Succeeds(s, t)
  {
    forall id | id in t.jobs
      ensures (id in s.jobs && Later(s.jobs[id], t.jobs[id])) || (!s.closed && !t.jobs[id].claimed && t.jobs[id].commits == 0)
    {
      assert Later(u.jobs[id], t.jobs[id]);
    }
  }

  lemma LaterTransitive(s: State, u: State, t: State)
    requires LaterJobs(s, u) && LaterJobs(u, t)
    ensures LaterJobs(s, t)
  {
    forall id | id in s.jobs ensures Later(s.jobs[id], t.jobs[id]) {
      assert Later(s.jobs[id], u.jobs[id]) && Later(u.jobs[id], t.jobs[id]);
    }
  }

  lemma RetainedTransitive(s: State, u: State, t: State)
    requires Retained(s, u) && Retained(u, t)
    ensures Retained(s, t)
  {
  }

  lemma PruneRetains(s: State, expired: set<Id>)
    ensures Retained(s, Prune(s, expired))
  {
  }

  lemma EnqueueRetains(s: State, id: Id, job: Job, expired: set<Id>)
    requires !job.claimed && job.commits == 0 && !s.closed
    ensures Retained(s, Enqueue(s, id, job, expired).0)
  {
    var t := Prune(s, expired);
    PruneRetains(s, expired);
    if id !in t.jobs {
      PushRetains(t, id, job);
      RetainedTransitive(s, t, Pushed(t, id, job));
    }
  }

  lemma PushRetains(t: State, id: Id, job: Job)
    requires id !in t.jobs && !job.claimed && job.commits == 0 && !t.closed
    ensures Retained(t, Pushed(t, id, job))
  {
  }

  lemma StartJobRetains(s: State, owner: string, turn: Option<Id>, choice: Choice)
    ensures Retained(s, StartJob(s, owner, turn, choice).0)
  {
    var t := Prune(s, choice.expired);
    PruneRetains(s, choice.expired);
    if StartJob(s, owner, turn, choice).0 != t {
      EnqueueRetains(t, choice.generated.value, NewJob(t, owner, turn), choice.expiredLater);
      RetainedTransitive(s, t, StartJob(s, owner, turn, choice).0);
    }
  }

  lemma LaunchRetains(s: State, p: Slot, choice: Choice)
    requires !s.closed
    ensures Retained(s, Launch(s, p, choice).0)
  {
    if Launchable(s, p) {
      var t := Prune(s, choice.expired);
      var u := Prune(t, choice.expiredLater);
      PruneRetains(s, choice.expired);
      PruneRetains(t, choice.expiredLater);
      RetainedTransitive(s, t, u);
      if choice.generated.Ok? && choice.generated.value !in u.jobs {
        PushRetains(u, choice.generated.value, TeamJob(u, p));
        RetainedTransitive(s, u, Pushed(u, choice.generated.value, TeamJob(u, p)));
      }
    }
  }

  lemma {:induction false} LaunchEachRetains(s: State, slots: seq<Slot>, choices: Slot -> Choice)
    requires !s.closed
    ensures Retained(s, LaunchEach(s, slots, choices))
    decreases |slots|
  {
    if slots != [] {
      var (t, full) := Launch(s, slots[0], choices(slots[0]));
      LaunchRetains(s, slots[0], choices(slots[0]));
      if !full {
        LaunchEachRetains(t, slots[1..], choices);
        RetainedTransitive(s, t, LaunchEach(s, slots, choices));
      }
    }
  }

  lemma StartOneIsLater(s: State, id: Id, broken: set<Id>)
    ensures LaterJobs(s, StartOne(s, id, broken))
  {
    if id in s.jobs && s.jobs[id].state.Queued? {
      if id in broken {
        CancelIsOnward(s, id, false);
      } else {
        AdvanceIsOnward(s, id, s.jobs[id].(state := JobState.Running));
      }
    }
  }

  lemma {:induction false} StartEachIsLater(s: State, ids: seq<Id>, broken: set<Id>)
    ensures LaterJobs(s, StartEach(s, ids, broken))
    decreases |ids|
  {
    if ids != [] && s.active < s.options.maxRunning {
      var t := StartOne(s, ids[0], broken);
      StartOneIsLater(s, ids[0], broken);
      StartEachIsLater(t, ids[1..], broken);
      LaterTransitive(s, t, StartEach(s, ids, broken));
    }
  }

  lemma PumpSucceeds(s: State, choices: Slot -> Choice, broken: set<Id>)
    ensures Succeeds(s, Pump(s, choices, broken))
  {
    if !s.closed {
      var t := PumpTeams(s, choices);
      LaunchEachRetains(s, Slots(s.teamOrder, s.teams), choices);
      StartEachIsLater(t, t.order, broken);
      RetainedThenLater(s, t, Pump(s, choices, broken));
    }
  }

  lemma FinishSucceeds(s: State, id: Id, outcome: Result<string>)
    ensures LaterJobs(s, Finish(s, id, outcome))
  {
    if id in s.jobs && Live(s.jobs[id].state) {
      AdvanceIsOnward(s, id, FinishedJob(s.jobs[id], outcome));
    }
  }

  lemma PruneThenCancel(s: State, id: Id, expired: set<Id>)
    ensures Succeeds(s, CancelJob(Prune(s, expired), id, false)) && Succeeds(s, Prune(s, expired))
  {
    var t := Prune(s, expired);
    PruneRetains(s, expired);
    CancelIsOnward(t, id, false);
    RetainedThenLater(s, t, CancelJob(t, id, false));
    RetainedThenLater(s, t, t);
  }

  lemma JobStepSucceeds(s: State, e: Event)
    requires OfJobs(e)
    ensures Succeeds(s, JobStep(s, e))
  {
    match e
    case StartEvent(owner, turn, choice) =>
      StartJobRetains(s, owner, turn, choice);
      RetainedThenLater(s, JobStep(s, e), JobStep(s, e));
    case DeadlineEvent(id) => CancelIsOnward(s, id, true);
    case FinishEvent(id, outcome) => FinishSucceeds(s, id, outcome);
    case CancelEvent(id, owner, expired) => PruneThenCancel(s, id, expired);
    case PruneEvent(expired) => PruneThenCancel(s, "", expired);
    case PumpEvent(choices, broken) => PumpSucceeds(s, choices, broken);
  }

  lemma StopIsLater(s: State, h: Handle)
    ensures LaterJobs(s, StopTeam(s, h))
  {
    if h in s.teams {
      CancelEachIsOnward(s, Only(s.order, JobsOfTeam(s, s.teams[h])));
    }
  }

  lemma {:induction false} StopEachIsLater(s: State, hs: seq<Handle>)
    ensures LaterJobs(s, StopEach(s, hs))
    decreases |hs|
  {
    if hs != [] {
      StopIsLater(s, hs[0]);
      StopEachIsLater(StopTeam(s, hs[0]), hs[1..]);
      LaterTransitive(s, StopTeam(s, hs[0]), StopEach(s, hs));
    }
  }

  lemma CancelOwnerIsLater(s: State, owner: string, turn: Option<Id>)
    ensures LaterJobs(s, CancelOwner(s, owner, turn))
  {
    var found := FindTeam(s.teamOrder, s.teams, owner);
    var t :=
      if found.None? then s
      else if turn.None? then StopTeam(s, found.value)
      else CancelWaiting(s, found.value, turn.value);
    if found.Some? {
      StopIsLater(s, found.value);
    }
    var ids := Only(t.order, JobsOfOwner(t, owner, turn));
    CancelEachIsOnward(t, ids);
    LaterTransitive(s, t, CancelEach(t, ids));
  }

  lemma CloseSucceeds(s: State)
    ensures Succeeds(s, Close(s)) && Close(s).closed
  {
    var t := StopEach(s, s.teamOrder);
    StopEachIsLater(s, s.teamOrder);
    CancelEachIsOnward(t, t.order);
    LaterTransitive(s, t, CancelEach(t, t.order));
  }

  lemma CancelTaskSucceeds(s: State, p: Slot, expired: set<Id>)
    requires p in s.tasks && p.team in s.teams
    ensures Succeeds(s, CancelTask(s, p, expired))
  {
    var run := s.tasks[p].runId;
    PruneThenCancel(s, if run.Some? then run.value else "", expired);
  }

  /** Apart from cancelling a task, the requests of a leader at most prune. */
  lemma UpdateSucceeds(s: State, owner: string, review: Review, expired: set<Id>)
    ensures Succeeds(s, UpdateTask(s, owner, review, expired).0)
  {
    var found := FindTeam(s.teamOrder, s.teams, owner);
    PruneRetains(s, expired);
    if found.Some? && found.value in s.teams && Slot(found.value, review.key) in s.tasks {
      CancelTaskSucceeds(s, Slot(found.value, review.key), expired);
    }
    UpdateJobs(s, owner, review, expired);
  }

  lemma UpdateJobs(s: State, owner: string, review: Review, expired: set<Id>)
    ensures var t, q := UpdateTask(s, owner, review, expired).0, FindTeam(s.teamOrder, s.teams, owner);
      || (t.jobs == s.jobs && t.options == s.options && t.closed == s.closed)
      || (t.jobs == Prune(s, expired).jobs && t.options == s.options && t.closed == s.closed)
      || (q.Some? && q.value in s.teams && Slot(q.value, review.key) in s.tasks
        && t == CancelTask(s, Slot(q.value, review.key), expired))
  {
  }

  lemma SubmitSucceeds(s: State, owner: string, request: Request, expired: set<Id>)
    ensures Retained(s, SubmitTask(s, owner, request, expired).0)
  {
    PruneRetains(s, expired);
  }

  lemma TeamStepSucceeds(s: State, e: Event)
    requires OfTeams(e)
    ensures Succeeds(s, TeamStep(s, e))
  {
    match e
    case CreateEvent(owner, names, max, generated, refused) => CreateJobs(s, owner, names, max, generated, refused);
    case JoinEvent(owner, name, max, refused) => JoinJobs(s, owner, name, max, refused);
    case SubmitEvent(owner, request, expired) =>
      SubmitSucceeds(s, owner, request, expired);
      RetainedThenLater(s, TeamStep(s, e), TeamStep(s, e));
    case ReviewEvent(owner, review, expired) => UpdateSucceeds(s, owner, review, expired);
    case StopEvent(owner) =>
      var found := FindTeam(s.teamOrder, s.teams, owner);
      if found.Some? {
        StopIsLater(s, found.value);
      }
    case CancelOwnerEvent(owner, turn) => CancelOwnerIsLater(s, owner, turn);
    case CloseEvent => CloseSucceeds(s);
  }

  lemma CreateJobs(
    s: State, owner: string, names: seq<string>, maxChildren: nat, id: Result<Id>, refused: string -> Option<ErrorKind>)
    ensures var t := CreateTeam(s, owner, names, maxChildren, id, refused).0;
      t.jobs == s.jobs && t.options == s.options && t.closed == s.closed
  {
  }

  lemma JoinJobs(s: State, owner: string, name: string, maxChildren: nat, refused: string -> Option<ErrorKind>)
    ensures var t := AddMember(s, owner, name, maxChildren, refused).0;
      t.jobs == s.jobs && t.options == s.options && t.closed == s.closed
  {
  }

  lemma StepSucceeds(s: State, e: Event)
    requires !OfReports(e)
    ensures Succeeds(s, Step(s, e))
  {
    if OfJobs(e) {
      JobStepSucceeds(s, e);
    } else {
      TeamStepSucceeds(s, e);
    }
  }

  // ---------------------------------------------------------------- retention

  /** A finished report that its parent has not taken yet. */
  predicate Undelivered(s: State, id: Id) {
    id in s.jobs && s.options.automaticDelivery && Terminal(s.jobs[id].state) && !s.jobs[id].acknowledged
  }

  /** With automatic delivery no event, not even its own commit, loses a report that is not acknowledged
      yet; its outcome stays, and only claiming and settling reports change its claim. */
  lemma UndeliveredIsKept(s: State, e: Event, id: Id)
    requires Undelivered(s, id)
    ensures var t := Step(s, e);
      && id in t.jobs && t.jobs[id].state == s.jobs[id].state && t.jobs[id].result == s.jobs[id].result
      && t.jobs[id].owner == s.jobs[id].owner && (!OfReports(e) ==> t.jobs[id].claimed == s.jobs[id].claimed)
  {
    if OfReports(e) {
      ReportsOnlyFlag(s, e);
      assert SameCore(s.jobs[id], Step(s, e).jobs[id]);
    } else {
      StepSucceeds(s, e);
      assert Later(s.jobs[id], Step(s, e).jobs[id]);
    }
  }

  // ---------------------------------------------------------------- shutdown

  /** What a successful `shutdown` establishes: it returns when no job is active. */
  lemma ShutdownIsComplete(s: State)
    requires Inv(s) && s.closed && s.active == 0
    ensures forall id :: id in s.jobs ==> Terminal(s.jobs[id].state)
  {
    forall id | id in s.jobs ensures Terminal(s.jobs[id].state) {
      assert id !in LiveJobs(s);
    }
  }

  /** All jobs are finished and the service is closed. */
  predicate ShutDown(s: State) {
    s.closed && (forall id :: id in s.jobs ==> Terminal(s.jobs[id].state))
  }

  lemma ShutDownStep(s: State, e: Event)
    requires ShutDown(s)
    ensures ShutDown(Step(s, e))
  {
    if OfReports(e) {
      ReportsOnlyFlag(s, e);
    } else {
      StepSucceeds(s, e);
    }
    forall id | id in Step(s, e).jobs ensures Terminal(Step(s, e).jobs[id].state) {
      assert Later(s.jobs[id], Step(s, e).jobs[id]) || SameCore(s.jobs[id], Step(s, e).jobs[id]);
    }
  }

  /** After a successful shutdown, over any further events, no job is ever queued or running again. */
  lemma NothingStartsAfterShutdown(run: seq<State>, events: seq<Event>, i: nat, j: nat)
    requires Run(run, events) && Inv(run[0]) && i <= j < |run| && run[i].closed && run[i].active == 0
    ensures ShutDown(run[j])
  {
    RunKeepsInv(run, events, i);
    ShutdownIsComplete(run[i]);
    forall n | i <= n < j ensures Keeps(run, ShutDown, n) {
      if ShutDown(run[n]) {
        ShutDownRunStep(run, events, n);
      }
    }
    Throughout(run, ShutDown, i, j);
  }

  lemma ShutDownRunStep(run: seq<State>, events: seq<Event>, n: nat)
    requires Run(run, events) && n < |events| && ShutDown(run[n])
    ensures ShutDown(run[n + 1])
  {
    ShutDownStep(run[n], events[n]);
  }
}

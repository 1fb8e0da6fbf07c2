/** Whole runs of the job and team service: bounds, the match of jobs and tasks, review, retention,
    shutdown. */
module TaskBoardRuns {
  import opened Core
  import opened TaskBoard
  import opened TaskBoardInvariant
  import opened TaskBoardSteps
  import opened TaskBoardTeams

  /** One uninterrupted piece of work of the service, with what its environment decides. */
  datatype Event =
    | StartEvent(owner: string, turn: Option<Id>, choice: Choice)
    | DeadlineEvent(id: Id)
    | FinishEvent(id: Id, outcome: Result<string>)
    | CancelEvent(id: Id, owner: string, expired: set<Id>)
    | PruneEvent(expired: set<Id>)
    | PumpEvent(choices: Slot -> Choice, broken: set<Id>)
    | CreateEvent(owner: string, names: seq<string>, maxChildren: nat, generated: Result<Id>, refused: string -> Option<ErrorKind>)
    | JoinEvent(owner: string, name: string, maxChildren: nat, refused: string -> Option<ErrorKind>)
    | SubmitEvent(owner: string, request: Request, expired: set<Id>)
    | ReviewEvent(owner: string, review: Review, expired: set<Id>)
    | StopEvent(owner: string)
    | CancelOwnerEvent(owner: string, turn: Option<Id>)
    | CloseEvent
    | ClaimEvent(owner: string, id: Id, expired: set<Id>)
    | SettleEvent(id: Id, owner: string, committed: bool, expired: set<Id>)

  /** `cancel` of a job by its owner. */
  function CancelOwned(s: State, owner: string, id: Id, expired: set<Id>): State {
    var t := Prune(s, expired);
    if Findable(t, owner, id) then CancelJob(t, id, false) else t
  }

  predicate OfJobs(e: Event) {
    e.StartEvent? || e.DeadlineEvent? || e.FinishEvent? || e.CancelEvent? || e.PruneEvent? || e.PumpEvent?
  }

  /** Claiming a report, and committing or releasing it. */
  predicate OfReports(e: Event) {
    e.ClaimEvent? || e.SettleEvent?
  }

  predicate OfTeams(e: Event) {
    !OfJobs(e) && !OfReports(e)
  }

  function ReportStep(s: State, e: Event): State
    requires OfReports(e)
  {
    match e
    case ClaimEvent(owner, id, expired) => ClaimCompletion(s, owner, id, expired).0
    case SettleEvent(id, owner, committed, expired) => FinishCompletion(s, owner, id, committed, expired)
  }

  ghost function JobStep(s: State, e: Event): State
    requires OfJobs(e)
  {
    match e
    case StartEvent(owner, turn, choice) => StartJob(s, owner, turn, choice).0
    case DeadlineEvent(id) => CancelJob(s, id, true)
    case FinishEvent(id, outcome) => Finish(s, id, outcome)
    case CancelEvent(id, owner, expired) => CancelOwned(s, owner, id, expired)
    case PruneEvent(expired) => Prune(s, expired)
    case PumpEvent(choices, broken) => Pump(s, choices, broken)
  }

  ghost function TeamStep(s: State, e: Event): State
    requires OfTeams(e)
  {
    match e
    case CreateEvent(owner, names, max, generated, refused) => CreateTeam(s, owner, names, max, generated, refused).0
    case JoinEvent(owner, name, max, refused) => AddMember(s, owner, name, max, refused).0
    case SubmitEvent(owner, request, expired) => SubmitTask(s, owner, request, expired).0
    case ReviewEvent(owner, review, expired) => UpdateTask(s, owner, review, expired).0
    case StopEvent(owner) => StopByOwner(s, owner).0
    case CancelOwnerEvent(owner, turn) => CancelOwner(s, owner, turn)
    case CloseEvent => Close(s)
  }

  ghost function Step(s: State, e: Event): State {
    if OfJobs(e) then JobStep(s, e) else if OfReports(e) then ReportStep(s, e) else TeamStep(s, e)
  }

  lemma CancelOwnedKeepsInv(s: State, owner: string, id: Id, expired: set<Id>)
    requires Inv(s)
    ensures Inv(CancelOwned(s, owner, id, expired))
  {
    PruneKeepsInv(s, expired);
    CancelKeepsInv(Prune(s, expired), id, false);
  }

  lemma StopByOwnerKeepsInv(s: State, owner: string)
    requires Inv(s)
    ensures Inv(StopByOwner(s, owner).0)
  {
    var found := FindTeam(s.teamOrder, s.teams, owner);
    if found.Some? {
      StopKeepsInv(s, found.value);
    }
  }

  lemma JobStepKeepsInv(s: State, e: Event)
    requires Inv(s) && OfJobs(e)
    ensures Inv(JobStep(s, e))
  {
    match e
    case StartEvent(owner, turn, choice) => StartJobKeepsInv(s, owner, turn, choice);
    case DeadlineEvent(id) => CancelKeepsInv(s, id, true);
    case FinishEvent(id, outcome) => FinishKeepsInv(s, id, outcome);
    case CancelEvent(id, owner, expired) => CancelOwnedKeepsInv(s, owner, id, expired);
    case PruneEvent(expired) => PruneKeepsInv(s, expired);
    case PumpEvent(choices, broken) => PumpKeepsInv(s, choices, broken);
  }

  lemma ReportStepKeepsInv(s: State, e: Event)
    requires Inv(s) && OfReports(e)
    ensures Inv(ReportStep(s, e))
  {
    match e
    case ClaimEvent(owner, id, expired) => ClaimKeepsInv(s, owner, id, expired);
    case SettleEvent(id, owner, committed, expired) => FinishCompletionKeepsInv(s, owner, id, committed, expired);
  }

  /** Delivery changes nothing but the flags of jobs, and prunes. */
  ghost predicate OnlyFlags(s: State, t: State) {
    && t == s.(order := t.order, jobs := t.jobs)
    && (forall k :: k in t.jobs ==> k in s.jobs && SameCore(s.jobs[k], t.jobs[k]))
    && (forall k :: k in s.jobs && !Prunable(s.options, s.jobs[k]) ==> k in t.jobs)
  }

  lemma ReportsOnlyFlag(s: State, e: Event)
    requires OfReports(e)
    ensures OnlyFlags(s, ReportStep(s, e))
  {
    match e
    case ClaimEvent(owner, id, expired) => ClaimOnlyFlags(s, owner, id, expired);
    case SettleEvent(id, owner, committed, expired) => SettleOnlyFlags(s, owner, id, committed, expired);
  }

  lemma ClaimOnlyFlags(s: State, owner: string, id: Id, expired: set<Id>)
    ensures OnlyFlags(s, ClaimCompletion(s, owner, id, expired).0)
  {
  }

  lemma SettleOnlyFlags(s: State, owner: string, id: Id, committed: bool, expired: set<Id>)
    ensures OnlyFlags(s, FinishCompletion(s, owner, id, committed, expired))
  {
  }

  lemma ReportsAreQuiet(s: State, e: Event)
    requires OfReports(e)
    ensures ReportStep(s, e).tasks == s.tasks && ReportStep(s, e).teams == s.teams
  {
  }

  lemma TeamStepKeepsInv(s: State, e: Event)
    requires Inv(s) && OfTeams(e)
    ensures Inv(TeamStep(s, e))
  {
    match e
    case CreateEvent(owner, names, max, generated, refused) => CreateKeepsInv(s, owner, names, max, generated, refused);
    case JoinEvent(owner, name, max, refused) => AddMemberKeepsInv(s, owner, name, max, refused);
    case SubmitEvent(owner, request, expired) => SubmitKeepsInv(s, owner, request, expired);
    case ReviewEvent(owner, review, expired) => UpdateKeepsInv(s, owner, review, expired);
    case StopEvent(owner) => StopByOwnerKeepsInv(s, owner);
    case CancelOwnerEvent(owner, turn) => CancelOwnerKeepsInv(s, owner, turn);
    case CloseEvent => CloseKeepsInv(s);
  }

  /** Every event keeps the invariant. */
  lemma StepKeepsInv(s: State, e: Event)
    requires Inv(s)
    ensures Inv(Step(s, e))
  {
    if OfJobs(e) {
      JobStepKeepsInv(s, e);
    } else if OfReports(e) {
      ReportStepKeepsInv(s, e);
    } else {
      TeamStepKeepsInv(s, e);
    }
  }

  /** `run` is what the service goes through for these events. */
  ghost predicate Run(run: seq<State>, events: seq<Event>) {
    && |run| == |events| + 1
    && (forall i :: 0 <= i < |events| ==> run[i + 1] == Step(run[i], events[i]))
  }

  lemma InitInv(options: Options)
    ensures Inv(Init(options))
  {
    var s := Init(options);
    assert LiveJobs(s) == {} && Unfinished(s) == {} && WaitingTasks(s) == {};
  }

  /** Step `n` of the run keeps property `good`. */
  ghost predicate Keeps<T(!new)>(run: seq<T>, good: T -> bool, n: nat) {
    n + 1 < |run| && (good(run[n]) ==> good(run[n + 1]))
  }

  lemma {:induction false} Throughout<T(!new)>(run: seq<T>, good: T -> bool, i: nat, j: nat)
    requires i <= j < |run| && good(run[i]) && (forall n :: i <= n < j ==> Keeps(run, good, n))
    ensures good(run[j])
    decreases j
  {
    if i < j {
      Throughout(run, good, i, j - 1);
      assert Keeps(run, good, j - 1);
    }
  }

  /** Over every sequence of events every state satisfies the invariant. */
  lemma RunKeepsInv(run: seq<State>, events: seq<Event>, n: nat)
    requires Run(run, events) && Inv(run[0]) && n < |run|
    ensures Inv(run[n])
  {
    forall k | 0 <= k < n ensures Keeps(run, Inv, k) {
      if Inv(run[k]) {
        StepKeepsInv(run[k], events[k]);
      }
    }
    Throughout(run, Inv, 0, n);
  }

  /** From the start, whatever happens: the counter is exact and bounded, the queue and the records
      are bounded, and every waiting task still has its record reserved. */
  lemma EveryRunIsBounded(run: seq<State>, events: seq<Event>, options: Options, n: nat)
    requires Run(run, events) && run[0] == Init(options) && n < |run|
    ensures run[n].active == |LiveJobs(run[n])| <= run[n].options.maxRunning
    ensures |Unfinished(run[n])| <= run[n].options.maxRunning + run[n].options.maxQueued
    ensures |run[n].jobs| + |WaitingTasks(run[n])| <= run[n].options.maxRecords
    ensures |run[n].teamOrder| <= MAX_TEAMS
  {
    InitInv(options);
    RunKeepsInv(run, events, n);
  }

  // ---------------------------------------------------------------- jobs and tasks in step

  /** Job `id` and task `p` belong together: same team, key, run and attempt, and states in step. */
  predicate InStep(s: State, id: Id, p: Slot) {
    && id in s.jobs && p in s.tasks && s.jobs[id].team == Some(p.team) && s.jobs[id].key == p.key
    && s.tasks[p].runId == Some(id) && s.tasks[p].attempt == s.jobs[id].attempt
    && s.tasks[p].state == Mapped(s.jobs[id].state)
  }

  /** Each unfinished team job is in step with exactly one task. */
  lemma JobsMatchOneTask(s: State, id: Id)
    requires Inv(s) && id in s.jobs && s.jobs[id].teamId.Some? && !Terminal(s.jobs[id].state)
    ensures exists p :: InStep(s, id, p) && Active(s.tasks[p].state) && forall q :: InStep(s, id, q) ==> q == p
  {
    assert LinkedJob(s, id, s.jobs[id]);
    var p := Slot(s.jobs[id].team.value, s.jobs[id].key);
    assert InStep(s, id, p);
  }

  /** Each task under way is in step with exactly one job, and its member has no other. */
  lemma ActiveTasksMatchOneJob(s: State, p: Slot)
    requires Inv(s) && p in s.tasks && Active(s.tasks[p].state)
    ensures exists id :: InStep(s, id, p) && !Terminal(s.jobs[id].state) && forall k :: InStep(s, k, p) ==> k == id
    ensures forall q :: q in s.tasks && Busy(s, p, q) ==> q == p
  {
    var id := JobOf(s, p);
    assert InStep(s, id, p);
  }

  // ---------------------------------------------------------------- reservation

  /** A waiting task never lacks a record: the reservation made for it is still there. */
  lemma ReservationIsHonoured(s: State, p: Slot)
    requires Inv(s) && !s.closed && p in s.tasks && s.tasks[p].state.Waiting?
    ensures HasRecordCapacity(s, true)
  {
    SizeOfOrder(s);
    assert p in WaitingTasks(s);
  }

  /** Room that was there before an identity was drawn is still there when the job is queued, so a
      launch never fails for lack of capacity. */
  lemma RoomLasts(s: State, expired: set<Id>)
    requires Inv(s) && HasCapacity(s, true)
    ensures HasCapacity(Prune(s, expired), true)
  {
    PruneKeepsInv(s, expired);
    ForgettingCounts(s, Prune(s, expired));
  }

  // ---------------------------------------------------------------- what may become of a task

  /** Changes that neither report, accept nor revise. */
  predicate Quiet(a: Task, b: Task) {
    && b.index == a.index && b.member == a.member && b.dependsOn == a.dependsOn && b.attempt == a.attempt
    && (a.state.Accepted? ==> b == a) && (b.state.Accepted? ==> a.state.Accepted?)
    && (b.state.InReview? ==> a.state.InReview? && b.report == a.report) && (b.state.Waiting? ==> a.state.Waiting?)
  }

  ghost predicate QuietTasks(a: map<Slot, Task>, b: map<Slot, Task>) {
    forall p :: p in a ==> p in b && Quiet(a[p], b[p])
  }

  ghost predicate QuietBoard(s: State, t: State) {
    QuietTasks(s.tasks, t.tasks)
  }

  lemma QuietTransitive(s: State, t: State, u: State)
    requires QuietBoard(s, t) && QuietBoard(t, u)
    ensures QuietBoard(s, u)
  {
    forall p | p in s.tasks ensures Quiet(s.tasks[p], u.tasks[p]) {
      assert Quiet(s.tasks[p], t.tasks[p]) && Quiet(t.tasks[p], u.tasks[p]);
    }
  }

  /** The task of a job that moves on without success. */
  lemma AdvanceIsQuiet(s: State, id: Id, job: Job)
    requires id in s.jobs && LinkedJob(s, id, s.jobs[id]) && LegalMove(s.jobs[id], job) && !job.state.Succeeded?
    ensures QuietBoard(s, Advance(s, id, job))
  {
    var t := Advance(s, id, job);
    assert s.tasks.Keys <= t.tasks.Keys;
    forall p | p in s.tasks ensures Quiet(s.tasks[p], t.tasks[p]) {
    }
  }

  lemma CancelIsQuiet(s: State, id: Id, timeout: bool)
    requires LinkedJobs(s)
    ensures QuietBoard(s, CancelJob(s, id, timeout))
  {
    if id in s.jobs {
      assert LinkedJob(s, id, s.jobs[id]);
      if !Ending(s.jobs[id].state) {
        AdvanceIsQuiet(s, id, CancelledJob(s.jobs[id], timeout));
      }
    }
  }

  lemma {:induction false} CancelEachIsQuiet(s: State, ids: seq<Id>)
    requires Inv(s)
    ensures QuietBoard(s, CancelEach(s, ids))
    decreases |ids|
  {
    if ids != [] {
      var t := CancelJob(s, ids[0], false);
      CancelKeepsInv(s, ids[0], false);
      CancelIsQuiet(s, ids[0], false);
      CancelEachIsQuiet(t, ids[1..]);
      QuietTransitive(s, t, CancelEach(s, ids));
    }
  }

  lemma StartOneIsQuiet(s: State, id: Id, broken: set<Id>)
    requires LinkedJobs(s)
    ensures QuietBoard(s, StartOne(s, id, broken))
  {
    if id in s.jobs && s.jobs[id].state.Queued? {
      assert LinkedJob(s, id, s.jobs[id]);
      if id in broken {
        CancelIsQuiet(s, id, false);
      } else {
        AdvanceIsQuiet(s, id, s.jobs[id].(state := JobState.Running));
      }
    }
  }

  lemma {:induction false} StartEachIsQuiet(s: State, ids: seq<Id>, broken: set<Id>)
    requires Inv(s)
    ensures QuietBoard(s, StartEach(s, ids, broken))
    decreases |ids|
  {
    if ids != [] && s.active < s.options.maxRunning {
      var t := StartOne(s, ids[0], broken);
      StartOneKeepsInv(s, ids[0], broken);
      StartOneIsQuiet(s, ids[0], broken);
      StartEachIsQuiet(t, ids[1..], broken);
      QuietTransitive(s, t, StartEach(s, ids, broken));
    }
  }

  lemma LaunchIsQuiet(s: State, p: Slot, choice: Choice)
    ensures QuietBoard(s, Launch(s, p, choice).0)
  {
  }

  lemma {:induction false} LaunchEachIsQuiet(s: State, slots: seq<Slot>, choices: Slot -> Choice)
    ensures QuietBoard(s, LaunchEach(s, slots, choices))
    decreases |slots|
  {
    if slots != [] {
      var (t, full) := Launch(s, slots[0], choices(slots[0]));
      LaunchIsQuiet(s, slots[0], choices(slots[0]));
      if !full {
        LaunchEachIsQuiet(t, slots[1..], choices);
        QuietTransitive(s, t, LaunchEach(s, slots, choices));
      }
    }
  }

  lemma PumpIsQuiet(s: State, choices: Slot -> Choice, broken: set<Id>)
    requires Inv(s)
    ensures QuietBoard(s, Pump(s, choices, broken))
  {
    if !s.closed {
      var t := PumpTeams(s, choices);
      LaunchEachIsQuiet(s, Slots(s.teamOrder, s.teams), choices);
      LaunchEachKeepsInv(s, Slots(s.teamOrder, s.teams), choices);
      StartEachIsQuiet(t, t.order, broken);
      QuietTransitive(s, t, Pump(s, choices, broken));
    }
  }

  lemma CloseBoardIsQuiet(s: State, h: Handle)
    requires h in s.teams
    ensures QuietBoard(s, CloseBoard(s, h))
  {
  }

  lemma StopIsQuiet(s: State, h: Handle)
    requires Inv(s)
    ensures QuietBoard(s, StopTeam(s, h))
  {
    if h in s.teams {
      var ids := Only(s.order, JobsOfTeam(s, s.teams[h]));
      CancelEachIsQuiet(s, ids);
      CancelEachIsOnward(s, ids);
      CloseBoardIsQuiet(CancelEach(s, ids), h);
      QuietTransitive(s, CancelEach(s, ids), StopTeam(s, h));
    }
  }

  lemma {:induction false} StopEachIsQuiet(s: State, hs: seq<Handle>)
    requires Inv(s)
    ensures QuietBoard(s, StopEach(s, hs))
    decreases |hs|
  {
    if hs != [] {
      var t := StopTeam(s, hs[0]);
      StopKeepsInv(s, hs[0]);
      StopIsQuiet(s, hs[0]);
      StopEachIsQuiet(t, hs[1..]);
      QuietTransitive(s, t, StopEach(s, hs));
    }
  }

  lemma CloseIsQuiet(s: State)
    requires Inv(s)
    ensures QuietBoard(s, Close(s))
  {
    var t := StopEach(s, s.teamOrder);
    StopEachKeepsInv(s, s.teamOrder);
    StopEachIsQuiet(s, s.teamOrder);
    CancelEachIsQuiet(t, t.order);
    QuietTransitive(s, t, CancelEach(t, t.order));
  }

  lemma CancelWaitingIsQuiet(s: State, h: Handle, turn: Id)
    ensures QuietBoard(s, CancelWaiting(s, h, turn))
  {
  }

  lemma CancelOwnerIsQuiet(s: State, owner: string, turn: Option<Id>)
    requires Inv(s)
    ensures QuietBoard(s, CancelOwner(s, owner, turn))
  {
    var found := FindTeam(s.teamOrder, s.teams, owner);
    var t :=
      if found.None? then s
      else if turn.None? then StopTeam(s, found.value)
      else CancelWaiting(s, found.value, turn.value);
    if found.Some? && turn.None? {
      StopKeepsInv(s, found.value);
      StopIsQuiet(s, found.value);
    } else if found.Some? {
      CancelWaitingKeepsInv(s, found.value, turn.value);
      CancelWaitingIsQuiet(s, found.value, turn.value);
    }
    var ids := Only(t.order, JobsOfOwner(t, owner, turn));
    CancelEachIsQuiet(t, ids);
    QuietTransitive(s, t, CancelEach(t, ids));
  }

  lemma SetStateIsQuiet(s: State, p: Slot)
    requires p in s.tasks && !s.tasks[p].state.Accepted?
    ensures QuietBoard(s, SetState(s, p, TaskState.Cancelled))
  {
  }

  /** Linked jobs, in order. */
  ghost predicate JobLinks(s: State) {
    OrderedJobs(s) && LinkedJobs(s) && LinkedTasks(s)
  }

  lemma PruneKeepsLinks(s: State, expired: set<Id>)
    requires JobLinks(s)
    ensures LinkedJobs(Prune(s, expired))
  {
    PruneForgets(s, expired);
    ForgettingKeepsLinks(s, Prune(s, expired));
  }

  lemma CancelTaskIsQuiet(s: State, p: Slot, expired: set<Id>)
    requires JobLinks(s) && p in s.tasks && p.team in s.teams && !s.tasks[p].state.Accepted?
    ensures QuietBoard(s, CancelTask(s, p, expired))
  {
    var t := Prune(s, expired);
    PruneKeepsLinks(s, expired);
    var run := s.tasks[p].runId;
    var u := if run.Some? && Findable(t, s.teams[p.team].owner, run.value) then CancelJob(t, run.value, false) else t;
    if run.Some? {
      CancelIsQuiet(t, run.value, false);
    }
    assert QuietBoard(s, u);
    if !Active(u.tasks[p].state) {
      assert Quiet(s.tasks[p], u.tasks[p]);
      SetStateIsQuiet(u, p);
      QuietTransitive(s, u, CancelTask(s, p, expired));
    }
  }

  /** The tasks that stay are only changed quietly; those of a dropped team are gone. */
  ghost predicate QuietWhereKept(s: State, t: State) {
    forall p :: p in s.tasks && p in t.tasks ==> Quiet(s.tasks[p], t.tasks[p])
  }

  lemma CreateIsQuiet(
    s: State, owner: string, names: seq<string>, maxChildren: nat, id: Result<Id>, refused: string -> Option<ErrorKind>)
    ensures QuietWhereKept(s, CreateTeam(s, owner, names, maxChildren, id, refused).0)
  {
  }

  /** A key the team does not list has no task. */
  lemma UnlistedKey(s: State, h: Handle, key: Key)
    requires GoodBoard(s) && h in s.teams && key !in s.teams[h].keys
    ensures Slot(h, key) !in s.tasks
  {
    assert forall p :: p in s.tasks ==> GoodTask(s, p, s.tasks[p]);
  }

  lemma SubmitIsQuiet(s: State, owner: string, request: Request, expired: set<Id>)
    requires GoodBoard(s)
    ensures QuietBoard(s, SubmitTask(s, owner, request, expired).0)
  {
    var found := FindTeam(s.teamOrder, s.teams, owner);
    var t := SubmitTask(s, owner, request, expired).0;
    if SubmitTask(s, owner, request, expired).1.Ok? {
      UnlistedKey(s, found.value, request.key);
      assert forall p :: p in s.tasks ==> p in t.tasks && t.tasks[p] == s.tasks[p];
    } else {
      assert t.tasks == s.tasks;
    }
  }

  /** How task `p` may change in one event other than quietly: by the report of the job that runs
      its current attempt, or by the leader's verdict on its current attempt. */
  predicate Reported(s: State, e: Event, p: Slot, b: Task)
    requires p in s.tasks
  {
    e.FinishEvent? && InStep(s, e.id, p) && TaskEnds(s.tasks[p], s.jobs[e.id], e.outcome, b)
  }

  /** How a live job ends: a stopped one as it was stopped, any other one by what its child returned. */
  predicate JobEnds(a: Job, outcome: Result<string>, b: Job) {
    && b == a.(state := b.state, error := b.error, result := b.result, team := None)
    && (if a.state.Cancelling? then
          && b.result == a.result
          && (if a.timedOut then b.state == JobState.Failed && b.error == Some(Timeout)
              else b.state == JobState.Cancelled && b.error == Some(ErrorKind.Cancelled))
        else if outcome.Ok? then b.state == Succeeded && b.result == outcome.value && b.error == a.error
        else
          && b.result == a.result && b.error == Some(outcome.kind)
          && b.state == (if outcome.kind == ErrorKind.Cancelled then JobState.Cancelled else JobState.Failed))
  }

  /** What the task of such a job becomes. */
  predicate TaskEnds(a: Task, job: Job, outcome: Result<string>, b: Task) {
    && b == a.(state := b.state, error := b.error, report := b.report)
    && (if job.state.Cancelling? then
          && b.report == job.result
          && (if job.timedOut then b.state == TaskState.Failed && b.error == Some(Timeout)
              else b.state == TaskState.Cancelled && b.error == Some(ErrorKind.Cancelled))
        else if outcome.Ok? then b.state == InReview && b.report == outcome.value && b.error == job.error
        else
          && b.report == job.result && b.error == Some(outcome.kind)
          && b.state == (if outcome.kind == ErrorKind.Cancelled then TaskState.Cancelled else TaskState.Failed))
  }

  lemma FinishedEnds(a: Job, outcome: Result<string>)
    requires Live(a.state)
    ensures Terminal(FinishedJob(a, outcome).state) && JobEnds(a, outcome, FinishedJob(a, outcome).(team := None))
    ensures forall task :: TaskEnds(task, a, outcome, TaskAfter(task, FinishedJob(a, outcome)))
  {
  }

  /** The next attempt of a task starts over with nothing of the last one. */
  predicate NextAttempt(a: Task, turn: Option<Id>, b: Task) {
    && b.attempt == a.attempt + 1 && b.state == Waiting && b.turn == turn
    && b.runId == None && b.report == "" && b.error == None
    && b.index == a.index && b.member == a.member && b.dependsOn == a.dependsOn
  }

  predicate Judged(s: State, e: Event, p: Slot, b: Task)
    requires p in s.tasks
  {
    var a := s.tasks[p];
    && e.ReviewEvent? && e.review.key == p.key && e.review.attempt == a.attempt
    && ((e.review.action.Accept? && a.state.InReview? && b == a.(state := Accepted))
     || (e.review.action.Revise? && (a.state.InReview? || a.state.Failed?) && a.attempt < MAX_ATTEMPTS && NextAttempt(a, e.review.turn, b)))
  }

  lemma FinishReports(s: State, e: Event, p: Slot)
    requires LinkedJobs(s) && e.FinishEvent? && p in s.tasks
    ensures var t := Finish(s, e.id, e.outcome);
      p in t.tasks && (t.tasks[p] == s.tasks[p] || Reported(s, e, p, t.tasks[p]))
  {
    if e.id in s.jobs && Live(s.jobs[e.id].state) {
      FinishedEnds(s.jobs[e.id], e.outcome);
      AdvanceReports(s, e.id, FinishedJob(s.jobs[e.id], e.outcome), p);
    }
  }

  lemma AdvanceReports(s: State, id: Id, job: Job, p: Slot)
    requires id in s.jobs && LinkedJob(s, id, s.jobs[id]) && LegalMove(s.jobs[id], job) && p in s.tasks
    ensures var t := Advance(s, id, job);
      p in t.tasks && (t.tasks[p] == s.tasks[p] || (InStep(s, id, p) && t.tasks[p] == TaskAfter(s.tasks[p], job)))
  {
  }

  lemma ReviewJudges(s: State, e: Event, p: Slot)
    requires GoodBoard(s) && JobLinks(s) && e.ReviewEvent? && p in s.tasks
    ensures var t := UpdateTask(s, e.owner, e.review, e.expired).0;
      p in t.tasks && (Quiet(s.tasks[p], t.tasks[p]) || Judged(s, e, p, t.tasks[p]))
  {
    var found := FindTeam(s.teamOrder, s.teams, e.owner);
    var t := UpdateTask(s, e.owner, e.review, e.expired).0;
    UpdateMisses(s, e.owner, e.review, e.expired);
    if t.tasks != s.tasks {
      var q := Slot(found.value, e.review.key);
      assert GoodTask(s, q, s.tasks[q]);
      UpdateCases(s, e.owner, e.review, e.expired, q);
      if t == CancelTask(s, q, e.expired) && !s.tasks[q].state.Accepted? {
        CancelTaskIsQuiet(s, q, e.expired);
      } else if p != q {
        assert t.tasks[p] == s.tasks[p];
      }
    }
  }

  lemma UpdateMisses(s: State, owner: string, review: Review, expired: set<Id>)
    ensures var found := FindTeam(s.teamOrder, s.teams, owner);
      UpdateTask(s, owner, review, expired).0.tasks == s.tasks ||
      (found.Some? && found.value in s.teams && Slot(found.value, review.key) in s.tasks)
  {
  }

  /** The five ways a verdict can end, on task `q`. */
  lemma UpdateCases(s: State, owner: string, review: Review, expired: set<Id>, q: Slot)
    requires FindTeam(s.teamOrder, s.teams, owner) == Some(q.team) && q.team in s.teams && q in s.tasks && q.key == review.key
    requires 1 <= s.tasks[q].attempt <= MAX_ATTEMPTS
    ensures var t, a := UpdateTask(s, owner, review, expired).0, s.tasks[q];
      || t.tasks == s.tasks
      || (review.action.Cancel? && !a.state.Accepted? && t == CancelTask(s, q, expired))
      || (review.action.Accept? && review.attempt == a.attempt && a.state.InReview?
        && t.tasks == s.tasks[q := a.(state := Accepted)])
      || (review.action.Revise? && review.attempt == a.attempt && (a.state.InReview? || a.state.Failed?)
        && a.attempt < MAX_ATTEMPTS && t.tasks == s.tasks[q := Retry(a, review.turn)])
  {
  }

  lemma StartJobIsQuiet(s: State, owner: string, turn: Option<Id>, choice: Choice)
    ensures StartJob(s, owner, turn, choice).0.tasks == s.tasks
  {
  }

  lemma CancelOwnedIsQuiet(s: State, owner: string, id: Id, expired: set<Id>)
    requires JobLinks(s)
    ensures QuietBoard(s, CancelOwned(s, owner, id, expired))
  {
    var t := Prune(s, expired);
    PruneKeepsLinks(s, expired);
    CancelIsQuiet(t, id, false);
    QuietTransitive(s, t, CancelJob(t, id, false));
  }

  lemma JobStepIsQuiet(s: State, e: Event)
    requires Inv(s) && OfJobs(e) && !e.FinishEvent?
    ensures QuietBoard(s, JobStep(s, e))
  {
    match e
    case StartEvent(owner, turn, choice) => StartJobIsQuiet(s, owner, turn, choice);
    case DeadlineEvent(id) => CancelIsQuiet(s, id, true);
    case CancelEvent(id, owner, expired) => CancelOwnedIsQuiet(s, owner, id, expired);
    case PruneEvent(_) =>
    case PumpEvent(choices, broken) => PumpIsQuiet(s, choices, broken);
  }

  lemma StopByOwnerIsQuiet(s: State, owner: string)
    requires Inv(s)
    ensures QuietBoard(s, StopByOwner(s, owner).0)
  {
    var found := FindTeam(s.teamOrder, s.teams, owner);
    if found.Some? {
      StopIsQuiet(s, found.value);
    }
  }

  lemma JoinIsQuiet(s: State, owner: string, name: string, maxChildren: nat, refused: string -> Option<ErrorKind>)
    ensures AddMember(s, owner, name, maxChildren, refused).0.tasks == s.tasks
  {
  }

  lemma TeamStepIsQuiet(s: State, e: Event)
    requires Inv(s) && OfTeams(e) && !e.ReviewEvent? && !e.CreateEvent?
    ensures QuietBoard(s, TeamStep(s, e))
  {
    match e
    case JoinEvent(owner, name, max, refused) => JoinIsQuiet(s, owner, name, max, refused);
    case SubmitEvent(owner, request, expired) => SubmitIsQuiet(s, owner, request, expired);
    case StopEvent(owner) => StopByOwnerIsQuiet(s, owner);
    case CancelOwnerEvent(owner, turn) => CancelOwnerIsQuiet(s, owner, turn);
    case CloseEvent => CloseIsQuiet(s);
  }

  lemma OtherStepsAreQuiet(s: State, e: Event)
    requires Inv(s) && !e.FinishEvent? && !e.ReviewEvent?
    ensures QuietWhereKept(s, Step(s, e))
  {
    if e.CreateEvent? {
      CreateIsQuiet(s, e.owner, e.names, e.maxChildren, e.generated, e.refused);
    } else if OfJobs(e) {
      JobStepIsQuiet(s, e);
    } else if OfReports(e) {
      ReportsAreQuiet(s, e);
    } else {
      TeamStepIsQuiet(s, e);
    }
  }

  /** Over any event, a task that stays is changed quietly, reported by its own job, or judged. */
  lemma TasksChangeLawfully(s: State, e: Event, p: Slot)
    requires Inv(s) && p in s.tasks && p in Step(s, e).tasks
    ensures var b := Step(s, e).tasks[p]; Quiet(s.tasks[p], b) || Reported(s, e, p, b) || Judged(s, e, p, b)
  {
    if e.FinishEvent? {
      FinishReports(s, e, p);
    } else if e.ReviewEvent? {
      ReviewJudges(s, e, p);
    } else {
      OtherStepsAreQuiet(s, e);
    }
  }
}

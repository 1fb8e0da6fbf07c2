/** Background jobs and agent teams as values (src/oran-bootstrap/background_tasks.cpp,
    team-scheduling.cpp and agent-team.cpp). A vector of shared pointers is the order of its
    identities with one record per identity; what happens between two suspensions is one step. */
module TaskBoard {
  import opened Core

  type Id = string
  type Key = string
  type Handle = nat

  datatype JobState = Queued | Running | Cancelling | Succeeded | Failed | Cancelled
  datatype TaskState = Waiting | Queued | Running | Cancelling | InReview | Accepted | Failed | Cancelled

  datatype Options = Options(maxRunning: nat, maxQueued: nat, maxRecords: nat, automaticDelivery: bool)

  /** A background job. `team` is its pointer to the team it works for, `teamId`, `key` and
      `attempt` the assignment it was launched for. `commits` counts how often its report was
      committed to the parent. */
  datatype Job = Job(
    owner: string,
    turn: Option<Id>,
    state: JobState,
    acknowledged: bool,
    claimed: bool,
    commits: nat,
    automatic: bool,
    timedOut: bool,
    error: Option<ErrorKind>,
    result: string,
    team: Option<Handle>,
    teamId: Option<Id>,
    key: Key,
    attempt: nat)

  /** A team with its specialists and the keys of its tasks in the order of their creation. */
  datatype Team = Team(owner: string, id: Id, stopped: bool, members: seq<string>, keys: seq<Key>)

  datatype Slot = Slot(team: Handle, key: Key)

  /** A task of a team: entry `index` of the team's vector of work. */
  datatype Task = Task(
    index: nat,
    member: string,
    dependsOn: seq<Key>,
    turn: Option<Id>,
    state: TaskState,
    attempt: nat,
    runId: Option<Id>,
    report: string,
    error: Option<ErrorKind>)

  datatype State = State(
    options: Options,
    order: seq<Id>,
    jobs: map<Id, Job>,
    teamOrder: seq<Handle>,
    teams: map<Handle, Team>,
    tasks: map<Slot, Task>,
    active: int,
    closed: bool,
    nextHandle: Handle)

  const MAX_TEAMS: nat := 16
  const MAX_MEMBERS: nat := 4
  const MAX_TASKS: nat := 32
  const MAX_ATTEMPTS: nat := 3

  function Init(options: Options): State {
    State(options, [], map[], [], map[], map[], 0, false, 0)
  }

  predicate Terminal(state: JobState) {
    state.Succeeded? || state.Failed? || state.Cancelled?
  }

  predicate Live(state: JobState) {
    state.Running? || state.Cancelling?
  }

  predicate Active(state: TaskState) {
    state.Queued? || state.Running? || state.Cancelling?
  }

  /** The state of a task while its job is in `state`. */
  function Mapped(state: JobState): TaskState {
    match state
    case Queued => TaskState.Queued
    case Running => TaskState.Running
    case Cancelling => TaskState.Cancelling
    case Succeeded => InReview
    case Failed => TaskState.Failed
    case Cancelled => TaskState.Cancelled
  }

  // ---------------------------------------------------------------- counting

  ghost function LiveJobs(s: State): set<Id> {
    set id | id in s.jobs && Live(s.jobs[id].state)
  }

  ghost function Unfinished(s: State): set<Id> {
    set id | id in s.jobs && !Terminal(s.jobs[id].state)
  }

  ghost function WaitingTasks(s: State): set<Slot> {
    set p | p in s.tasks && s.tasks[p].state.Waiting?
  }

  ghost predicate HasRecordCapacity(s: State, reserved: bool) {
    var waiting := |WaitingTasks(s)|;
    !s.closed && |s.order| + (if reserved && waiting > 0 then waiting - 1 else waiting) < s.options.maxRecords
  }

  ghost predicate HasCapacity(s: State, reserved: bool) {
    HasRecordCapacity(s, reserved) && |Unfinished(s)| < s.options.maxRunning + s.options.maxQueued
  }

  // ---------------------------------------------------------------- jobs

  function Without(ids: seq<Id>, gone: set<Id>): seq<Id> {
    if ids == [] then []
    else (if ids[0] in gone then [] else [ids[0]]) + Without(ids[1..], gone)
  }

  function Only(ids: seq<Id>, picked: set<Id>): seq<Id> {
    if ids == [] then []
    else (if ids[0] in picked then [ids[0]] else []) + Only(ids[1..], picked)
  }

  predicate Prunable(options: Options, job: Job) {
    Terminal(job.state) && !job.claimed && (!options.automaticDelivery || job.acknowledged)
  }

  function Dropped(s: State, expired: set<Id>): set<Id> {
    set id | id in s.jobs && id in expired && Prunable(s.options, s.jobs[id])
  }

  /** Forgets the finished jobs whose retention has passed, which is what `expired` says. */
  function Prune(s: State, expired: set<Id>): State {
    var gone := Dropped(s, expired);
    s.(order := Without(s.order, gone), jobs := s.jobs - gone)
  }

  /** Job `id` works on this task: same key, run and attempt. */
  predicate Assigned(s: State, id: Id, job: Job) {
    && job.team.Some? && Slot(job.team.value, job.key) in s.tasks
    && s.tasks[Slot(job.team.value, job.key)].runId == Some(id)
    && s.tasks[Slot(job.team.value, job.key)].attempt == job.attempt
  }

  function TaskAfter(task: Task, job: Job): Task {
    if Terminal(job.state) then task.(state := Mapped(job.state), error := job.error, report := job.result)
    else task.(state := Mapped(job.state))
  }

  /** The board after the task of a job has been told the job's state. */
  function Told(s: State, id: Id, job: Job): map<Slot, Task> {
    if Assigned(s, id, job) then
      var p := Slot(job.team.value, job.key);
      s.tasks[p := TaskAfter(s.tasks[p], job)]
    else s.tasks
  }

  function Weight(state: JobState): int {
    if Live(state) then 1 else 0
  }

  /** Job `id` becomes `job`: its task is told, a finished job lets go of its team. */
  function Advance(s: State, id: Id, job: Job): State
    requires id in s.jobs
  {
    s.(
      jobs := s.jobs[id := if Terminal(job.state) then job.(team := None) else job],
      tasks := Told(s, id, job),
      active := s.active + Weight(job.state) - Weight(s.jobs[id].state))
  }

  /** A job that is asked to stop, by a caller or by its deadline. */
  function CancelledJob(job: Job, timeout: bool): Job {
    var j := job.(timedOut := job.timedOut || timeout, acknowledged := job.acknowledged || !timeout);
    if job.state.Queued? then
      j.(state := if timeout then JobState.Failed else JobState.Cancelled,
         error := Some(if timeout then Timeout else ErrorKind.Cancelled))
    else j.(state := JobState.Cancelling)
  }

  function CancelJob(s: State, id: Id, timeout: bool): State {
    if id !in s.jobs then s
    else
      var job := s.jobs[id];
      if Terminal(job.state) || job.state.Cancelling? then
        s.(jobs := s.jobs[id := job.(acknowledged := job.acknowledged || !timeout)])
      else Advance(s, id, CancelledJob(job, timeout))
  }

  function CancelEach(s: State, ids: seq<Id>): State
    decreases |ids|
  {
    if ids == [] then s else CancelEach(CancelJob(s, ids[0], false), ids[1..])
  }

  /** How the child of a job ended. */
  function FinishedJob(job: Job, outcome: Result<string>): Job {
    if job.state.Cancelling? then
      job.(state := if job.timedOut then JobState.Failed else JobState.Cancelled,
           error := Some(if job.timedOut then Timeout else ErrorKind.Cancelled))
    else if outcome.Err? then
      job.(state := if outcome.kind.Cancelled? then JobState.Cancelled else JobState.Failed, error := Some(outcome.kind))
    else job.(state := Succeeded, result := outcome.value)
  }

  /** The monitor of a running or cancelling job. */
  function Finish(s: State, id: Id, outcome: Result<string>): State {
    if id in s.jobs && Live(s.jobs[id].state) then Advance(s, id, FinishedJob(s.jobs[id], outcome)) else s
  }

  // ---------------------------------------------------------------- admission

  function NewJob(s: State, owner: string, turn: Option<Id>): Job {
    Job(owner, turn, JobState.Queued, false, false, 0, s.options.automaticDelivery, false, None, "", None, None, "", 0)
  }

  function Pushed(s: State, id: Id, job: Job): State {
    s.(order := s.order + [id], jobs := s.jobs[id := job])
  }

  ghost function Enqueue(s: State, id: Id, job: Job, expired: set<Id>): (State, Result<()>) {
    var t := Prune(s, expired);
    if !HasCapacity(t, job.team.Some?) then (t, Err(MailboxOverflowed))
    else if id in t.jobs then (t, Err(Conflict))
    else (Pushed(t, id, job), Ok(()))
  }

  /** What the environment decides when one task is launched. */
  datatype Choice = Choice(expired: set<Id>, generated: Result<Id>, expiredLater: set<Id>)

  /** A plain background job of `owner`. */
  ghost function StartJob(s: State, owner: string, turn: Option<Id>, choice: Choice): (State, Result<()>) {
    var t := Prune(s, choice.expired);
    if t.closed || |t.order| >= t.options.maxRecords || |Unfinished(t)| >= t.options.maxRunning + t.options.maxQueued then
      (t, Err(MailboxOverflowed))
    else if choice.generated.Err? then (t, Err(choice.generated.kind))
    else if choice.generated.value in t.jobs then (t, Err(Conflict))
    else Enqueue(t, choice.generated.value, NewJob(t, owner, turn), choice.expiredLater)
  }

  // ---------------------------------------------------------------- launching the tasks of teams

  predicate Ready(s: State, p: Slot)
    requires p in s.tasks
  {
    forall d :: d in s.tasks[p].dependsOn ==> Slot(p.team, d) in s.tasks && s.tasks[Slot(p.team, d)].state.Accepted?
  }

  /** Some task of the team is under way, for this member unless the name is empty. */
  predicate HasActiveWork(s: State, h: Handle, member: string) {
    exists p :: p in s.tasks && p.team == h && (member == "" || s.tasks[p].member == member) && Active(s.tasks[p].state)
  }

  function FailTask(s: State, p: Slot, kind: ErrorKind): State
    requires p in s.tasks
  {
    s.(tasks := s.tasks[p := s.tasks[p].(state := TaskState.Failed, error := Some(kind))])
  }

  function TeamJob(s: State, p: Slot): Job
    requires p in s.tasks && p.team in s.teams
  {
    NewJob(s, s.teams[p.team].owner, s.tasks[p].turn).(
      team := Some(p.team), teamId := Some(s.teams[p.team].id), key := p.key, attempt := s.tasks[p].attempt)
  }

  function Launched(s: State, p: Slot, id: Id): State
    requires p in s.tasks && p.team in s.teams
  {
    Pushed(s, id, TeamJob(s, p)).(tasks := s.tasks[p := s.tasks[p].(state := TaskState.Queued, runId := Some(id))])
  }

  /** This task can be launched if there is room. */
  predicate Launchable(s: State, p: Slot) {
    && p in s.tasks && p.team in s.teams && !s.teams[p.team].stopped && s.tasks[p].state.Waiting? && Ready(s, p)
    && s.tasks[p].member in s.teams[p.team].members && !HasActiveWork(s, p.team, s.tasks[p].member)
  }

  /** Launches task `p` if it is due. The flag says that the scan ends here for lack of room. */
  ghost function Launch(s: State, p: Slot, choice: Choice): (State, bool) {
    if !Launchable(s, p) then (s, false)
    else
      var t := Prune(s, choice.expired);
      if !HasCapacity(t, true) then (t, true)
      else if choice.generated.Err? then (FailTask(t, p, choice.generated.kind), false)
      else
        var u := Prune(t, choice.expiredLater);
        if !HasCapacity(u, true) then (FailTask(u, p, MailboxOverflowed), false)
        else if choice.generated.value in u.jobs then (FailTask(u, p, Conflict), false)
        else (Launched(u, p, choice.generated.value), false)
  }

  ghost function LaunchEach(s: State, slots: seq<Slot>, choices: Slot -> Choice): State
    decreases |slots|
  {
    if slots == [] then s
    else
      var (t, full) := Launch(s, slots[0], choices(slots[0]));
      if full then t else LaunchEach(t, slots[1..], choices)
  }

  function SlotsOf(h: Handle, keys: seq<Key>): seq<Slot> {
    seq(|keys|, i requires 0 <= i < |keys| => Slot(h, keys[i]))
  }

  /** All tasks, team by team. */
  function Slots(order: seq<Handle>, teams: map<Handle, Team>): seq<Slot> {
    if order == [] then []
    else (if order[0] in teams then SlotsOf(order[0], teams[order[0]].keys) else []) + Slots(order[1..], teams)
  }

  ghost function PumpTeams(s: State, choices: Slot -> Choice): State {
    LaunchEach(s, Slots(s.teamOrder, s.teams), choices)
  }

  /** Starts queued jobs in order while there is room; for those in `broken` no group can be made. */
  function StartEach(s: State, ids: seq<Id>, broken: set<Id>): State
    decreases |ids|
  {
    if ids == [] || s.active >= s.options.maxRunning then s
    else StartEach(StartOne(s, ids[0], broken), ids[1..], broken)
  }

  function StartOne(s: State, id: Id, broken: set<Id>): State {
    if id !in s.jobs || !s.jobs[id].state.Queued? then s
    else if id in broken then CancelJob(s, id, false)
    else Advance(s, id, s.jobs[id].(state := JobState.Running))
  }

  ghost function Pump(s: State, choices: Slot -> Choice, broken: set<Id>): State {
    if s.closed then s
    else
      var t := PumpTeams(s, choices);
      StartEach(t, t.order, broken)
  }

  // ---------------------------------------------------------------- teams

  /** The first team of this owner. */
  function FindTeam(order: seq<Handle>, teams: map<Handle, Team>, owner: string): Option<Handle> {
    if order == [] then None
    else if order[0] in teams && teams[order[0]].owner == owner then Some(order[0])
    else FindTeam(order[1..], teams, owner)
  }

  /** A stopped team without work under way may be replaced. */
  predicate Drained(s: State, h: Handle) {
    h in s.teams && s.teams[h].stopped && !HasActiveWork(s, h, "")
  }

  function FindDrained(s: State, order: seq<Handle>): Option<Handle> {
    if order == [] then None else if Drained(s, order[0]) then Some(order[0]) else FindDrained(s, order[1..])
  }

  function WithoutTeam(order: seq<Handle>, h: Handle): seq<Handle> {
    if order == [] then [] else (if order[0] == h then [] else [order[0]]) + WithoutTeam(order[1..], h)
  }

  function DropTeam(s: State, h: Handle): State {
    s.(
      teamOrder := WithoutTeam(s.teamOrder, h),
      teams := s.teams - {h},
      tasks := map p | p in s.tasks && p.team != h :: s.tasks[p])
  }

  function AddTeam(s: State, team: Team): State {
    s.(
      teamOrder := s.teamOrder + [s.nextHandle],
      teams := s.teams[s.nextHandle := team],
      nextHandle := s.nextHandle + 1)
  }

  /** One more specialist; `refused` says why the tools or the session of one cannot be set up. */
  function Joined(members: seq<string>, name: string, maxChildren: nat, refused: string -> Option<ErrorKind>): Result<seq<string>> {
    if |members| >= MAX_MEMBERS || |members| >= maxChildren then Err(MailboxOverflowed)
    else if name in members then Err(Conflict)
    else if refused(name).Some? then Err(refused(name).value)
    else Ok(members + [name])
  }

  function JoinAll(members: seq<string>, names: seq<string>, maxChildren: nat, refused: string -> Option<ErrorKind>):
      Result<seq<string>>
    decreases |names|
  {
    if names == [] then Ok(members)
    else
      var more := Joined(members, names[0], maxChildren, refused);
      if more.Err? then more else JoinAll(more.value, names[1..], maxChildren, refused)
  }

  /** The request of the leader of `owner`; `maxChildren` is its delegation limit and `id` the new
      identity. */
  function CreateTeam(
    s: State, owner: string, names: seq<string>, maxChildren: nat, id: Result<Id>, refused: string -> Option<ErrorKind>):
      (State, Result<()>) {
    var previous := FindTeam(s.teamOrder, s.teams, owner);
    if s.closed then (s, Err(Conflict))
    else if previous.Some? && !Drained(s, previous.value) then (s, Err(Conflict))
    else
      var retired := if previous.None? && |s.teamOrder| >= MAX_TEAMS then FindDrained(s, s.teamOrder) else previous;
      if (retired.None? && |s.teamOrder| >= MAX_TEAMS) || |names| > maxChildren then (s, Err(MailboxOverflowed))
      else if id.Err? then (s, Err(id.kind))
      else
        var members := JoinAll([], names, maxChildren, refused);
        if members.Err? then (s, Err(members.kind))
        else
          var t := if retired.Some? then DropTeam(s, retired.value) else s;
          (AddTeam(t, Team(owner, id.value, false, members.value, [])), Ok(()))
  }

  function AddMember(s: State, owner: string, name: string, maxChildren: nat, refused: string -> Option<ErrorKind>):
      (State, Result<()>) {
    var found := FindTeam(s.teamOrder, s.teams, owner);
    if s.closed then (s, Err(Conflict))
    else if found.None? || found.value !in s.teams then (s, Err(NotFound))
    else
      var team := s.teams[found.value];
      if team.stopped then (s, Err(Conflict))
      else
        var members := Joined(team.members, name, maxChildren, refused);
        if members.Err? then (s, Err(members.kind))
        else (s.(teams := s.teams[found.value := team.(members := members.value)]), Ok(()))
  }

  datatype Request = Request(key: Key, member: string, dependsOn: seq<Key>, turn: Option<Id>)

  function Posted(s: State, h: Handle, request: Request): State
    requires h in s.teams
  {
    var team := s.teams[h];
    var task := Task(|team.keys|, request.member, request.dependsOn, request.turn, Waiting, 1, None, "", None);
    s.(teams := s.teams[h := team.(keys := team.keys + [request.key])], tasks := s.tasks[Slot(h, request.key) := task])
  }

  ghost function SubmitTask(s: State, owner: string, request: Request, expired: set<Id>): (State, Result<()>) {
    var found := FindTeam(s.teamOrder, s.teams, owner);
    if s.closed then (s, Err(Conflict))
    else if found.None? || found.value !in s.teams then (s, Err(NotFound))
    else
      var h := found.value;
      var team := s.teams[h];
      if team.stopped then (s, Err(Conflict))
      else if |team.keys| >= MAX_TASKS then (s, Err(MailboxOverflowed))
      else if request.key in team.keys then (s, Err(Conflict))
      else if request.member !in team.members then (s, Err(NotFound))
      else if exists d :: d in request.dependsOn && d !in team.keys then (s, Err(InvalidArgument))
      else
        var t := Prune(s, expired);
        if !HasRecordCapacity(t, false) then (t, Err(MailboxOverflowed)) else (Posted(t, h, request), Ok(()))
  }

  datatype Action = Accept | Revise | Cancel

  /** The leader's verdict on attempt `attempt` of a task. */
  datatype Review = Review(teamId: Id, key: Key, attempt: nat, action: Action, turn: Option<Id>)

  function SetState(s: State, p: Slot, state: TaskState): State
    requires p in s.tasks
  {
    s.(tasks := s.tasks[p := s.tasks[p].(state := state)])
  }

  /** A further attempt of the task. */
  function Retry(task: Task, turn: Option<Id>): Task {
    task.(attempt := task.attempt + 1, state := Waiting, runId := None, report := "", error := None, turn := turn)
  }

  function Retried(s: State, p: Slot, turn: Option<Id>): State
    requires p in s.tasks
  {
    s.(tasks := s.tasks[p := Retry(s.tasks[p], turn)])
  }

  /** The job `find` returns for this owner. */
  predicate Findable(s: State, owner: string, id: Id) {
    id in s.jobs && s.jobs[id].owner == owner
  }

  function CancelTask(s: State, p: Slot, expired: set<Id>): State
    requires p in s.tasks && p.team in s.teams
  {
    var t := Prune(s, expired);
    var run := s.tasks[p].runId;
    var u := if run.Some? && Findable(t, s.teams[p.team].owner, run.value) then CancelJob(t, run.value, false) else t;
    if p in u.tasks && !Active(u.tasks[p].state) then SetState(u, p, TaskState.Cancelled) else u
  }

  ghost function UpdateTask(s: State, owner: string, review: Review, expired: set<Id>): (State, Result<()>) {
    var found := FindTeam(s.teamOrder, s.teams, owner);
    if s.closed then (s, Err(Conflict))
    else if found.None? || found.value !in s.teams then (s, Err(NotFound))
    else
      var team, p := s.teams[found.value], Slot(found.value, review.key);
      if review.teamId != team.id then (s, Err(Conflict))
      else if p !in s.tasks then (s, Err(NotFound))
      else if s.tasks[p].attempt != review.attempt then (s, Err(Conflict))
      else if s.tasks[p].state.Accepted? then (s, if review.action.Accept? then Ok(()) else Err(Conflict))
      else if review.action.Cancel? then (CancelTask(s, p, expired), Ok(()))
      else if team.stopped then (s, Err(Conflict))
      else if review.action.Accept? then
        if s.tasks[p].state.InReview? then (SetState(s, p, Accepted), Ok(())) else (s, Err(Conflict))
      else if !s.tasks[p].state.InReview? && !s.tasks[p].state.Failed? then (s, Err(Conflict))
      else if s.tasks[p].attempt == MAX_ATTEMPTS then (s, Err(MailboxOverflowed))
      else
        var t := Prune(s, expired);
        if !HasRecordCapacity(t, false) then (t, Err(MailboxOverflowed)) else (Retried(t, p, review.turn), Ok(()))
  }

  // ---------------------------------------------------------------- stopping

  /** The jobs of a team, by owner and team identity as `stop_team` selects them. */
  function JobsOfTeam(s: State, team: Team): set<Id> {
    set id | id in s.jobs && s.jobs[id].owner == team.owner && s.jobs[id].teamId == Some(team.id)
  }

  /** A task of a stopped team: what is neither under way nor accepted is cancelled. */
  function Swept(task: Task): Task {
    if Active(task.state) || task.state.Accepted? then task else task.(state := TaskState.Cancelled)
  }

  function CloseBoard(s: State, h: Handle): State
    requires h in s.teams
  {
    s.(
      teams := s.teams[h := s.teams[h].(stopped := true)],
      tasks := map p | p in s.tasks :: if p.team == h then Swept(s.tasks[p]) else s.tasks[p])
  }

  function StopTeam(s: State, h: Handle): State {
    if h !in s.teams then s
    else
      var t := CancelEach(s, Only(s.order, JobsOfTeam(s, s.teams[h])));
      if h in t.teams then CloseBoard(t, h) else t
  }

  function StopByOwner(s: State, owner: string): (State, Result<()>) {
    var found := FindTeam(s.teamOrder, s.teams, owner);
    if found.None? then (s, Err(NotFound)) else (StopTeam(s, found.value), Ok(()))
  }

  function StopEach(s: State, hs: seq<Handle>): State
    decreases |hs|
  {
    if hs == [] then s else StopEach(StopTeam(s, hs[0]), hs[1..])
  }

  /** The waiting tasks of one turn are cancelled with it. */
  function CalledOff(task: Task, turn: Id): Task {
    if task.turn == Some(turn) && task.state.Waiting? then task.(state := TaskState.Cancelled) else task
  }

  function CancelWaiting(s: State, h: Handle, turn: Id): State {
    s.(tasks := map p | p in s.tasks :: if p.team == h then CalledOff(s.tasks[p], turn) else s.tasks[p])
  }

  function JobsOfOwner(s: State, owner: string, turn: Option<Id>): set<Id> {
    set id | id in s.jobs && s.jobs[id].owner == owner && (turn.None? || s.jobs[id].turn == turn)
  }

  function CancelOwner(s: State, owner: string, turn: Option<Id>): State {
    var found := FindTeam(s.teamOrder, s.teams, owner);
    var t :=
      if found.None? then s
      else if turn.None? then StopTeam(s, found.value)
      else CancelWaiting(s, found.value, turn.value);
    CancelEach(t, Only(t.order, JobsOfOwner(t, owner, turn)))
  }

  /** The first part of `shutdown`: no admission from here on, everything is asked to stop. */
  function Close(s: State): State {
    var t := StopEach(s, s.teamOrder);
    CancelEach(t, t.order).(closed := true)
  }

  // ---------------------------------------------------------------- delivery of reports

  /** A session claims the report of a finished job. */
  function ClaimCompletion(s: State, owner: string, id: Id, expired: set<Id>): (State, Result<bool>) {
    var t := Prune(s, expired);
    if !Findable(t, owner, id) then (t, Err(NotFound))
    else if t.jobs[id].acknowledged then (t, Ok(false))
    else if !Terminal(t.jobs[id].state) || t.jobs[id].claimed then (t, Err(Conflict))
    else (t.(jobs := t.jobs[id := t.jobs[id].(claimed := true)]), Ok(true))
  }

  /** The claim on a report ends; a committed report is acknowledged. */
  function Settled(job: Job, committed: bool): Job {
    job.(
      claimed := false,
      acknowledged := job.acknowledged || committed,
      commits := job.commits + if committed then 1 else 0)
  }

  function FinishCompletion(s: State, owner: string, id: Id, committed: bool, expired: set<Id>): State {
    var t := Prune(s, expired);
    if Findable(t, owner, id) then t.(jobs := t.jobs[id := Settled(t.jobs[id], committed)]) else t
  }
}

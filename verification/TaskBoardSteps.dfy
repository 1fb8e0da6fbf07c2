/** Every step of the job and team service keeps its invariant. */
module TaskBoardSteps {
  import opened Core
  import opened TaskBoard
  import opened TaskBoardInvariant

  // ---------------------------------------------------------------- cancelling

  lemma CancelKeepsInv(s: State, id: Id, timeout: bool)
    requires Inv(s)
    ensures Inv(CancelJob(s, id, timeout))
  {
    if id in s.jobs {
      var job := s.jobs[id];
      if Terminal(job.state) || job.state.Cancelling? {
        FlagKeepsInv(s, id, job.(acknowledged := job.acknowledged || !timeout));
      } else {
        AdvanceKeepsInv(s, id, CancelledJob(job, timeout));
      }
    }
  }

  /** What cancelling does to a job, if anything. */
  predicate Later(a: Job, b: Job) {
    && b.owner == a.owner && b.turn == a.turn && b.teamId == a.teamId && b.key == a.key && b.attempt == a.attempt
    && b.claimed == a.claimed && b.commits == a.commits && b.automatic == a.automatic && (a.acknowledged ==> b.acknowledged)
    && (Terminal(a.state) ==> b.state == a.state && b.result == a.result && b.error == a.error)
    && (Ending(a.state) ==> Ending(b.state)) && (!a.state.Queued? ==> !b.state.Queued?)
  }

  /** Only jobs already known move on, and the board keeps its shape. */
  ghost predicate Onward(s: State, t: State) {
    && t == s.(jobs := t.jobs, tasks := t.tasks, active := t.active)
    && t.jobs.Keys == s.jobs.Keys && t.tasks.Keys == s.tasks.Keys
    && (forall id :: id in s.jobs ==> Later(s.jobs[id], t.jobs[id]))
  }

  lemma OnwardTransitive(s: State, t: State, u: State)
    requires Onward(s, t) && Onward(t, u)
    ensures Onward(s, u)
  {
    forall id | id in s.jobs ensures Later(s.jobs[id], u.jobs[id]) {
      assert Later(s.jobs[id], t.jobs[id]) && Later(t.jobs[id], u.jobs[id]);
    }
  }

  lemma AdvanceIsOnward(s: State, id: Id, job: Job)
    requires id in s.jobs && Later(s.jobs[id], job)
    ensures Onward(s, Advance(s, id, job))
  {
    var t := Advance(s, id, job);
    assert t.jobs.Keys == s.jobs.Keys;
    assert t.tasks.Keys == s.tasks.Keys;
    assert forall k :: k in s.jobs && k != id ==> t.jobs[k] == s.jobs[k];
  }

  lemma FlagIsOnward(s: State, id: Id, job: Job)
    requires id in s.jobs && Later(s.jobs[id], job)
    ensures Onward(s, s.(jobs := s.jobs[id := job]))
  {
    assert s.jobs[id := job].Keys == s.jobs.Keys;
  }

  lemma CancelIsOnward(s: State, id: Id, timeout: bool)
    ensures Onward(s, CancelJob(s, id, timeout))
  {
    if id in s.jobs {
      var job := s.jobs[id];
      if Terminal(job.state) || job.state.Cancelling? {
        FlagIsOnward(s, id, job.(acknowledged := job.acknowledged || !timeout));
      } else {
        CancelledIsLater(job, timeout);
        AdvanceIsOnward(s, id, CancelledJob(job, timeout));
      }
    } else {
      assert Onward(s, s);
    }
  }

  lemma CancelledIsLater(job: Job, timeout: bool)
    requires !Ending(job.state)
    ensures Later(job, CancelledJob(job, timeout))
  {
  }

  lemma CancelEnds(s: State, id: Id, timeout: bool)
    requires id in s.jobs
    ensures id in CancelJob(s, id, timeout).jobs && Ending(CancelJob(s, id, timeout).jobs[id].state)
  {
  }

  lemma {:induction false} CancelEachKeepsInv(s: State, ids: seq<Id>)
    requires Inv(s)
    ensures Inv(CancelEach(s, ids))
    decreases |ids|
  {
    if ids != [] {
      CancelKeepsInv(s, ids[0], false);
      CancelEachKeepsInv(CancelJob(s, ids[0], false), ids[1..]);
    }
  }

  lemma {:induction false} CancelEachIsOnward(s: State, ids: seq<Id>)
    ensures Onward(s, CancelEach(s, ids))
    decreases |ids|
  {
    if ids == [] {
      assert Onward(s, s);
    } else {
      var t := CancelJob(s, ids[0], false);
      CancelIsOnward(s, ids[0], false);
      CancelEachIsOnward(t, ids[1..]);
      OnwardTransitive(s, t, CancelEach(s, ids));
    }
  }

  /** Every job on the list is stopped or stopping afterwards. */
  lemma {:induction false} CancelEachEnds(s: State, ids: seq<Id>, id: Id)
    requires id in ids && id in s.jobs
    ensures id in CancelEach(s, ids).jobs && Ending(CancelEach(s, ids).jobs[id].state)
    decreases |ids|
  {
    var t := CancelJob(s, ids[0], false);
    CancelIsOnward(s, ids[0], false);
    if id == ids[0] {
      CancelEnds(s, id, false);
      CancelEachIsOnward(t, ids[1..]);
      assert Later(t.jobs[id], CancelEach(s, ids).jobs[id]);
    } else {
      CancelEachEnds(t, ids[1..], id);
    }
  }

  lemma FinishKeepsInv(s: State, id: Id, outcome: Result<string>)
    requires Inv(s)
    ensures Inv(Finish(s, id, outcome))
  {
    if id in s.jobs && Live(s.jobs[id].state) {
      AdvanceKeepsInv(s, id, FinishedJob(s.jobs[id], outcome));
    }
  }

  // ---------------------------------------------------------------- admitting jobs

  lemma PushKeepsOrder(s: State, id: Id, job: Job)
    requires OrderedJobs(s) && id !in s.jobs
    ensures OrderedJobs(Pushed(s, id, job)) && |Pushed(s, id, job).jobs| == |s.jobs| + 1
  {
    var t := Pushed(s, id, job);
    assert t.jobs.Keys == s.jobs.Keys + {id};
    assert |t.jobs| == |t.jobs.Keys| && |s.jobs| == |s.jobs.Keys|;
    assert forall k :: k in t.order <==> k in s.order || k == id;
    assert id !in s.order;
  }

  lemma PushCounts(s: State, id: Id, job: Job)
    requires id !in s.jobs && job.state.Queued?
    ensures LiveJobs(Pushed(s, id, job)) == LiveJobs(s)
    ensures |Unfinished(Pushed(s, id, job))| == |Unfinished(s)| + 1
  {
    var t := Pushed(s, id, job);
    assert Unfinished(t) == Unfinished(s) + {id} && id !in Unfinished(s);
  }

  lemma PushKeepsLinks(s: State, id: Id, job: Job)
    requires LinkedJobs(s) && LinkedTasks(s) && id !in s.jobs && job.team.None? && job.teamId.None?
    ensures LinkedJobs(Pushed(s, id, job)) && LinkedTasks(Pushed(s, id, job))
  {
    var t := Pushed(s, id, job);
    forall k | k in t.jobs ensures LinkedJob(t, k, t.jobs[k]) {
      if k != id {
        assert LinkedJob(s, k, s.jobs[k]);
      }
    }
    forall p | p in t.tasks ensures LinkedTask(t, p, t.tasks[p]) {
      assert LinkedTask(s, p, s.tasks[p]);
    }
  }

  lemma PushKeepsInv(s: State, owner: string, turn: Option<Id>, id: Id)
    requires Inv(s) && HasCapacity(s, false) && id !in s.jobs
    ensures Inv(Pushed(s, id, NewJob(s, owner, turn)))
  {
    var job := NewJob(s, owner, turn);
    SizeOfOrder(s);
    PushKeepsOrder(s, id, job);
    PushCounts(s, id, job);
    assert WaitingTasks(Pushed(s, id, job)) == WaitingTasks(s);
    PushKeepsLinks(s, id, job);
    SameBoard(s, Pushed(s, id, job));
  }

  lemma StartJobKeepsInv(s: State, owner: string, turn: Option<Id>, choice: Choice)
    requires Inv(s)
    ensures Inv(StartJob(s, owner, turn, choice).0)
  {
    var t := Prune(s, choice.expired);
    PruneKeepsInv(s, choice.expired);
    if StartJob(s, owner, turn, choice).0 != t {
      EnqueueKeepsInv(t, choice.generated.value, owner, turn, choice.expiredLater);
    }
  }

  lemma EnqueueKeepsInv(t: State, id: Id, owner: string, turn: Option<Id>, expired: set<Id>)
    requires Inv(t)
    ensures Inv(Enqueue(t, id, NewJob(t, owner, turn), expired).0)
  {
    var u := Prune(t, expired);
    PruneKeepsInv(t, expired);
    if HasCapacity(u, false) && id !in u.jobs {
      PushKeepsInv(u, owner, turn, id);
    }
  }

  // ---------------------------------------------------------------- launching a task

  lemma LaunchCounts(s: State, p: Slot, id: Id)
    requires OrderedJobs(s) && Counted(s) && p in s.tasks && p.team in s.teams && s.tasks[p].state.Waiting?
    requires HasCapacity(s, true) && id !in s.jobs
    ensures OrderedJobs(Launched(s, p, id)) && Counted(Launched(s, p, id))
    ensures |Launched(s, p, id).jobs| + |WaitingTasks(Launched(s, p, id))| == |s.jobs| + |WaitingTasks(s)|
  {
    var t := Launched(s, p, id);
    SizeOfOrder(s);
    PushKeepsOrder(s, id, TeamJob(s, p));
    PushCounts(s, id, TeamJob(s, p));
    assert LiveJobs(t) == LiveJobs(Pushed(s, id, TeamJob(s, p)));
    assert Unfinished(t) == Unfinished(Pushed(s, id, TeamJob(s, p)));
    assert p in WaitingTasks(s);
    assert WaitingTasks(t) == WaitingTasks(s) - {p};
  }

  lemma LaunchKeepsLinks(s: State, p: Slot, id: Id)
    requires LinkedJobs(s) && LinkedTasks(s) && p in s.tasks && p.team in s.teams && s.tasks[p].state.Waiting? && id !in s.jobs
    ensures LinkedJobs(Launched(s, p, id)) && LinkedTasks(Launched(s, p, id))
  {
    var t := Launched(s, p, id);
    forall k | k in t.jobs ensures LinkedJob(t, k, t.jobs[k]) {
      if k != id {
        assert LinkedJob(s, k, s.jobs[k]);
      }
    }
    forall q | q in t.tasks ensures LinkedTask(t, q, t.tasks[q]) {
      assert LinkedTask(s, q, s.tasks[q]);
    }
  }

  lemma LaunchKeepsTeams(s: State, p: Slot, id: Id)
    requires GoodTeams(s) && Launchable(s, p)
    ensures GoodTeams(Launched(s, p, id))
  {
    var t := Launched(s, p, id);
    assert SameShape(s.tasks, t.tasks);
    ShapeKeepsBoard(s, t);
    LaunchKeepsDeps(s, p, id);
    LaunchKeepsMembers(s, p, id);
    LaunchKeepsStopped(s, p, id);
  }

  lemma LaunchKeepsStopped(s: State, p: Slot, id: Id)
    requires StoppedTeams(s) && p in s.tasks && p.team in s.teams && !s.teams[p.team].stopped
    ensures StoppedTeams(Launched(s, p, id))
  {
  }

  lemma LaunchKeepsDeps(s: State, p: Slot, id: Id)
    requires GoodDeps(s) && p in s.tasks && p.team in s.teams && s.tasks[p].state.Waiting? && Ready(s, p)
    ensures GoodDeps(Launched(s, p, id))
  {
    var t := Launched(s, p, id);
    forall q, d | q in t.tasks && d in t.tasks[q].dependsOn
      ensures Slot(q.team, d) in t.tasks && t.tasks[Slot(q.team, d)].index < t.tasks[q].index
      ensures Underway(t.tasks[q].state) ==> t.tasks[Slot(q.team, d)].state.Accepted?
    {
      assert d in s.tasks[q].dependsOn;
    }
  }

  lemma LaunchKeepsMembers(s: State, p: Slot, id: Id)
    requires OnePerMember(s) && Launchable(s, p)
    ensures OnePerMember(Launched(s, p, id))
  {
    var t := Launched(s, p, id);
    forall q, r | q in t.tasks && r in t.tasks && Busy(t, q, r) ensures q == r {
      if q != p && r != p {
        assert Busy(s, q, r);
      }
    }
  }

  lemma LaunchedKeepsInv(s: State, p: Slot, id: Id)
    requires Inv(s) && Launchable(s, p) && HasCapacity(s, true) && id !in s.jobs
    ensures Inv(Launched(s, p, id))
  {
    LaunchCounts(s, p, id);
    LaunchKeepsLinks(s, p, id);
    LaunchKeepsTeams(s, p, id);
    LaunchKeepsFlags(s, p, id);
  }

  lemma LaunchKeepsFlags(s: State, p: Slot, id: Id)
    requires Automatic(s) && ClosedService(s) && !s.closed && p in s.tasks && p.team in s.teams
    ensures Automatic(Launched(s, p, id)) && ClosedService(Launched(s, p, id))
  {
  }

  // ---------------------------------------------------------------- a task that is not under way

  /** What may become of a task that no job works on. */
  predicate Retouch(a: Task, b: Task) {
    && b.index == a.index && b.member == a.member && b.dependsOn == a.dependsOn && 1 <= b.attempt <= MAX_ATTEMPTS
    && !Active(a.state) && !Active(b.state) && !a.state.Accepted? && (Underway(b.state) ==> Underway(a.state))
  }

  function Retouched(s: State, p: Slot, task: Task): State {
    s.(tasks := s.tasks[p := task])
  }

  lemma RetouchKeepsLinks(s: State, p: Slot, task: Task)
    requires LinkedJobs(s) && LinkedTasks(s) && p in s.tasks && Retouch(s.tasks[p], task)
    ensures LinkedJobs(Retouched(s, p, task)) && LinkedTasks(Retouched(s, p, task))
  {
    var t := Retouched(s, p, task);
    forall k | k in t.jobs ensures LinkedJob(t, k, t.jobs[k]) {
      assert LinkedJob(s, k, s.jobs[k]);
    }
    forall q | q in t.tasks ensures LinkedTask(t, q, t.tasks[q]) {
      assert LinkedTask(s, q, s.tasks[q]);
    }
  }

  lemma RetouchKeepsBoard(s: State, p: Slot, task: Task)
    requires GoodBoard(s) && p in s.tasks && Retouch(s.tasks[p], task)
    ensures GoodBoard(Retouched(s, p, task))
  {
    var t := Retouched(s, p, task);
    forall q | q in t.tasks ensures GoodTask(t, q, t.tasks[q]) {
      assert GoodTask(s, q, s.tasks[q]);
    }
    forall h, i | h in t.teams && 0 <= i < |t.teams[h].keys|
      ensures Slot(h, t.teams[h].keys[i]) in t.tasks && t.tasks[Slot(h, t.teams[h].keys[i])].index == i
    {
      assert Slot(h, s.teams[h].keys[i]) in s.tasks;
    }
  }

  lemma RetouchKeepsTeams(s: State, p: Slot, task: Task)
    requires GoodTeams(s) && p in s.tasks && Retouch(s.tasks[p], task)
    requires p.team in s.teams && s.teams[p.team].stopped ==> Settling(task.state)
    ensures GoodTeams(Retouched(s, p, task))
  {
    var t := Retouched(s, p, task);
    RetouchKeepsBoard(s, p, task);
    RetouchKeepsDeps(s, p, task);
    RetouchKeepsMembers(s, p, task);
    RetouchKeepsStopped(s, p, task);
  }

  lemma RetouchKeepsStopped(s: State, p: Slot, task: Task)
    requires StoppedTeams(s) && p in s.tasks
    requires p.team in s.teams && s.teams[p.team].stopped ==> Settling(task.state)
    ensures StoppedTeams(Retouched(s, p, task))
  {
  }

  lemma RetouchKeepsDeps(s: State, p: Slot, task: Task)
    requires GoodDeps(s) && p in s.tasks && Retouch(s.tasks[p], task)
    ensures GoodDeps(Retouched(s, p, task))
  {
    var t := Retouched(s, p, task);
    forall q, d | q in t.tasks && d in t.tasks[q].dependsOn
      ensures Slot(q.team, d) in t.tasks && t.tasks[Slot(q.team, d)].index < t.tasks[q].index
      ensures Underway(t.tasks[q].state) ==> t.tasks[Slot(q.team, d)].state.Accepted?
    {
      assert d in s.tasks[q].dependsOn;
    }
  }

  lemma RetouchKeepsMembers(s: State, p: Slot, task: Task)
    requires OnePerMember(s) && p in s.tasks && Retouch(s.tasks[p], task)
    ensures OnePerMember(Retouched(s, p, task))
  {
    var t := Retouched(s, p, task);
    forall q, r | q in t.tasks && r in t.tasks && Busy(t, q, r) ensures q == r {
      assert Busy(s, q, r);
    }
  }

  lemma RetouchKeepsInv(s: State, p: Slot, task: Task)
    requires Inv(s) && p in s.tasks && Retouch(s.tasks[p], task)
    requires p.team in s.teams && s.teams[p.team].stopped ==> Settling(task.state)
    requires task.state.Waiting? && !s.tasks[p].state.Waiting? ==> |s.jobs| + |WaitingTasks(s)| < s.options.maxRecords
    ensures Inv(Retouched(s, p, task))
  {
    RetouchCounts(s, p, task);
    RetouchKeepsLinks(s, p, task);
    RetouchKeepsTeams(s, p, task);
  }

  lemma RetouchCounts(s: State, p: Slot, task: Task)
    requires Counted(s) && p in s.tasks
    requires task.state.Waiting? && !s.tasks[p].state.Waiting? ==> |s.jobs| + |WaitingTasks(s)| < s.options.maxRecords
    ensures Counted(Retouched(s, p, task))
  {
    var t := Retouched(s, p, task);
    assert LiveJobs(t) == LiveJobs(s) && Unfinished(t) == Unfinished(s);
    assert WaitingTasks(t) == if task.state.Waiting? then WaitingTasks(s) + {p} else WaitingTasks(s) - {p};
  }

  // ---------------------------------------------------------------- the pump

  lemma FailTaskKeepsInv(s: State, p: Slot, kind: ErrorKind)
    requires Inv(s) && p in s.tasks && s.tasks[p].state.Waiting?
    ensures Inv(FailTask(s, p, kind))
  {
    assert GoodTask(s, p, s.tasks[p]);
    RetouchKeepsInv(s, p, s.tasks[p].(state := TaskState.Failed, error := Some(kind)));
  }

  lemma ForgettingKeepsLaunchable(s: State, t: State, p: Slot)
    requires Launchable(s, p) && OnlyForgets(s, t)
    ensures Launchable(t, p)
  {
  }

  lemma LaunchKeepsInv(s: State, p: Slot, choice: Choice)
    requires Inv(s)
    ensures Inv(Launch(s, p, choice).0)
  {
    if Launchable(s, p) {
      var t := Prune(s, choice.expired);
      PruneKeepsInv(s, choice.expired);
      ForgettingKeepsLaunchable(s, t, p);
      if HasCapacity(t, true) {
        LaunchWithRoomKeepsInv(t, p, choice);
      }
    }
  }

  lemma LaunchWithRoomKeepsInv(t: State, p: Slot, choice: Choice)
    requires Inv(t) && Launchable(t, p)
    ensures choice.generated.Err? ==> Inv(FailTask(t, p, choice.generated.kind))
    ensures var u := Prune(t, choice.expiredLater);
      p in u.tasks && Inv(FailTask(u, p, MailboxOverflowed)) && Inv(FailTask(u, p, Conflict))
    ensures var u := Prune(t, choice.expiredLater);
      choice.generated.Ok? && HasCapacity(u, true) && choice.generated.value !in u.jobs ==>
        p in u.tasks && p.team in u.teams && Inv(Launched(u, p, choice.generated.value))
  {
    if choice.generated.Err? {
      FailTaskKeepsInv(t, p, choice.generated.kind);
    }
    var u := Prune(t, choice.expiredLater);
    PruneKeepsInv(t, choice.expiredLater);
    ForgettingKeepsLaunchable(t, u, p);
    FailTaskKeepsInv(u, p, MailboxOverflowed);
    FailTaskKeepsInv(u, p, Conflict);
    if choice.generated.Ok? && HasCapacity(u, true) && choice.generated.value !in u.jobs {
      LaunchedKeepsInv(u, p, choice.generated.value);
    }
  }

  lemma {:induction false} LaunchEachKeepsInv(s: State, slots: seq<Slot>, choices: Slot -> Choice)
    requires Inv(s)
    ensures Inv(LaunchEach(s, slots, choices))
    decreases |slots|
  {
    if slots != [] {
      LaunchKeepsInv(s, slots[0], choices(slots[0]));
      LaunchEachKeepsInv(Launch(s, slots[0], choices(slots[0])).0, slots[1..], choices);
    }
  }

  lemma {:induction false} StartEachKeepsInv(s: State, ids: seq<Id>, broken: set<Id>)
    requires Inv(s)
    ensures Inv(StartEach(s, ids, broken))
    decreases |ids|
  {
    if ids != [] && s.active < s.options.maxRunning {
      StartOneKeepsInv(s, ids[0], broken);
      StartEachKeepsInv(StartOne(s, ids[0], broken), ids[1..], broken);
    }
  }

  lemma StartOneKeepsInv(s: State, id: Id, broken: set<Id>)
    requires Inv(s) && s.active < s.options.maxRunning
    ensures Inv(StartOne(s, id, broken))
  {
    if id in s.jobs && s.jobs[id].state.Queued? {
      if id in broken {
        CancelKeepsInv(s, id, false);
      } else {
        AdvanceKeepsInv(s, id, s.jobs[id].(state := JobState.Running));
      }
    }
  }

  lemma PumpKeepsInv(s: State, choices: Slot -> Choice, broken: set<Id>)
    requires Inv(s)
    ensures Inv(Pump(s, choices, broken))
  {
    if !s.closed {
      LaunchEachKeepsInv(s, Slots(s.teamOrder, s.teams), choices);
      var t := PumpTeams(s, choices);
      StartEachKeepsInv(t, t.order, broken);
    }
  }

  // ---------------------------------------------------------------- delivery of reports

  lemma ClaimKeepsInv(s: State, owner: string, id: Id, expired: set<Id>)
    requires Inv(s)
    ensures Inv(ClaimCompletion(s, owner, id, expired).0)
  {
    var u := Prune(s, expired);
    PruneKeepsInv(s, expired);
    if ClaimCompletion(s, owner, id, expired).0 != u {
      FlagKeepsInv(u, id, u.jobs[id].(claimed := true));
    }
  }

  lemma FinishCompletionKeepsInv(s: State, owner: string, id: Id, committed: bool, expired: set<Id>)
    requires Inv(s)
    ensures Inv(FinishCompletion(s, owner, id, committed, expired))
  {
    var u := Prune(s, expired);
    PruneKeepsInv(s, expired);
    if Findable(u, owner, id) {
      FlagKeepsInv(u, id, Settled(u.jobs[id], committed));
    }
  }
}

/** What every state of the job and team service satisfies, and what single changes keep of it. */
module TaskBoardInvariant {
  import opened Core
  import opened TaskBoard

  predicate Distinct<T(==)>(s: seq<T>) {
    forall i, j :: 0 <= i < j < |s| ==> s[i] != s[j]
  }

  ghost predicate OrderedJobs(s: State) {
    Distinct(s.order) && (forall id :: id in s.order <==> id in s.jobs)
  }

  /** At most sixteen teams, one for each owner. */
  ghost predicate OrderedTeams(s: State) {
    && Distinct(s.teamOrder) && |s.teamOrder| <= MAX_TEAMS
    && (forall h :: h in s.teamOrder <==> h in s.teams)
    && (forall h :: h in s.teams ==> h < s.nextHandle)
    && (forall h, g :: h in s.teams && g in s.teams && s.teams[h].owner == s.teams[g].owner ==> h == g)
  }

  predicate GoodTeam(team: Team) {
    Distinct(team.members) && |team.members| <= MAX_MEMBERS && |team.keys| <= MAX_TASKS
  }

  /** Task `p` is entry `index` of its team's work, for one of the team's specialists. */
  predicate GoodTask(s: State, p: Slot, task: Task) {
    && p.team in s.teams && task.index < |s.teams[p.team].keys| && s.teams[p.team].keys[task.index] == p.key
    && task.member in s.teams[p.team].members && 1 <= task.attempt <= MAX_ATTEMPTS
  }

  /** The teams' lists of keys and the tasks agree; a key stands for one task of its team. */
  ghost predicate GoodBoard(s: State) {
    && (forall h :: h in s.teams ==> GoodTeam(s.teams[h]))
    && (forall p :: p in s.tasks ==> GoodTask(s, p, s.tasks[p]))
    && (forall h, i :: h in s.teams && 0 <= i < |s.teams[h].keys| ==>
      Slot(h, s.teams[h].keys[i]) in s.tasks && s.tasks[Slot(h, s.teams[h].keys[i])].index == i)
  }

  /** A task that was launched and neither failed nor was cancelled. */
  predicate Underway(state: TaskState) {
    Active(state) || state.InReview? || state.Accepted?
  }

  /** Dependencies are earlier tasks of the team, accepted before the task is launched. */
  ghost predicate GoodDeps(s: State) {
    forall p, d :: p in s.tasks && d in s.tasks[p].dependsOn ==>
      && Slot(p.team, d) in s.tasks && s.tasks[Slot(p.team, d)].index < s.tasks[p].index
      && (Underway(s.tasks[p].state) ==> s.tasks[Slot(p.team, d)].state.Accepted?)
  }

  /** An unfinished team job points to its team, the team exists, and its task has the same key,
      run id and attempt and the state that corresponds to the job's. */
  predicate LinkedJob(s: State, id: Id, job: Job) {
    && (job.team.Some? <==> job.teamId.Some? && !Terminal(job.state))
    && (job.team.Some? ==>
      && job.team.value in s.teams
      && s.teams[job.team.value].owner == job.owner && job.teamId == Some(s.teams[job.team.value].id)
      && Assigned(s, id, job) && s.tasks[Slot(job.team.value, job.key)].state == Mapped(job.state))
  }

  ghost predicate LinkedJobs(s: State) {
    forall id :: id in s.jobs ==> LinkedJob(s, id, s.jobs[id])
  }

  /** A task under way has its job. */
  predicate LinkedTask(s: State, p: Slot, task: Task) {
    Active(task.state) ==>
      && task.runId.Some? && task.runId.value in s.jobs
      && s.jobs[task.runId.value].team == Some(p.team) && s.jobs[task.runId.value].key == p.key
  }

  ghost predicate LinkedTasks(s: State) {
    forall p :: p in s.tasks ==> LinkedTask(s, p, s.tasks[p])
  }

  /** Two tasks of one specialist, both under way. */
  predicate Busy(s: State, p: Slot, q: Slot)
    requires p in s.tasks && q in s.tasks
  {
    && p.team == q.team && s.tasks[p].member == s.tasks[q].member
    && Active(s.tasks[p].state) && Active(s.tasks[q].state)
  }

  /** No specialist works on two tasks at once. */
  ghost predicate OnePerMember(s: State) {
    forall p, q :: p in s.tasks && q in s.tasks && Busy(s, p, q) ==> p == q
  }

  predicate Settling(state: TaskState) {
    state.Cancelling? || state.Accepted? || state.Cancelled? || state.Failed?
  }

  ghost predicate StoppedTeams(s: State) {
    forall p :: p in s.tasks && p.team in s.teams && s.teams[p.team].stopped ==> Settling(s.tasks[p].state)
  }

  predicate Ending(state: JobState) {
    Terminal(state) || state.Cancelling?
  }

  ghost predicate ClosedService(s: State) {
    s.closed ==>
      && (forall h :: h in s.teams ==> s.teams[h].stopped)
      && (forall id :: id in s.jobs ==> Ending(s.jobs[id].state))
  }

  /** The counter is the number of live jobs; running, unfinished and recorded work is bounded, and
      every waiting task has a record reserved for it. */
  ghost predicate Counted(s: State) {
    && s.active == |LiveJobs(s)| && s.active <= s.options.maxRunning
    && |Unfinished(s)| <= s.options.maxRunning + s.options.maxQueued
    && |s.jobs| + |WaitingTasks(s)| <= s.options.maxRecords
  }

  /** Jobs are delivered as the service is set up, and none has timed out before it is stopped. */
  ghost predicate Automatic(s: State) {
    forall id :: id in s.jobs ==>
      s.jobs[id].automatic == s.options.automaticDelivery && (s.jobs[id].timedOut ==> Ending(s.jobs[id].state))
  }

  ghost predicate Teamwork(s: State) {
    GoodTeams(s) && LinkedJobs(s) && LinkedTasks(s)
  }

  ghost predicate Inv(s: State) {
    OrderedJobs(s) && Counted(s) && Automatic(s) && ClosedService(s) && Teamwork(s)
  }

  // ---------------------------------------------------------------- counting

  lemma Subsets<T>(a: set<T>, b: set<T>)
    requires a <= b
    ensures |a| <= |b|
  {
    if a != {} {
      var x :| x in a;
      Subsets(a - {x}, b - {x});
    }
  }

  lemma {:induction false} OrderCounts(order: seq<Id>, ids: set<Id>)
    requires Distinct(order) && (forall id :: id in order <==> id in ids)
    ensures |order| == |ids|
  {
    if order == [] {
      assert ids == {};
    } else {
      var rest := order[1..];
      assert forall i :: 0 <= i < |rest| ==> rest[i] == order[i + 1];
      assert order[0] in ids;
      assert forall id :: id in order <==> id == order[0] || id in rest;
      OrderCounts(rest, ids - {order[0]});
    }
  }

  lemma SizeOfOrder(s: State)
    requires OrderedJobs(s)
    ensures |s.order| == |s.jobs|
  {
    OrderCounts(s.order, s.jobs.Keys);
    assert |s.jobs| == |s.jobs.Keys|;
  }

  /** Everything about the board that does not mention jobs. */
  ghost predicate GoodTeams(s: State) {
    OrderedTeams(s) && GoodBoard(s) && GoodDeps(s) && OnePerMember(s) && StoppedTeams(s)
  }

  lemma SameBoard(s: State, t: State)
    requires GoodTeams(s)
    requires t.teamOrder == s.teamOrder && t.teams == s.teams && t.tasks == s.tasks && t.nextHandle == s.nextHandle
    ensures GoodTeams(t)
  {
    forall p | p in t.tasks ensures GoodTask(t, p, t.tasks[p]) {
      assert GoodTask(s, p, s.tasks[p]);
    }
    forall p, q | p in t.tasks && q in t.tasks && Busy(t, p, q) ensures p == q {
      assert Busy(s, p, q);
    }
  }

  // ---------------------------------------------------------------- forgetting finished jobs

  lemma {:induction false} WithoutIs(ids: seq<Id>, gone: set<Id>)
    requires Distinct(ids)
    ensures Distinct(Without(ids, gone)) && |Without(ids, gone)| <= |ids|
    ensures forall id :: id in Without(ids, gone) <==> id in ids && id !in gone
  {
    if ids != [] {
      var rest := ids[1..];
      assert forall i :: 0 <= i < |rest| ==> rest[i] == ids[i + 1];
      assert ids == [ids[0]] + rest;
      WithoutIs(rest, gone);
      assert ids[0] !in Without(rest, gone);
    }
  }

  /** What pruning leaves alone. */
  ghost predicate OnlyForgets(s: State, t: State) {
    && t == s.(order := t.order, jobs := t.jobs)
    && (forall id :: id in t.jobs ==> id in s.jobs && t.jobs[id] == s.jobs[id])
    && (forall id :: id in s.jobs && id !in t.jobs ==> Prunable(s.options, s.jobs[id]))
    && |t.order| <= |s.order| && OrderedJobs(t)
  }

  lemma PruneForgets(s: State, expired: set<Id>)
    requires OrderedJobs(s)
    ensures OnlyForgets(s, Prune(s, expired))
  {
    WithoutIs(s.order, Dropped(s, expired));
  }

  lemma ForgettingCounts(s: State, t: State)
    requires OrderedJobs(s) && OnlyForgets(s, t)
    ensures LiveJobs(t) == LiveJobs(s) && Unfinished(t) == Unfinished(s) && WaitingTasks(t) == WaitingTasks(s)
    ensures |t.jobs| <= |s.jobs|
  {
    SizeOfOrder(s);
    SizeOfOrder(t);
  }

  lemma ForgettingKeepsLinks(s: State, t: State)
    requires LinkedJobs(s) && LinkedTasks(s) && OnlyForgets(s, t)
    ensures LinkedJobs(t) && LinkedTasks(t)
  {
    forall id | id in t.jobs ensures LinkedJob(t, id, t.jobs[id]) {
      assert LinkedJob(s, id, s.jobs[id]);
    }
    forall p | p in t.tasks ensures LinkedTask(t, p, t.tasks[p]) {
      assert LinkedTask(s, p, s.tasks[p]);
      if Active(t.tasks[p].state) {
        assert LinkedJob(s, s.tasks[p].runId.value, s.jobs[s.tasks[p].runId.value]);
      }
    }
  }

  lemma PruneKeepsInv(s: State, expired: set<Id>)
    requires Inv(s)
    ensures Inv(Prune(s, expired)) && OnlyForgets(s, Prune(s, expired))
  {
    var t := Prune(s, expired);
    PruneForgets(s, expired);
    ForgettingCounts(s, t);
    ForgettingKeepsLinks(s, t);
    SameBoard(s, t);
  }

  // ---------------------------------------------------------------- a job moves on

  /** A step of one job that a caller, its deadline, the pump or its monitor may take. */
  predicate LegalMove(a: Job, b: Job) {
    && b.owner == a.owner && b.team == a.team && b.teamId == a.teamId && b.key == a.key && b.attempt == a.attempt
    && b.automatic == a.automatic && !Terminal(a.state) && !b.state.Queued?
    && (b.state.Running? ==> b.timedOut == a.timedOut)
    && (a.state.Queued? ==> b.state.Running? || b.state.Failed? || b.state.Cancelled?)
    && (a.state.Running? ==> !b.state.Running?)
    && (a.state.Cancelling? ==> b.state.Failed? || b.state.Cancelled?)
  }

  /** The board with some states changed. */
  predicate SameShape(s: map<Slot, Task>, t: map<Slot, Task>) {
    && s.Keys == t.Keys
    && (forall p :: p in s ==>
      t[p].index == s[p].index && t[p].member == s[p].member && t[p].dependsOn == s[p].dependsOn && t[p].attempt == s[p].attempt)
  }

  lemma ShapeKeepsBoard(s: State, t: State)
    requires GoodBoard(s) && t.teams == s.teams && SameShape(s.tasks, t.tasks)
    ensures GoodBoard(t)
  {
    forall p | p in t.tasks ensures GoodTask(t, p, t.tasks[p]) {
      assert GoodTask(s, p, s.tasks[p]);
    }
    forall h, i | h in t.teams && 0 <= i < |t.teams[h].keys|
      ensures Slot(h, t.teams[h].keys[i]) in t.tasks && t.tasks[Slot(h, t.teams[h].keys[i])].index == i
    {
      assert Slot(h, s.teams[h].keys[i]) in s.tasks;
    }
  }

  lemma AdvanceShape(s: State, id: Id, job: Job)
    requires id in s.jobs
    ensures SameShape(s.tasks, Advance(s, id, job).tasks)
  {
  }

  /** Dependencies survive when nothing new gets under way and nothing accepted changes. */
  lemma ShapeKeepsDeps(s: State, t: State)
    requires GoodDeps(s) && SameShape(s.tasks, t.tasks)
    requires forall p :: p in s.tasks && Underway(t.tasks[p].state) ==> Underway(s.tasks[p].state)
    requires forall p :: p in s.tasks && s.tasks[p].state.Accepted? ==> t.tasks[p].state.Accepted?
    ensures GoodDeps(t)
  {
    forall p, d | p in t.tasks && d in t.tasks[p].dependsOn
      ensures Slot(p.team, d) in t.tasks && t.tasks[Slot(p.team, d)].index < t.tasks[p].index
      ensures Underway(t.tasks[p].state) ==> t.tasks[Slot(p.team, d)].state.Accepted?
    {
      assert d in s.tasks[p].dependsOn;
    }
  }

  lemma AdvanceKeepsDeps(s: State, id: Id, job: Job)
    requires id in s.jobs && GoodDeps(s) && LinkedJob(s, id, s.jobs[id]) && LegalMove(s.jobs[id], job)
    ensures GoodDeps(Advance(s, id, job))
  {
    AdvanceShape(s, id, job);
    ShapeKeepsDeps(s, Advance(s, id, job));
  }

  lemma AdvanceKeepsJobs(s: State, id: Id, job: Job)
    requires id in s.jobs && LinkedJobs(s) && LegalMove(s.jobs[id], job)
    ensures LinkedJobs(Advance(s, id, job))
  {
    var t := Advance(s, id, job);
    assert LinkedJob(s, id, s.jobs[id]);
    forall k | k in t.jobs ensures LinkedJob(t, k, t.jobs[k]) {
      assert LinkedJob(s, k, s.jobs[k]);
    }
  }

  lemma AdvanceKeepsTasks(s: State, id: Id, job: Job)
    requires id in s.jobs && LinkedJobs(s) && LinkedTasks(s) && LegalMove(s.jobs[id], job)
    ensures LinkedTasks(Advance(s, id, job))
  {
    var t := Advance(s, id, job);
    assert LinkedJob(s, id, s.jobs[id]);
    forall p | p in t.tasks ensures LinkedTask(t, p, t.tasks[p]) {
      assert LinkedTask(s, p, s.tasks[p]);
    }
  }

  lemma AdvanceKeepsMembers(s: State, id: Id, job: Job)
    requires id in s.jobs && LinkedJob(s, id, s.jobs[id]) && OnePerMember(s) && LegalMove(s.jobs[id], job)
    ensures OnePerMember(Advance(s, id, job))
  {
    var t := Advance(s, id, job);
    forall p, q | p in t.tasks && q in t.tasks && Busy(t, p, q) ensures p == q {
      assert Busy(s, p, q);
    }
  }

  lemma AdvanceKeepsStopped(s: State, id: Id, job: Job)
    requires id in s.jobs && LinkedJob(s, id, s.jobs[id]) && StoppedTeams(s) && LegalMove(s.jobs[id], job)
    ensures StoppedTeams(Advance(s, id, job))
  {
    var t := Advance(s, id, job);
    forall p | p in t.tasks && p.team in t.teams && t.teams[p.team].stopped ensures Settling(t.tasks[p].state) {
      assert Settling(s.tasks[p].state);
    }
  }

  lemma AdvanceKeepsTeamwork(s: State, id: Id, job: Job)
    requires Teamwork(s) && id in s.jobs && LegalMove(s.jobs[id], job)
    ensures Teamwork(Advance(s, id, job))
  {
    assert LinkedJob(s, id, s.jobs[id]);
    AdvanceShape(s, id, job);
    ShapeKeepsBoard(s, Advance(s, id, job));
    AdvanceKeepsDeps(s, id, job);
    AdvanceKeepsJobs(s, id, job);
    AdvanceKeepsTasks(s, id, job);
    AdvanceKeepsMembers(s, id, job);
    AdvanceKeepsStopped(s, id, job);
  }

  lemma AdvanceKeepsWaiting(s: State, id: Id, job: Job)
    requires id in s.jobs && LinkedJob(s, id, s.jobs[id]) && LegalMove(s.jobs[id], job)
    ensures WaitingTasks(Advance(s, id, job)) == WaitingTasks(s) && |Advance(s, id, job).jobs| == |s.jobs|
  {
    var t := Advance(s, id, job);
    assert t.jobs.Keys == s.jobs.Keys && |t.jobs| == |t.jobs.Keys| && |s.jobs| == |s.jobs.Keys|;
    assert forall p :: p in s.tasks ==> p in t.tasks && (t.tasks[p].state.Waiting? <==> s.tasks[p].state.Waiting?);
  }

  lemma AdvanceLive(s: State, id: Id, job: Job)
    requires id in s.jobs && s.active == |LiveJobs(s)|
    ensures Advance(s, id, job).active == |LiveJobs(Advance(s, id, job))|
  {
    var a, b := LiveJobs(s), LiveJobs(Advance(s, id, job));
    assert id in a <==> Live(s.jobs[id].state);
    if Live(job.state) {
      assert b == a + {id};
    } else {
      assert b == a - {id};
    }
  }

  lemma AdvanceUnfinished(s: State, id: Id, job: Job)
    requires id in s.jobs && !Terminal(s.jobs[id].state)
    ensures |Unfinished(Advance(s, id, job))| <= |Unfinished(s)|
  {
    var t := Advance(s, id, job);
    assert Unfinished(t) <= Unfinished(s);
    Subsets(Unfinished(t), Unfinished(s));
  }

  lemma AdvanceCounts(s: State, id: Id, job: Job)
    requires id in s.jobs && Counted(s) && LinkedJob(s, id, s.jobs[id]) && LegalMove(s.jobs[id], job)
    requires job.state.Running? ==> s.active < s.options.maxRunning
    ensures Counted(Advance(s, id, job))
  {
    AdvanceKeepsWaiting(s, id, job);
    AdvanceLive(s, id, job);
    AdvanceUnfinished(s, id, job);
  }

  lemma AdvanceKeepsClosed(s: State, id: Id, job: Job)
    requires id in s.jobs && OrderedJobs(s) && Automatic(s) && ClosedService(s) && LegalMove(s.jobs[id], job)
    ensures OrderedJobs(Advance(s, id, job)) && Automatic(Advance(s, id, job)) && ClosedService(Advance(s, id, job))
  {
  }

  lemma AdvanceKeepsInv(s: State, id: Id, job: Job)
    requires Inv(s) && id in s.jobs && LegalMove(s.jobs[id], job)
    requires job.state.Running? ==> s.active < s.options.maxRunning
    ensures Inv(Advance(s, id, job))
  {
    assert LinkedJob(s, id, s.jobs[id]);
    AdvanceKeepsTeamwork(s, id, job);
    AdvanceCounts(s, id, job);
    AdvanceKeepsClosed(s, id, job);
  }

  // ---------------------------------------------------------------- flags of a job

  /** Flags that no other part of the state depends on. */
  predicate SameCore(a: Job, b: Job) {
    b == a.(acknowledged := b.acknowledged, claimed := b.claimed, commits := b.commits)
  }

  lemma FlagKeepsInv(s: State, id: Id, job: Job)
    requires Inv(s) && id in s.jobs && SameCore(s.jobs[id], job)
    ensures Inv(s.(jobs := s.jobs[id := job]))
  {
    FlagCounts(s, id, job);
    FlagKeepsFlags(s, id, job);
    FlagKeepsLinks(s, id, job);
    SameBoard(s, s.(jobs := s.jobs[id := job]));
  }

  lemma FlagKeepsFlags(s: State, id: Id, job: Job)
    requires OrderedJobs(s) && Automatic(s) && ClosedService(s) && id in s.jobs && SameCore(s.jobs[id], job)
    ensures var t := s.(jobs := s.jobs[id := job]); OrderedJobs(t) && Automatic(t) && ClosedService(t)
  {
  }

  lemma FlagCounts(s: State, id: Id, job: Job)
    requires Counted(s) && id in s.jobs && SameCore(s.jobs[id], job)
    ensures Counted(s.(jobs := s.jobs[id := job]))
  {
    var t := s.(jobs := s.jobs[id := job]);
    assert LiveJobs(t) == LiveJobs(s) && Unfinished(t) == Unfinished(s) && WaitingTasks(t) == WaitingTasks(s);
    assert t.jobs.Keys == s.jobs.Keys && |t.jobs| == |t.jobs.Keys| && |s.jobs| == |s.jobs.Keys|;
  }

  lemma FlagKeepsLinks(s: State, id: Id, job: Job)
    requires LinkedJobs(s) && LinkedTasks(s) && id in s.jobs && SameCore(s.jobs[id], job)
    ensures LinkedJobs(s.(jobs := s.jobs[id := job])) && LinkedTasks(s.(jobs := s.jobs[id := job]))
  {
    var t := s.(jobs := s.jobs[id := job]);
    forall k | k in t.jobs ensures LinkedJob(t, k, t.jobs[k]) {
      assert LinkedJob(s, k, s.jobs[k]);
    }
    forall p | p in t.tasks ensures LinkedTask(t, p, t.tasks[p]) {
      assert LinkedTask(s, p, s.tasks[p]);
    }
  }
}

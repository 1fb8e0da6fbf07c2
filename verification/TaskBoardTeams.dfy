/** Requests of team leaders, cancellation and shutdown keep the invariant of the service. */
module TaskBoardTeams {
  import opened Core
  import opened TaskBoard
  import opened TaskBoardInvariant
  import opened TaskBoardSteps

  // ---------------------------------------------------------------- finding a team

  lemma {:induction false} FindTeamIs(order: seq<Handle>, teams: map<Handle, Team>, owner: string)
    ensures var r := FindTeam(order, teams, owner);
      r.Some? ==> r.value in order && r.value in teams && teams[r.value].owner == owner
    ensures FindTeam(order, teams, owner).None? ==> forall h :: h in order && h in teams ==> teams[h].owner != owner
  {
    if order != [] {
      FindTeamIs(order[1..], teams, owner);
      assert forall h :: h in order <==> h == order[0] || h in order[1..];
    }
  }

  lemma {:induction false} FindDrainedIs(s: State, order: seq<Handle>)
    ensures var r := FindDrained(s, order); r.Some? ==> r.value in order && Drained(s, r.value)
  {
    if order != [] {
      FindDrainedIs(s, order[1..]);
    }
  }

  // ---------------------------------------------------------------- members

  lemma JoinedIs(members: seq<string>, name: string, maxChildren: nat, refused: string -> Option<ErrorKind>)
    requires Distinct(members) && |members| <= MAX_MEMBERS
    ensures var r := Joined(members, name, maxChildren, refused);
      r.Ok? ==> Distinct(r.value) && |r.value| <= MAX_MEMBERS && members <= r.value
  {
  }

  lemma {:induction false} JoinAllIs(
    members: seq<string>, names: seq<string>, maxChildren: nat, refused: string -> Option<ErrorKind>)
    requires Distinct(members) && |members| <= MAX_MEMBERS
    ensures var r := JoinAll(members, names, maxChildren, refused);
      r.Ok? ==> Distinct(r.value) && |r.value| <= MAX_MEMBERS && r.value == members + names
    decreases |names|
  {
    if names != [] {
      JoinedIs(members, names[0], maxChildren, refused);
      var more := Joined(members, names[0], maxChildren, refused);
      if more.Ok? {
        JoinAllIs(more.value, names[1..], maxChildren, refused);
        assert members + names == (members + [names[0]]) + names[1..];
      }
    }
  }

  /** A team changes without losing members or tasks. */
  predicate Grown(a: Team, b: Team) {
    && b.owner == a.owner && b.id == a.id && b.stopped == a.stopped && b.keys == a.keys
    && a.members <= b.members && GoodTeam(b)
  }

  lemma GrowKeepsBoard(s: State, h: Handle, team: Team)
    requires GoodBoard(s) && h in s.teams && Grown(s.teams[h], team)
    ensures GoodBoard(s.(teams := s.teams[h := team]))
  {
    var t := s.(teams := s.teams[h := team]);
    forall p | p in t.tasks ensures GoodTask(t, p, t.tasks[p]) {
      assert GoodTask(s, p, s.tasks[p]);
    }
    forall g, i | g in t.teams && 0 <= i < |t.teams[g].keys|
      ensures Slot(g, t.teams[g].keys[i]) in t.tasks && t.tasks[Slot(g, t.teams[g].keys[i])].index == i
    {
      assert Slot(g, s.teams[g].keys[i]) in s.tasks;
    }
  }

  lemma GrowKeepsTeams(s: State, h: Handle, team: Team)
    requires GoodTeams(s) && h in s.teams && Grown(s.teams[h], team)
    ensures GoodTeams(s.(teams := s.teams[h := team]))
  {
    var t := s.(teams := s.teams[h := team]);
    GrowKeepsBoard(s, h, team);
    assert t.teams.Keys == s.teams.Keys;
    SameTasks(s, t);
    assert StoppedTeams(t);
  }

  lemma SameTasks(s: State, t: State)
    requires GoodDeps(s) && OnePerMember(s) && t.tasks == s.tasks
    ensures GoodDeps(t) && OnePerMember(t)
  {
    forall p, q | p in t.tasks && q in t.tasks && Busy(t, p, q) ensures p == q {
      assert Busy(s, p, q);
    }
  }

  lemma GrowKeepsLinks(s: State, h: Handle, team: Team)
    requires LinkedJobs(s) && LinkedTasks(s) && h in s.teams && Grown(s.teams[h], team)
    ensures LinkedJobs(s.(teams := s.teams[h := team])) && LinkedTasks(s.(teams := s.teams[h := team]))
  {
    var t := s.(teams := s.teams[h := team]);
    forall id | id in t.jobs ensures LinkedJob(t, id, t.jobs[id]) {
      assert LinkedJob(s, id, s.jobs[id]);
    }
    forall p | p in t.tasks ensures LinkedTask(t, p, t.tasks[p]) {
      assert LinkedTask(s, p, s.tasks[p]);
    }
  }

  lemma GrowKeepsInv(s: State, h: Handle, team: Team)
    requires Inv(s) && h in s.teams && Grown(s.teams[h], team)
    ensures Inv(s.(teams := s.teams[h := team]))
  {
    var t := s.(teams := s.teams[h := team]);
    GrowKeepsTeams(s, h, team);
    GrowKeepsLinks(s, h, team);
    SameCounts(s, t);
  }

  lemma SameCounts(s: State, t: State)
    requires Counted(s) && t.options == s.options && t.jobs == s.jobs && t.active == s.active
    requires forall p :: p in t.tasks && t.tasks[p].state.Waiting? ==> p in s.tasks && s.tasks[p].state.Waiting?
    ensures Counted(t)
  {
    SameJobCounts(s, t);
    Subsets(WaitingTasks(t), WaitingTasks(s));
  }

  lemma AddMemberKeepsInv(s: State, owner: string, name: string, maxChildren: nat, refused: string -> Option<ErrorKind>)
    requires Inv(s)
    ensures Inv(AddMember(s, owner, name, maxChildren, refused).0)
  {
    var found := FindTeam(s.teamOrder, s.teams, owner);
    if found.Some? && found.value in s.teams {
      var team := s.teams[found.value];
      assert GoodTeam(team);
      JoinedIs(team.members, name, maxChildren, refused);
      var members := Joined(team.members, name, maxChildren, refused);
      if members.Ok? {
        GrowKeepsInv(s, found.value, team.(members := members.value));
      }
    }
  }

  // ---------------------------------------------------------------- a new task

  /** What `submit_team_task` has made sure of. */
  predicate Acceptable(team: Team, request: Request) {
    && |team.keys| < MAX_TASKS && request.key !in team.keys && request.member in team.members
    && (forall d :: d in request.dependsOn ==> d in team.keys)
  }

  lemma PostKeepsBoard(s: State, h: Handle, request: Request)
    requires GoodBoard(s) && h in s.teams && Acceptable(s.teams[h], request)
    ensures GoodBoard(Posted(s, h, request)) && Slot(h, request.key) !in s.tasks
  {
    var t, p := Posted(s, h, request), Slot(h, request.key);
    assert forall q :: q in s.tasks ==> GoodTask(s, q, s.tasks[q]);
    assert p !in s.tasks;
    forall q | q in t.tasks ensures GoodTask(t, q, t.tasks[q]) {
      if q != p {
        assert GoodTask(s, q, s.tasks[q]);
      }
    }
    PostKeepsKeys(s, h, request);
  }

  lemma PostKeepsKeys(s: State, h: Handle, request: Request)
    requires GoodBoard(s) && h in s.teams && request.key !in s.teams[h].keys
    ensures var t := Posted(s, h, request); forall g, i :: g in t.teams && 0 <= i < |t.teams[g].keys| ==>
      Slot(g, t.teams[g].keys[i]) in t.tasks && t.tasks[Slot(g, t.teams[g].keys[i])].index == i
  {
    var t := Posted(s, h, request);
    forall g, i | g in t.teams && 0 <= i < |t.teams[g].keys|
      ensures Slot(g, t.teams[g].keys[i]) in t.tasks && t.tasks[Slot(g, t.teams[g].keys[i])].index == i
    {
      if g != h || i < |s.teams[h].keys| {
        assert t.teams[g].keys[i] == s.teams[g].keys[i];
        assert Slot(g, s.teams[g].keys[i]) in s.tasks;
        assert g == h ==> s.teams[h].keys[i] in s.teams[h].keys;
      }
    }
  }

  lemma PostKeepsDeps(s: State, h: Handle, request: Request)
    requires GoodBoard(s) && GoodDeps(s) && h in s.teams && Acceptable(s.teams[h], request)
    requires Slot(h, request.key) !in s.tasks
    ensures GoodDeps(Posted(s, h, request))
  {
    var t, p := Posted(s, h, request), Slot(h, request.key);
    forall q, d | q in t.tasks && d in t.tasks[q].dependsOn
      ensures Slot(q.team, d) in t.tasks && t.tasks[Slot(q.team, d)].index < t.tasks[q].index
      ensures Underway(t.tasks[q].state) ==> t.tasks[Slot(q.team, d)].state.Accepted?
    {
      if q == p {
        assert d in s.teams[h].keys;
        var i :| 0 <= i < |s.teams[h].keys| && s.teams[h].keys[i] == d;
        assert Slot(h, s.teams[h].keys[i]) in s.tasks;
      } else {
        assert d in s.tasks[q].dependsOn;
      }
    }
  }

  lemma PostKeepsLinks(s: State, h: Handle, request: Request)
    requires LinkedJobs(s) && LinkedTasks(s) && h in s.teams && Slot(h, request.key) !in s.tasks
    ensures LinkedJobs(Posted(s, h, request)) && LinkedTasks(Posted(s, h, request))
  {
    var t := Posted(s, h, request);
    forall id | id in t.jobs ensures LinkedJob(t, id, t.jobs[id]) {
      assert LinkedJob(s, id, s.jobs[id]);
    }
    forall p | p in t.tasks ensures LinkedTask(t, p, t.tasks[p]) {
      if p != Slot(h, request.key) {
        assert LinkedTask(s, p, s.tasks[p]);
      }
    }
  }

  lemma PostKeepsTeams(s: State, h: Handle, request: Request)
    requires GoodTeams(s) && h in s.teams && Acceptable(s.teams[h], request) && !s.teams[h].stopped
    ensures GoodTeams(Posted(s, h, request)) && Slot(h, request.key) !in s.tasks
  {
    var t := Posted(s, h, request);
    PostKeepsBoard(s, h, request);
    PostKeepsDeps(s, h, request);
    assert t.teams.Keys == s.teams.Keys;
    PostKeepsMembers(s, h, request);
    PostKeepsStopped(s, h, request);
  }

  lemma PostKeepsMembers(s: State, h: Handle, request: Request)
    requires OnePerMember(s) && h in s.teams
    ensures OnePerMember(Posted(s, h, request))
  {
    var t := Posted(s, h, request);
    forall p, q | p in t.tasks && q in t.tasks && Busy(t, p, q) ensures p == q {
      assert Busy(s, p, q);
    }
  }

  lemma PostKeepsStopped(s: State, h: Handle, request: Request)
    requires StoppedTeams(s) && h in s.teams && !s.teams[h].stopped
    ensures StoppedTeams(Posted(s, h, request))
  {
  }

  lemma PostKeepsInv(s: State, h: Handle, request: Request)
    requires Inv(s) && h in s.teams && Acceptable(s.teams[h], request) && !s.teams[h].stopped
    requires HasRecordCapacity(s, false)
    ensures Inv(Posted(s, h, request))
  {
    PostKeepsTeams(s, h, request);
    PostKeepsLinks(s, h, request);
    SizeOfOrder(s);
    PostCounts(s, h, request);
  }

  lemma PostCounts(s: State, h: Handle, request: Request)
    requires Counted(s) && h in s.teams && Slot(h, request.key) !in s.tasks
    requires |s.jobs| + |WaitingTasks(s)| < s.options.maxRecords
    ensures Counted(Posted(s, h, request))
  {
    SameJobCounts(s, Posted(s, h, request));
    PostWaits(s, h, request);
  }

  lemma SameJobCounts(s: State, t: State)
    requires t.jobs == s.jobs
    ensures LiveJobs(t) == LiveJobs(s) && Unfinished(t) == Unfinished(s)
  {
  }

  lemma PostWaits(s: State, h: Handle, request: Request)
    requires h in s.teams && Slot(h, request.key) !in s.tasks
    ensures |WaitingTasks(Posted(s, h, request))| == |WaitingTasks(s)| + 1
  {
    var p := Slot(h, request.key);
    assert p !in WaitingTasks(s);
    assert WaitingTasks(Posted(s, h, request)) == WaitingTasks(s) + {p};
  }

  lemma SubmitKeepsInv(s: State, owner: string, request: Request, expired: set<Id>)
    requires Inv(s)
    ensures Inv(SubmitTask(s, owner, request, expired).0)
  {
    var t := Prune(s, expired);
    PruneKeepsInv(s, expired);
    var found := FindTeam(s.teamOrder, s.teams, owner);
    if SubmitTask(s, owner, request, expired).0 != s && HasRecordCapacity(t, false) {
      PostKeepsInv(t, found.value, request);
    }
  }

  // ---------------------------------------------------------------- a team is replaced

  lemma {:induction false} WithoutTeamIs(order: seq<Handle>, h: Handle)
    requires Distinct(order)
    ensures Distinct(WithoutTeam(order, h))
    ensures |WithoutTeam(order, h)| == if h in order then |order| - 1 else |order|
    ensures forall g :: g in WithoutTeam(order, h) <==> g in order && g != h
  {
    if order != [] {
      var rest := order[1..];
      assert forall i :: 0 <= i < |rest| ==> rest[i] == order[i + 1];
      assert order == [order[0]] + rest;
      WithoutTeamIs(rest, h);
      assert order[0] !in WithoutTeam(rest, h);
    }
  }

  /** No job works for a team without work under way. */
  lemma DrainedHasNoJob(s: State, h: Handle)
    requires LinkedJobs(s) && Drained(s, h)
    ensures forall id :: id in s.jobs ==> s.jobs[id].team != Some(h)
  {
    forall id | id in s.jobs ensures s.jobs[id].team != Some(h) {
      assert LinkedJob(s, id, s.jobs[id]);
    }
  }

  lemma DropKeepsBoard(s: State, h: Handle)
    requires OrderedTeams(s) && GoodBoard(s) && h in s.teams
    ensures OrderedTeams(DropTeam(s, h)) && GoodBoard(DropTeam(s, h)) && |DropTeam(s, h).teamOrder| < |s.teamOrder|
  {
    var t := DropTeam(s, h);
    WithoutTeamIs(s.teamOrder, h);
    forall p | p in t.tasks ensures GoodTask(t, p, t.tasks[p]) {
      assert GoodTask(s, p, s.tasks[p]);
    }
    forall g, i | g in t.teams && 0 <= i < |t.teams[g].keys|
      ensures Slot(g, t.teams[g].keys[i]) in t.tasks && t.tasks[Slot(g, t.teams[g].keys[i])].index == i
    {
      assert Slot(g, s.teams[g].keys[i]) in s.tasks;
    }
  }

  lemma DropKeepsRest(s: State, h: Handle)
    requires GoodDeps(s) && OnePerMember(s) && StoppedTeams(s)
    ensures GoodDeps(DropTeam(s, h)) && OnePerMember(DropTeam(s, h)) && StoppedTeams(DropTeam(s, h))
  {
    var t := DropTeam(s, h);
    forall p, q | p in t.tasks && q in t.tasks && Busy(t, p, q) ensures p == q {
      assert Busy(s, p, q);
    }
  }

  lemma DropKeepsLinks(s: State, h: Handle)
    requires LinkedJobs(s) && LinkedTasks(s) && Drained(s, h)
    ensures LinkedJobs(DropTeam(s, h)) && LinkedTasks(DropTeam(s, h))
  {
    var t := DropTeam(s, h);
    DrainedHasNoJob(s, h);
    forall id | id in t.jobs ensures LinkedJob(t, id, t.jobs[id]) {
      assert LinkedJob(s, id, s.jobs[id]);
    }
    forall p | p in t.tasks ensures LinkedTask(t, p, t.tasks[p]) {
      assert LinkedTask(s, p, s.tasks[p]);
    }
  }

  lemma DropKeepsInv(s: State, h: Handle)
    requires Inv(s) && Drained(s, h)
    ensures Inv(DropTeam(s, h)) && |DropTeam(s, h).teamOrder| < MAX_TEAMS
  {
    DropKeepsBoard(s, h);
    DropKeepsRest(s, h);
    DropKeepsLinks(s, h);
    SameCounts(s, DropTeam(s, h));
  }

  lemma AddKeepsTeams(s: State, team: Team)
    requires GoodTeams(s) && |s.teamOrder| < MAX_TEAMS && GoodTeam(team) && team.keys == []
    requires forall h :: h in s.teams ==> s.teams[h].owner != team.owner
    ensures GoodTeams(AddTeam(s, team))
  {
    var t := AddTeam(s, team);
    AddKeepsOrder(s, team);
    AddKeepsBoard(s, team);
    SameTasks(s, t);
    AddKeepsStopped(s, team);
  }

  lemma AddKeepsOrder(s: State, team: Team)
    requires OrderedTeams(s) && |s.teamOrder| < MAX_TEAMS
    requires forall h :: h in s.teams ==> s.teams[h].owner != team.owner
    ensures OrderedTeams(AddTeam(s, team))
  {
    assert s.nextHandle !in s.teamOrder;
  }

  lemma AddKeepsStopped(s: State, team: Team)
    requires StoppedTeams(s) && GoodBoard(s) && (forall h :: h in s.teams ==> h < s.nextHandle)
    ensures StoppedTeams(AddTeam(s, team))
  {
    var t := AddTeam(s, team);
    forall p | p in t.tasks && p.team in t.teams && t.teams[p.team].stopped ensures Settling(t.tasks[p].state) {
      assert GoodTask(s, p, s.tasks[p]);
    }
  }

  lemma AddKeepsBoard(s: State, team: Team)
    requires GoodBoard(s) && GoodTeam(team) && team.keys == [] && (forall h :: h in s.teams ==> h < s.nextHandle)
    ensures GoodBoard(AddTeam(s, team))
  {
    var t := AddTeam(s, team);
    forall p | p in t.tasks ensures GoodTask(t, p, t.tasks[p]) {
      assert GoodTask(s, p, s.tasks[p]);
    }
    forall g, i | g in t.teams && 0 <= i < |t.teams[g].keys|
      ensures Slot(g, t.teams[g].keys[i]) in t.tasks && t.tasks[Slot(g, t.teams[g].keys[i])].index == i
    {
      assert Slot(g, s.teams[g].keys[i]) in s.tasks;
    }
  }

  lemma AddKeepsLinks(s: State, team: Team)
    requires LinkedJobs(s) && LinkedTasks(s) && (forall h :: h in s.teams ==> h < s.nextHandle)
    ensures LinkedJobs(AddTeam(s, team)) && LinkedTasks(AddTeam(s, team))
  {
    var t := AddTeam(s, team);
    forall id | id in t.jobs ensures LinkedJob(t, id, t.jobs[id]) {
      assert LinkedJob(s, id, s.jobs[id]);
    }
    forall p | p in t.tasks ensures LinkedTask(t, p, t.tasks[p]) {
      assert LinkedTask(s, p, s.tasks[p]);
    }
  }

  lemma AddKeepsInv(s: State, team: Team)
    requires Inv(s) && !s.closed && |s.teamOrder| < MAX_TEAMS && GoodTeam(team) && team.keys == []
    requires forall h :: h in s.teams ==> s.teams[h].owner != team.owner
    ensures Inv(AddTeam(s, team))
  {
    AddKeepsTeams(s, team);
    AddKeepsLinks(s, team);
    SameCounts(s, AddTeam(s, team));
  }

  lemma CreateKeepsInv(
    s: State, owner: string, names: seq<string>, maxChildren: nat, id: Result<Id>, refused: string -> Option<ErrorKind>)
    requires Inv(s)
    ensures Inv(CreateTeam(s, owner, names, maxChildren, id, refused).0)
  {
    var previous := FindTeam(s.teamOrder, s.teams, owner);
    FindTeamIs(s.teamOrder, s.teams, owner);
    FindDrainedIs(s, s.teamOrder);
    JoinAllIs([], names, maxChildren, refused);
    if CreateTeam(s, owner, names, maxChildren, id, refused).1.Ok? {
      var members := JoinAll([], names, maxChildren, refused);
      var retired := if previous.None? && |s.teamOrder| >= MAX_TEAMS then FindDrained(s, s.teamOrder) else previous;
      var t := if retired.Some? then DropTeam(s, retired.value) else s;
      ReplaceKeepsInv(s, retired, owner);
      AddKeepsInv(t, Team(owner, id.value, false, members.value, []));
    }
  }

  lemma ReplaceKeepsInv(s: State, retired: Option<Handle>, owner: string)
    requires Inv(s) && (retired.None? ==> |s.teamOrder| < MAX_TEAMS) && (retired.Some? ==> Drained(s, retired.value))
    requires forall h :: h in s.teams && s.teams[h].owner == owner ==> retired == Some(h)
    ensures var t := if retired.Some? then DropTeam(s, retired.value) else s;
      Inv(t) && |t.teamOrder| < MAX_TEAMS && t.closed == s.closed && forall h :: h in t.teams ==> t.teams[h].owner != owner
  {
    if retired.Some? {
      DropKeepsInv(s, retired.value);
    }
  }

  // ---------------------------------------------------------------- the leader's verdict

  lemma CancelTaskKeepsInv(s: State, p: Slot, expired: set<Id>)
    requires Inv(s) && p in s.tasks && p.team in s.teams && !s.tasks[p].state.Accepted?
    ensures Inv(CancelTask(s, p, expired))
  {
    var t := Prune(s, expired);
    PruneKeepsInv(s, expired);
    var run := s.tasks[p].runId;
    var u := if run.Some? && Findable(t, s.teams[p.team].owner, run.value) then CancelJob(t, run.value, false) else t;
    if run.Some? {
      CancelKeepsInv(t, run.value, false);
      CancelKeepsAccepted(t, run.value, false);
    }
    if p in u.tasks && !Active(u.tasks[p].state) {
      WithdrawKeepsInv(u, p);
    }
  }

  lemma WithdrawKeepsInv(u: State, p: Slot)
    requires Inv(u) && p in u.tasks && !Active(u.tasks[p].state) && !u.tasks[p].state.Accepted?
    ensures Inv(SetState(u, p, TaskState.Cancelled))
  {
    assert GoodTask(u, p, u.tasks[p]);
    RetouchKeepsInv(u, p, u.tasks[p].(state := TaskState.Cancelled));
  }

  /** Cancelling a job neither accepts a task nor touches an accepted one. */
  lemma CancelKeepsAccepted(s: State, id: Id, timeout: bool)
    requires LinkedJobs(s)
    ensures var t := CancelJob(s, id, timeout);
      forall p :: p in s.tasks ==> p in t.tasks && (t.tasks[p].state.Accepted? <==> s.tasks[p].state.Accepted?)
  {
    if id in s.jobs {
      assert LinkedJob(s, id, s.jobs[id]);
    }
  }

  lemma UpdateKeepsInv(s: State, owner: string, review: Review, expired: set<Id>)
    requires Inv(s)
    ensures Inv(UpdateTask(s, owner, review, expired).0)
  {
    var found := FindTeam(s.teamOrder, s.teams, owner);
    var (next, reply) := UpdateTask(s, owner, review, expired);
    if next != s {
      var p := Slot(found.value, review.key);
      match review.action
      case Accept =>
        AcceptKeepsInv(s, p);
      case Cancel =>
        CancelTaskKeepsInv(s, p, expired);
      case Revise =>
        ReviseKeepsInv(s, p, review.turn, expired);
    }
  }

  lemma AcceptKeepsInv(s: State, p: Slot)
    requires Inv(s) && p in s.tasks && s.tasks[p].state.InReview?
    ensures Inv(SetState(s, p, Accepted))
  {
    assert GoodTask(s, p, s.tasks[p]);
    RetouchKeepsInv(s, p, s.tasks[p].(state := Accepted));
  }

  lemma ReviseKeepsInv(s: State, p: Slot, turn: Option<Id>, expired: set<Id>)
    requires Inv(s) && p in s.tasks && (s.tasks[p].state.InReview? || s.tasks[p].state.Failed?)
    requires s.tasks[p].attempt != MAX_ATTEMPTS && p.team in s.teams && !s.teams[p.team].stopped
    ensures Inv(Prune(s, expired)) && p in Prune(s, expired).tasks
    ensures HasRecordCapacity(Prune(s, expired), false) ==> Inv(Retried(Prune(s, expired), p, turn))
  {
    PruneKeepsInv(s, expired);
    if HasRecordCapacity(Prune(s, expired), false) {
      RetryKeepsInv(Prune(s, expired), p, turn);
    }
  }

  lemma RetryIsRetouch(task: Task, turn: Option<Id>)
    requires (task.state.InReview? || task.state.Failed?) && 1 <= task.attempt < MAX_ATTEMPTS
    ensures Retouch(task, Retry(task, turn)) && Retry(task, turn).state.Waiting?
  {
  }

  lemma RetryKeepsInv(t: State, p: Slot, turn: Option<Id>)
    requires Inv(t) && p in t.tasks && (t.tasks[p].state.InReview? || t.tasks[p].state.Failed?)
    requires t.tasks[p].attempt != MAX_ATTEMPTS && p.team in t.teams && !t.teams[p.team].stopped
    requires HasRecordCapacity(t, false)
    ensures Inv(Retried(t, p, turn))
  {
    var task := t.tasks[p];
    assert GoodTask(t, p, task);
    SizeOfOrder(t);
    RetryIsRetouch(task, turn);
    RetouchKeepsInv(t, p, Retry(task, turn));
  }

  // ---------------------------------------------------------------- stopping a team

  lemma {:induction false} OnlyIs(ids: seq<Id>, picked: set<Id>)
    ensures forall id :: id in Only(ids, picked) <==> id in ids && id in picked
  {
    if ids != [] {
      assert ids == [ids[0]] + ids[1..];
      OnlyIs(ids[1..], picked);
    }
  }

  /** The tasks of the team that are under way are all being cancelled. */
  ghost predicate Halted(s: State, h: Handle) {
    forall p :: p in s.tasks && p.team == h && Active(s.tasks[p].state) ==> s.tasks[p].state.Cancelling?
  }

  lemma HaltsTeam(s: State, h: Handle)
    requires Inv(s) && h in s.teams
    ensures var t := CancelEach(s, Only(s.order, JobsOfTeam(s, s.teams[h]))); Inv(t) && Onward(s, t) && Halted(t, h)
  {
    var ids := Only(s.order, JobsOfTeam(s, s.teams[h]));
    var t := CancelEach(s, ids);
    CancelEachKeepsInv(s, ids);
    CancelEachIsOnward(s, ids);
    forall p | p in t.tasks && p.team == h && Active(t.tasks[p].state) ensures t.tasks[p].state.Cancelling? {
      HaltsTask(s, h, p);
    }
  }

  lemma HaltsTask(s: State, h: Handle, p: Slot)
    requires OrderedJobs(s) && h in s.teams
    requires var t := CancelEach(s, Only(s.order, JobsOfTeam(s, s.teams[h])));
      Onward(s, t) && LinkedJobs(t) && LinkedTasks(t) && p in t.tasks && p.team == h && Active(t.tasks[p].state)
    ensures CancelEach(s, Only(s.order, JobsOfTeam(s, s.teams[h]))).tasks[p].state.Cancelling?
  {
    var ids := Only(s.order, JobsOfTeam(s, s.teams[h]));
    var id := JobOf(CancelEach(s, ids), p);
    JobsOfTeamAreListed(s, CancelEach(s, ids), h, id);
    CancelEachEnds(s, ids, id);
  }

  /** The job that works on a task. */
  lemma JobOf(s: State, p: Slot) returns (id: Id)
    requires LinkedJobs(s) && LinkedTasks(s) && p in s.tasks && Active(s.tasks[p].state)
    ensures id in s.jobs && s.jobs[id].team == Some(p.team) && s.jobs[id].key == p.key && s.tasks[p].runId == Some(id)
    ensures LinkedJob(s, id, s.jobs[id])
  {
    assert LinkedTask(s, p, s.tasks[p]);
    id := s.tasks[p].runId.value;
    assert LinkedJob(s, id, s.jobs[id]);
  }

  lemma JobsOfTeamAreListed(s: State, t: State, h: Handle, id: Id)
    requires OrderedJobs(s) && Onward(s, t) && h in s.teams && id in t.jobs && t.jobs[id].team == Some(h)
    requires LinkedJob(t, id, t.jobs[id])
    ensures id in Only(s.order, JobsOfTeam(s, s.teams[h]))
  {
    OnlyIs(s.order, JobsOfTeam(s, s.teams[h]));
    assert Later(s.jobs[id], t.jobs[id]);
  }

  lemma CloseBoardKeepsLinks(s: State, h: Handle)
    requires LinkedJobs(s) && LinkedTasks(s) && h in s.teams
    ensures LinkedJobs(CloseBoard(s, h)) && LinkedTasks(CloseBoard(s, h))
  {
    var t := CloseBoard(s, h);
    forall id | id in t.jobs ensures LinkedJob(t, id, t.jobs[id]) {
      assert LinkedJob(s, id, s.jobs[id]);
    }
    forall p | p in t.tasks ensures LinkedTask(t, p, t.tasks[p]) {
      assert LinkedTask(s, p, s.tasks[p]);
    }
  }

  lemma CloseBoardKeepsBoard(s: State, h: Handle)
    requires GoodBoard(s) && h in s.teams
    ensures GoodBoard(CloseBoard(s, h))
  {
    var t := CloseBoard(s, h);
    forall p | p in t.tasks ensures GoodTask(t, p, t.tasks[p]) {
      assert GoodTask(s, p, s.tasks[p]);
    }
    forall g, i | g in t.teams && 0 <= i < |t.teams[g].keys|
      ensures Slot(g, t.teams[g].keys[i]) in t.tasks && t.tasks[Slot(g, t.teams[g].keys[i])].index == i
    {
      assert Slot(g, s.teams[g].keys[i]) in s.tasks;
    }
  }

  lemma CloseBoardKeepsTasks(s: State, h: Handle)
    requires GoodDeps(s) && OnePerMember(s) && StoppedTeams(s) && h in s.teams && Halted(s, h)
    ensures GoodDeps(CloseBoard(s, h)) && OnePerMember(CloseBoard(s, h)) && StoppedTeams(CloseBoard(s, h))
  {
    var t := CloseBoard(s, h);
    ShapeKeepsDeps(s, t);
    forall p, q | p in t.tasks && q in t.tasks && Busy(t, p, q) ensures p == q {
      assert Busy(s, p, q);
    }
  }

  lemma CloseBoardKeepsOrder(s: State, h: Handle)
    requires OrderedTeams(s) && ClosedService(s) && OrderedJobs(s) && Automatic(s) && h in s.teams
    ensures OrderedTeams(CloseBoard(s, h)) && ClosedService(CloseBoard(s, h))
    ensures OrderedJobs(CloseBoard(s, h)) && Automatic(CloseBoard(s, h))
  {
    assert CloseBoard(s, h).teams.Keys == s.teams.Keys;
  }

  lemma CloseBoardCounts(s: State, h: Handle)
    requires Counted(s) && h in s.teams
    ensures Counted(CloseBoard(s, h))
  {
    SameCounts(s, CloseBoard(s, h));
  }

  lemma CloseBoardKeepsTeamwork(s: State, h: Handle)
    requires Teamwork(s) && OrderedJobs(s) && Automatic(s) && ClosedService(s) && h in s.teams && Halted(s, h)
    ensures Teamwork(CloseBoard(s, h)) && OrderedJobs(CloseBoard(s, h)) && Automatic(CloseBoard(s, h))
    ensures ClosedService(CloseBoard(s, h))
  {
    CloseBoardKeepsOrder(s, h);
    CloseBoardKeepsLinks(s, h);
    CloseBoardKeepsBoard(s, h);
    CloseBoardKeepsTasks(s, h);
  }

  lemma CloseBoardKeepsInv(s: State, h: Handle)
    requires Inv(s) && h in s.teams && Halted(s, h)
    ensures Inv(CloseBoard(s, h))
  {
    CloseBoardCounts(s, h);
    CloseBoardKeepsTeamwork(s, h);
  }

  /** The other parts of the state when some team is stopped. */
  predicate Stops(s: State, t: State) {
    && t == s.(jobs := t.jobs, tasks := t.tasks, active := t.active, teams := t.teams)
    && t.teams.Keys == s.teams.Keys && (forall h :: h in s.teams && s.teams[h].stopped ==> t.teams[h].stopped)
  }

  lemma StopKeepsInv(s: State, h: Handle)
    requires Inv(s)
    ensures var t := StopTeam(s, h); Inv(t) && Stops(s, t) && (h in s.teams ==> t.teams[h].stopped)
  {
    if h in s.teams {
      HaltsTeam(s, h);
      CloseBoardKeepsInv(CancelEach(s, Only(s.order, JobsOfTeam(s, s.teams[h]))), h);
    }
  }

  lemma {:induction false} StopEachKeepsInv(s: State, hs: seq<Handle>)
    requires Inv(s)
    ensures var t := StopEach(s, hs);
      Inv(t) && Stops(s, t) && (forall h :: h in hs && h in s.teams ==> t.teams[h].stopped)
    decreases |hs|
  {
    if hs != [] {
      var t := StopTeam(s, hs[0]);
      StopKeepsInv(s, hs[0]);
      StopEachKeepsInv(t, hs[1..]);
      StopsAddUp(s, t, StopEach(s, hs), hs);
    }
  }

  lemma StopsAddUp(s: State, t: State, u: State, hs: seq<Handle>)
    requires Stops(s, t) && Stops(t, u) && hs != [] && (hs[0] in s.teams ==> t.teams[hs[0]].stopped)
    requires forall h :: h in hs[1..] && h in t.teams ==> u.teams[h].stopped
    ensures Stops(s, u) && (forall h :: h in hs && h in s.teams ==> u.teams[h].stopped)
  {
    assert hs == [hs[0]] + hs[1..];
  }

  lemma CloseKeepsInv(s: State)
    requires Inv(s)
    ensures Inv(Close(s))
  {
    var t := StopEach(s, s.teamOrder);
    StopEachKeepsInv(s, s.teamOrder);
    var u := CancelEach(t, t.order);
    CancelEachKeepsInv(t, t.order);
    CancelEachIsOnward(t, t.order);
    forall id | id in u.jobs ensures Ending(u.jobs[id].state) {
      CancelEachEnds(t, t.order, id);
    }
    ClosedKeepsInv(u);
  }

  lemma ClosedKeepsInv(u: State)
    requires Inv(u) && (forall h :: h in u.teams ==> u.teams[h].stopped)
    requires forall id :: id in u.jobs ==> Ending(u.jobs[id].state)
    ensures Inv(u.(closed := true))
  {
    var t := u.(closed := true);
    SameBoard(u, t);
    ForgettingKeepsLinksTo(u, t);
    SameCounts(u, t);
  }

  lemma ForgettingKeepsLinksTo(s: State, t: State)
    requires LinkedJobs(s) && LinkedTasks(s) && t.jobs == s.jobs && t.tasks == s.tasks && t.teams == s.teams
    ensures LinkedJobs(t) && LinkedTasks(t)
  {
    forall id | id in t.jobs ensures LinkedJob(t, id, t.jobs[id]) {
      assert LinkedJob(s, id, s.jobs[id]);
    }
    forall p | p in t.tasks ensures LinkedTask(t, p, t.tasks[p]) {
      assert LinkedTask(s, p, s.tasks[p]);
    }
  }

  // ---------------------------------------------------------------- cancelling an owner

  lemma CancelWaitingKeepsTeams(s: State, h: Handle, turn: Id)
    requires GoodTeams(s)
    ensures GoodTeams(CancelWaiting(s, h, turn))
  {
    var t := CancelWaiting(s, h, turn);
    assert SameShape(s.tasks, t.tasks);
    ShapeKeepsBoard(s, t);
    CancelWaitingKeepsTasks(s, h, turn);
  }

  lemma CancelWaitingKeepsTasks(s: State, h: Handle, turn: Id)
    requires GoodDeps(s) && OnePerMember(s) && StoppedTeams(s)
    ensures var t := CancelWaiting(s, h, turn); GoodDeps(t) && OnePerMember(t) && StoppedTeams(t)
  {
    var t := CancelWaiting(s, h, turn);
    CancelWaitingKeepsDeps(s, h, turn);
    forall p, q | p in t.tasks && q in t.tasks && Busy(t, p, q) ensures p == q {
      assert Busy(s, p, q);
    }
  }

  lemma CancelWaitingKeepsDeps(s: State, h: Handle, turn: Id)
    requires GoodDeps(s)
    ensures GoodDeps(CancelWaiting(s, h, turn))
  {
    var t := CancelWaiting(s, h, turn);
    ShapeKeepsDeps(s, t);
  }

  lemma CancelWaitingKeepsLinks(s: State, h: Handle, turn: Id)
    requires LinkedJobs(s) && LinkedTasks(s)
    ensures LinkedJobs(CancelWaiting(s, h, turn)) && LinkedTasks(CancelWaiting(s, h, turn))
  {
    var t := CancelWaiting(s, h, turn);
    forall id | id in t.jobs ensures LinkedJob(t, id, t.jobs[id]) {
      assert LinkedJob(s, id, s.jobs[id]);
    }
    forall p | p in t.tasks ensures LinkedTask(t, p, t.tasks[p]) {
      assert LinkedTask(s, p, s.tasks[p]);
    }
  }

  lemma CancelWaitingKeepsInv(s: State, h: Handle, turn: Id)
    requires Inv(s)
    ensures Inv(CancelWaiting(s, h, turn))
  {
    CancelWaitingKeepsTeams(s, h, turn);
    CancelWaitingKeepsLinks(s, h, turn);
    SameCounts(s, CancelWaiting(s, h, turn));
  }

  lemma CancelOwnerKeepsInv(s: State, owner: string, turn: Option<Id>)
    requires Inv(s)
    ensures Inv(CancelOwner(s, owner, turn))
  {
    var found := FindTeam(s.teamOrder, s.teams, owner);
    if found.Some? {
      if turn.None? {
        StopKeepsInv(s, found.value);
      } else {
        CancelWaitingKeepsInv(s, found.value, turn.value);
      }
    }
    var t :=
      if found.None? then s
      else if turn.None? then StopTeam(s, found.value)
      else CancelWaiting(s, found.value, turn.value);
    CancelEachKeepsInv(t, Only(t.order, JobsOfOwner(t, owner, turn)));
  }
}

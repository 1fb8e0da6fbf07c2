/** What each operation of the job and team service achieves, told by the fields it leaves behind
    (src/oran-bootstrap/background_tasks.cpp, team-scheduling.cpp, agent-team.cpp). */
module TaskBoardOutcomes {
  import opened Core
  import opened TaskBoard
  import opened TaskBoardInvariant
  import opened TaskBoardSteps
  import opened TaskBoardTeams
  import opened TaskBoardRuns
  import opened TaskBoardLaws
  import opened TaskBoardStops

  // ---------------------------------------------------------------- how a job ends

  /** A running job ends as its child returned: a value makes it succeed with that result and puts its
      task up for review with that report, an error fails both, a cancellation cancels both. */
  lemma RunningJobEnds(s: State, id: Id, outcome: Result<string>)
    requires Inv(s) && id in s.jobs && s.jobs[id].state.Running?
    ensures var a, t := s.jobs[id], Finish(s, id, outcome);
      && id in t.jobs && t.active == s.active - 1
      && (match outcome
          case Ok(v) => t.jobs[id] == a.(state := Succeeded, result := v, team := None)
          case Err(k) =>
            t.jobs[id] == a.(
              state := if k == ErrorKind.Cancelled then JobState.Cancelled else JobState.Failed,
              error := Some(k), team := None))
    ensures var a, t := s.jobs[id], Finish(s, id, outcome);
      a.team.Some? ==>
        var p := Slot(a.team.value, a.key);
        && p in s.tasks && p in t.tasks
        && (match outcome
            case Ok(v) => t.tasks[p] == s.tasks[p].(state := InReview, report := v, error := a.error)
            case Err(k) =>
              t.tasks[p] == s.tasks[p].(
                state := if k == ErrorKind.Cancelled then TaskState.Cancelled else TaskState.Failed,
                error := Some(k), report := a.result))
  {
    assert LinkedJob(s, id, s.jobs[id]);
    JobEndsNow(s, id, outcome);
  }

  lemma JobEndsNow(s: State, id: Id, outcome: Result<string>)
    requires id in s.jobs && Live(s.jobs[id].state) && (s.jobs[id].team.Some? ==> Assigned(s, id, s.jobs[id]))
    ensures var a, t := s.jobs[id], Finish(s, id, outcome);
      && id in t.jobs && JobEnds(a, outcome, t.jobs[id]) && t.active == s.active - 1
      && (a.team.Some? ==>
        var p := Slot(a.team.value, a.key); p in t.tasks && TaskEnds(s.tasks[p], a, outcome, t.tasks[p]))
  {
    FinishedEnds(s.jobs[id], outcome);
  }

  // ---------------------------------------------------------------- retention

  /** Pruning forgets exactly the expired jobs that are finished, not claimed and, with automatic
      delivery, acknowledged. */
  lemma PruneIsExact(s: State, expired: set<Id>, id: Id)
    requires id in s.jobs
    ensures var a := s.jobs[id];
      id in Prune(s, expired).jobs <==>
        !(id in expired && (a.state.Succeeded? || a.state.Failed? || a.state.Cancelled?) && !a.claimed
          && (s.options.automaticDelivery ==> a.acknowledged))
    ensures id in Prune(s, expired).jobs ==> Prune(s, expired).jobs[id] == s.jobs[id]
  {
  }

  // ---------------------------------------------------------------- admission of jobs

  /** What a fresh job looks like. */
  predicate Fresh(s: State, job: Job, owner: string, turn: Option<Id>) {
    && job.owner == owner && job.turn == turn && job.state == JobState.Queued
    && !job.acknowledged && !job.claimed && !job.timedOut && job.commits == 0
    && job.automatic == s.options.automaticDelivery && job.error == None && job.result == ""
  }

  /** `start` is answered with success exactly when the service is open and has room and a new identity. */
  lemma StartsWhen(s: State, owner: string, turn: Option<Id>, choice: Choice)
    requires Inv(s)
    ensures StartJob(s, owner, turn, choice).1.Ok? <==>
      && !s.closed && choice.generated.Ok? && choice.generated.value !in Prune(s, choice.expired).jobs
      && |Unfinished(s)| < s.options.maxRunning + s.options.maxQueued
      && |Prune(s, choice.expired).jobs| < s.options.maxRecords
      && |Prune(Prune(s, choice.expired), choice.expiredLater).jobs| + |WaitingTasks(s)| < s.options.maxRecords
  {
    PruneCounts(s, choice.expired);
    PruneCounts(Prune(s, choice.expired), choice.expiredLater);
    StartsWhenCounted(s, owner, turn, choice);
  }

  /** What pruning leaves of the counts that admission looks at. */
  ghost predicate SameRoom(s: State, t: State) {
    && t.closed == s.closed && t.options == s.options && |t.order| == |t.jobs|
    && Unfinished(t) == Unfinished(s) && WaitingTasks(t) == WaitingTasks(s) && t.jobs.Keys <= s.jobs.Keys
  }

  lemma StartsWhenCounted(s: State, owner: string, turn: Option<Id>, choice: Choice)
    requires SameRoom(s, Prune(s, choice.expired))
    requires SameRoom(Prune(s, choice.expired), Prune(Prune(s, choice.expired), choice.expiredLater))
    ensures StartJob(s, owner, turn, choice).1.Ok? <==>
      && !s.closed && choice.generated.Ok? && choice.generated.value !in Prune(s, choice.expired).jobs
      && |Unfinished(s)| < s.options.maxRunning + s.options.maxQueued
      && |Prune(s, choice.expired).jobs| < s.options.maxRecords
      && |Prune(Prune(s, choice.expired), choice.expiredLater).jobs| + |WaitingTasks(s)| < s.options.maxRecords
  {
  }

  lemma PruneCounts(s: State, expired: set<Id>)
    requires Inv(s)
    ensures Inv(Prune(s, expired)) && SameRoom(s, Prune(s, expired))
  {
    var t := Prune(s, expired);
    PruneKeepsInv(s, expired);
    ForgettingCounts(s, t);
    SizeOfOrder(t);
  }

  /** The job is then the last in the queue, and no other job changes. */
  lemma StartQueuesJob(s: State, owner: string, turn: Option<Id>, choice: Choice)
    requires StartJob(s, owner, turn, choice).1.Ok?
    ensures var t, id := StartJob(s, owner, turn, choice).0, choice.generated.value;
      && choice.generated.Ok? && id in t.jobs && Fresh(s, t.jobs[id], owner, turn)
      && t.jobs[id].team.None? && t.jobs[id].teamId.None? && t.order != [] && t.order[|t.order| - 1] == id
    ensures var t, id := StartJob(s, owner, turn, choice).0, choice.generated.value;
      forall k :: k in t.jobs && k != id ==> k in s.jobs && t.jobs[k] == s.jobs[k]
    ensures var t := StartJob(s, owner, turn, choice).0; t.tasks == s.tasks && t.teams == s.teams
  {
  }

  // ---------------------------------------------------------------- launching

  /** A job that was launched for a task is a fresh one of the team's leader and the task's turn. */
  lemma LaunchedJob(s: State, p: Slot, choice: Choice)
    requires OrderedJobs(s) && p in s.tasks && p in Launch(s, p, choice).0.tasks
    requires s.tasks[p].state.Waiting? && Launch(s, p, choice).0.tasks[p].state.Queued?
    ensures var t := Launch(s, p, choice).0;
      && choice.generated.Ok? && choice.generated.value in t.jobs && p.team in s.teams
      && var job := t.jobs[choice.generated.value];
      && Fresh(s, job, s.teams[p.team].owner, s.tasks[p].turn) && job.team == Some(p.team)
      && job.teamId == Some(s.teams[p.team].id) && job.key == p.key && job.attempt == s.tasks[p].attempt
      && t.tasks[p] == s.tasks[p].(state := TaskState.Queued, runId := Some(choice.generated.value))
  {
  }

  /** A due task for which no identity can be drawn fails with that error, and nothing else changes but
      what has expired. */
  lemma LaunchWithoutIdentity(s: State, p: Slot, choice: Choice)
    requires Launchable(s, p) && HasCapacity(Prune(s, choice.expired), true) && choice.generated.Err?
    ensures var (t, full) := Launch(s, p, choice);
      && !full && t.jobs == Prune(s, choice.expired).jobs
      && p in t.tasks && t.tasks[p] == s.tasks[p].(state := TaskState.Failed, error := Some(choice.generated.kind))
      && (forall q :: q in s.tasks && q != p ==> q in t.tasks && t.tasks[q] == s.tasks[q])
  {
  }

  /** What launching one task leaves of the others: the same tasks in the same teams, none of them free
      again or ready that was not. */
  ghost predicate NoneFreed(s: State, t: State) {
    && t.teams == s.teams
    && (forall q :: q in t.tasks ==>
          && q in s.tasks && t.tasks[q].member == s.tasks[q].member && t.tasks[q].dependsOn == s.tasks[q].dependsOn
          && (t.tasks[q].state.Waiting? ==> s.tasks[q].state.Waiting?)
          && (t.tasks[q].state.Accepted? ==> s.tasks[q].state.Accepted?))
    && (forall q :: q in s.tasks && Active(s.tasks[q].state) ==> q in t.tasks && Active(t.tasks[q].state))
  }

  lemma LaunchedFreesNone(s: State, t: State, p: Slot, task: Task)
    requires t.teams == s.teams && p in s.tasks && s.tasks[p].state.Waiting? && t.tasks == s.tasks[p := task]
    requires task.member == s.tasks[p].member && task.dependsOn == s.tasks[p].dependsOn
    requires task.state.Queued? || task.state.Failed?
    ensures NoneFreed(s, t)
  {
  }

  lemma LaunchFreesNone(s: State, p: Slot, choice: Choice)
    ensures NoneFreed(s, Launch(s, p, choice).0)
  {
    var t := Launch(s, p, choice).0;
    if p in s.tasks && p in t.tasks && t.tasks != s.tasks {
      LaunchedFreesNone(s, t, p, t.tasks[p]);
    }
  }

  lemma StaysUndue(s: State, t: State, p: Slot)
    requires NoneFreed(s, t) && !Launchable(s, p)
    ensures !Launchable(t, p)
  {
  }

  /** The task of one step of the scan is due no longer, unless there is no room. */
  lemma LaunchSettles(s: State, p: Slot, choice: Choice)
    ensures var (t, full) := Launch(s, p, choice); if full then !HasCapacity(t, true) else !Launchable(t, p)
  {
  }

  lemma {:induction false} ScanLaunches(s: State, slots: seq<Slot>, choices: Slot -> Choice, p: Slot)
    requires p in slots || !Launchable(s, p)
    ensures var t := LaunchEach(s, slots, choices); !Launchable(t, p) || !HasCapacity(t, true)
    decreases |slots|
  {
    if slots != [] {
      var (t, full) := Launch(s, slots[0], choices(slots[0]));
      LaunchSettles(s, slots[0], choices(slots[0]));
      LaunchFreesNone(s, slots[0], choices(slots[0]));
      if !full {
        if !Launchable(s, p) {
          StaysUndue(s, t, p);
        }
        assert slots == [slots[0]] + slots[1..];
        ScanLaunches(t, slots[1..], choices, p);
      }
    }
  }

  lemma {:induction false} SlotsCover(order: seq<Handle>, teams: map<Handle, Team>, p: Slot)
    requires p.team in order && p.team in teams && p.key in teams[p.team].keys
    ensures p in Slots(order, teams)
  {
    if order[0] == p.team {
      var keys := teams[p.team].keys;
      var k :| 0 <= k < |keys| && keys[k] == p.key;
      assert SlotsOf(p.team, keys)[k] == p;
    } else {
      SlotsCover(order[1..], teams, p);
    }
  }

  /** After the scan of the pump no task is due, unless the service has no room for another job. */
  lemma NothingDueIsLeft(s: State, choices: Slot -> Choice, p: Slot)
    requires GoodBoard(s) && OrderedTeams(s)
    ensures var t := PumpTeams(s, choices); Launchable(t, p) ==> !HasCapacity(t, true)
  {
    if p in s.tasks {
      SlotsCover(s.teamOrder, s.teams, p);
    }
    ScanLaunches(s, Slots(s.teamOrder, s.teams), choices, p);
  }

  // ---------------------------------------------------------------- teams

  /** Whether these names can form the members of a team. */
  predicate Admissible(names: seq<string>, maxChildren: nat, refused: string -> Option<ErrorKind>) {
    && |names| <= MAX_MEMBERS && |names| <= maxChildren && Distinct(names)
    && (forall k :: 0 <= k < |names| ==> refused(names[k]).None?)
  }

  lemma {:induction false} JoinsAll(
    members: seq<string>, names: seq<string>, maxChildren: nat, refused: string -> Option<ErrorKind>)
    requires |members + names| <= MAX_MEMBERS && |members + names| <= maxChildren && Distinct(members + names)
    requires forall k :: 0 <= k < |names| ==> refused(names[k]).None?
    ensures JoinAll(members, names, maxChildren, refused) == Ok(members + names)
    decreases |names|
  {
    if names != [] {
      assert (members + names)[|members|] == names[0];
      assert forall k :: 0 <= k < |members| ==> (members + names)[k] == members[k];
      assert names[0] !in members;
      assert members + names == (members + [names[0]]) + names[1..];
      JoinsAll(members + [names[0]], names[1..], maxChildren, refused);
    } else {
      assert members + names == members;
    }
  }

  lemma {:induction false} JoinsOnlyAdmissible(
    members: seq<string>, names: seq<string>, maxChildren: nat, refused: string -> Option<ErrorKind>)
    requires |members| <= MAX_MEMBERS && |members| <= maxChildren && Distinct(members)
    ensures JoinAll(members, names, maxChildren, refused).Ok? ==>
      && JoinAll(members, names, maxChildren, refused).value == members + names
      && |members + names| <= MAX_MEMBERS && |members + names| <= maxChildren && Distinct(members + names)
      && (forall k :: 0 <= k < |names| ==> refused(names[k]).None?)
    decreases |names|
  {
    if names != [] {
      if Joined(members, names[0], maxChildren, refused).Ok? {
        JoinsOnlyAdmissible(members + [names[0]], names[1..], maxChildren, refused);
        assert members + names == (members + [names[0]]) + names[1..];
        assert forall k :: 0 < k < |names| ==> names[k] == names[1..][k - 1];
      }
    } else {
      assert members + names == members;
    }
  }

  /** The owner's own team is drained, or there is none and sixteen are not taken or one is drained. */
  ghost predicate Replaceable(s: State, owner: string) {
    if exists h :: h in s.teams && s.teams[h].owner == owner then
      exists h :: h in s.teams && s.teams[h].owner == owner && Drained(s, h)
    else |s.teamOrder| < MAX_TEAMS || exists h :: h in s.teams && Drained(s, h)
  }

  /** What the search of the list of teams finds. */
  predicate FindsPlace(s: State, owner: string)
    requires forall h :: h in s.teamOrder ==> h in s.teams
  {
    match FindTeam(s.teamOrder, s.teams, owner)
    case Some(h) => Drained(s, h)
    case None => |s.teamOrder| < MAX_TEAMS || FindDrained(s, s.teamOrder).Some?
  }

  lemma PlaceIsFound(s: State, owner: string)
    requires OrderedTeams(s)
    ensures FindsPlace(s, owner) <==> Replaceable(s, owner)
  {
    FindTeamIs(s.teamOrder, s.teams, owner);
    FindDrainedIs(s, s.teamOrder);
    FindsDrained(s, s.teamOrder);
  }

  /** A team is created exactly when the service is open, a place can be had, an identity was drawn and
      the members are admissible. */
  lemma CreatesWhen(
    s: State, owner: string, names: seq<string>, maxChildren: nat, id: Result<Id>, refused: string -> Option<ErrorKind>)
    requires OrderedTeams(s)
    ensures CreateTeam(s, owner, names, maxChildren, id, refused).1.Ok? <==>
      !s.closed && Replaceable(s, owner) && id.Ok? && Admissible(names, maxChildren, refused)
  {
    PlaceIsFound(s, owner);
    assert [] + names == names;
    JoinsOnlyAdmissible([], names, maxChildren, refused);
    if Admissible(names, maxChildren, refused) {
      JoinsAll([], names, maxChildren, refused);
    }
  }

  lemma {:induction false} FindsDrained(s: State, order: seq<Handle>)
    ensures FindDrained(s, order).None? ==> forall h :: h in order ==> !Drained(s, h)
  {
    if order != [] {
      FindsDrained(s, order[1..]);
      assert order == [order[0]] + order[1..];
    }
  }

  /** Then the owner has a live team without tasks, with exactly these members. */
  lemma CreatedTeam(
    s: State, owner: string, names: seq<string>, maxChildren: nat, id: Result<Id>, refused: string -> Option<ErrorKind>)
    requires CreateTeam(s, owner, names, maxChildren, id, refused).1.Ok?
    ensures var t, h := CreateTeam(s, owner, names, maxChildren, id, refused).0, s.nextHandle;
      && h in t.teams && id.Ok? && t.teams[h] == Team(owner, id.value, false, names, [])
      && t.teamOrder != [] && t.teamOrder[|t.teamOrder| - 1] == h
  {
    assert [] + names == names;
    JoinsOnlyAdmissible([], names, maxChildren, refused);
  }

  /** At most one team, a drained one, is gone with its tasks; everything else is as it was. */
  ghost predicate OthersStay(s: State, t: State, h: Handle) {
    && (forall g :: g in t.teams && g != h ==> g in s.teams && t.teams[g] == s.teams[g])
    && (forall g :: g in s.teams && g !in t.teams ==> Drained(s, g))
    && (forall g, k :: g in s.teams && k in s.teams && g !in t.teams && k !in t.teams ==> g == k)
    && t.jobs == s.jobs && (forall p :: p in t.tasks <==> p in s.tasks && (p.team in t.teams || p.team !in s.teams))
    && (forall p :: p in t.tasks ==> t.tasks[p] == s.tasks[p])
  }

  lemma DropThenAdd(s: State, g: Handle, team: Team)
    requires g in s.teams && Drained(s, g) && s.nextHandle !in s.teams
    ensures OthersStay(s, AddTeam(DropTeam(s, g), team), s.nextHandle)
  {
  }

  lemma AddOnly(s: State, team: Team)
    ensures OthersStay(s, AddTeam(s, team), s.nextHandle)
  {
  }

  lemma CreationKeepsOthers(
    s: State, owner: string, names: seq<string>, maxChildren: nat, id: Result<Id>, refused: string -> Option<ErrorKind>)
    requires OrderedTeams(s)
    ensures OthersStay(s, CreateTeam(s, owner, names, maxChildren, id, refused).0, s.nextHandle)
  {
    FindTeamIs(s.teamOrder, s.teams, owner);
    FindDrainedIs(s, s.teamOrder);
    var (t, r) := CreateTeam(s, owner, names, maxChildren, id, refused);
    if r.Ok? {
      var previous := FindTeam(s.teamOrder, s.teams, owner);
      var gone := if previous.None? && |s.teamOrder| >= MAX_TEAMS then FindDrained(s, s.teamOrder) else previous;
      var team := t.teams[s.nextHandle];
      if gone.Some? {
        assert t == AddTeam(DropTeam(s, gone.value), team);
        DropThenAdd(s, gone.value, team);
      } else {
        assert t == AddTeam(s, team);
        AddOnly(s, team);
      }
    } else {
      assert t == s;
    }
  }

  /** Whether this team of the leader would take a specialist. */
  predicate Joinable(team: Team, owner: string, name: string, maxChildren: nat) {
    && team.owner == owner && !team.stopped && |team.members| < MAX_MEMBERS && |team.members| < maxChildren
    && name !in team.members
  }

  /** A specialist joins exactly a live team of its leader that has a place and no member of that name. */
  lemma JoinsWhen(s: State, owner: string, name: string, maxChildren: nat, refused: string -> Option<ErrorKind>)
    requires OrderedTeams(s)
    ensures AddMember(s, owner, name, maxChildren, refused).1.Ok? <==>
      !s.closed && refused(name).None? && exists h :: h in s.teams && Joinable(s.teams[h], owner, name, maxChildren)
    ensures var (t, r) := AddMember(s, owner, name, maxChildren, refused);
      t == s.(teams := t.teams) && t.teams.Keys == s.teams.Keys &&
      forall h :: h in s.teams ==> t.teams[h] == WithMember(s.teams[h], name, r.Ok? && s.teams[h].owner == owner)
  {
    FindTeamIs(s.teamOrder, s.teams, owner);
  }

  function WithMember(team: Team, name: string, joined: bool): Team {
    if joined then team.(members := team.members + [name]) else team
  }

  /** Whether the team would take this task. */
  predicate Takes(team: Team, owner: string, request: Request) {
    && team.owner == owner && !team.stopped && |team.keys| < MAX_TASKS && request.key !in team.keys
    && request.member in team.members && (forall d :: d in request.dependsOn ==> d in team.keys)
  }

  /** A task is taken exactly by a live team of its leader that can take it, while there are records. */
  lemma SubmitsWhen(s: State, owner: string, request: Request, expired: set<Id>)
    requires Inv(s)
    ensures SubmitTask(s, owner, request, expired).1.Ok? <==>
      && !s.closed && (exists h :: h in s.teams && Takes(s.teams[h], owner, request))
      && |Prune(s, expired).jobs| + |WaitingTasks(s)| < s.options.maxRecords
  {
    PruneCounts(s, expired);
    SubmitsWhenCounted(s, owner, request, expired);
  }

  lemma SubmitsWhenCounted(s: State, owner: string, request: Request, expired: set<Id>)
    requires OrderedTeams(s) && SameRoom(s, Prune(s, expired))
    ensures SubmitTask(s, owner, request, expired).1.Ok? <==>
      && !s.closed && (exists h :: h in s.teams && Takes(s.teams[h], owner, request))
      && |Prune(s, expired).jobs| + |WaitingTasks(s)| < s.options.maxRecords
  {
    FindTeamIs(s.teamOrder, s.teams, owner);
  }

  /** Team `h` has one more task, which waits for its first attempt; all others are as they were. */
  predicate Submitted(s: State, t: State, h: Handle, owner: string, request: Request) {
    && h in s.teams && h in t.teams && s.teams[h].owner == owner
    && t.teams[h] == s.teams[h].(keys := s.teams[h].keys + [request.key])
    && Slot(h, request.key) !in s.tasks && Slot(h, request.key) in t.tasks
    && t.tasks[Slot(h, request.key)] ==
      Task(|s.teams[h].keys|, request.member, request.dependsOn, request.turn, Waiting, 1, None, "", None)
    && (forall p :: p in s.tasks ==> p in t.tasks && t.tasks[p] == s.tasks[p])
  }

  lemma SubmittedTask(s: State, owner: string, request: Request, expired: set<Id>)
    requires GoodBoard(s) && OrderedTeams(s) && SubmitTask(s, owner, request, expired).1.Ok?
    ensures exists h :: Submitted(s, SubmitTask(s, owner, request, expired).0, h, owner, request)
  {
    FindTeamIs(s.teamOrder, s.teams, owner);
    var h := FindTeam(s.teamOrder, s.teams, owner).value;
    UnlistedKey(s, h, request.key);
    assert Submitted(s, SubmitTask(s, owner, request, expired).0, h, owner, request);
  }

  // ---------------------------------------------------------------- reviews

  /** The task the review is about: of the leader's team with this identity, at this attempt. */
  predicate About(s: State, p: Slot, owner: string, review: Review) {
    && p in s.tasks && p.team in s.teams && s.teams[p.team].owner == owner && s.teams[p.team].id == review.teamId
    && p.key == review.key && s.tasks[p].attempt == review.attempt
  }

  /** Accepting is granted exactly for a reported task of a live team, or one accepted already, and
      leaves it accepted and otherwise unchanged. */
  lemma AcceptAccepts(s: State, owner: string, review: Review, expired: set<Id>)
    requires OrderedTeams(s) && review.action.Accept?
    ensures UpdateTask(s, owner, review, expired).1.Ok? <==>
      !s.closed && exists p :: About(s, p, owner, review) && Acceptable(s, p)
    ensures var (t, r) := UpdateTask(s, owner, review, expired);
      r.Ok? ==> forall p :: About(s, p, owner, review) ==> p in t.tasks && t.tasks[p] == s.tasks[p].(state := Accepted)
  {
    FindTeamIs(s.teamOrder, s.teams, owner);
    var found := FindTeam(s.teamOrder, s.teams, owner);
    if found.Some? && About(s, Slot(found.value, review.key), owner, review) {
      AcceptDecides(s, Slot(found.value, review.key), owner, review, expired);
    }
  }

  lemma AcceptDecides(s: State, p: Slot, owner: string, review: Review, expired: set<Id>)
    requires FindTeam(s.teamOrder, s.teams, owner) == Some(p.team) && About(s, p, owner, review) && review.action.Accept?
    ensures var (t, r) := UpdateTask(s, owner, review, expired);
      && (r.Ok? <==> !s.closed && Acceptable(s, p))
      && (r.Ok? ==> p in t.tasks && t.tasks[p] == s.tasks[p].(state := Accepted))
  {
  }

  predicate Acceptable(s: State, p: Slot)
    requires p in s.tasks && p.team in s.teams
  {
    s.tasks[p].state.Accepted? || (s.tasks[p].state.InReview? && !s.teams[p.team].stopped)
  }

  /** Revising is granted exactly for a reported or failed task of a live team below its third attempt,
      while there are records, and makes it wait for its next attempt. */
  lemma ReviseRetries(s: State, owner: string, review: Review, expired: set<Id>)
    requires OrderedTeams(s) && SameRoom(s, Prune(s, expired)) && review.action.Revise?
    ensures UpdateTask(s, owner, review, expired).1.Ok? <==>
      && !s.closed && |Prune(s, expired).jobs| + |WaitingTasks(s)| < s.options.maxRecords
      && exists p :: About(s, p, owner, review) && Revisable(s, p)
    ensures var (t, r) := UpdateTask(s, owner, review, expired);
      r.Ok? ==> forall p :: About(s, p, owner, review) ==> p in t.tasks && NextAttempt(s.tasks[p], review.turn, t.tasks[p])
  {
    FindTeamIs(s.teamOrder, s.teams, owner);
    var found := FindTeam(s.teamOrder, s.teams, owner);
    if found.Some? && About(s, Slot(found.value, review.key), owner, review) {
      ReviseDecides(s, Slot(found.value, review.key), owner, review, expired);
    }
  }

  lemma ReviseDecides(s: State, p: Slot, owner: string, review: Review, expired: set<Id>)
    requires FindTeam(s.teamOrder, s.teams, owner) == Some(p.team) && About(s, p, owner, review)
    requires SameRoom(s, Prune(s, expired)) && review.action.Revise?
    ensures var (t, r) := UpdateTask(s, owner, review, expired);
      && (r.Ok? <==>
        !s.closed && Revisable(s, p) && |Prune(s, expired).jobs| + |WaitingTasks(s)| < s.options.maxRecords)
      && (r.Ok? ==> p in t.tasks && NextAttempt(s.tasks[p], review.turn, t.tasks[p]))
  {
  }

  predicate Revisable(s: State, p: Slot)
    requires p in s.tasks && p.team in s.teams
  {
    && (s.tasks[p].state.InReview? || s.tasks[p].state.Failed?)
    && !s.teams[p.team].stopped && s.tasks[p].attempt != MAX_ATTEMPTS
  }

  /** Cancelling is granted exactly for a task that is not accepted. One without a job is then cancelled;
      one under way is cancelled or being cancelled, and so is its job, acknowledged. */
  lemma CancelWithdraws(s: State, owner: string, review: Review, expired: set<Id>)
    requires OrderedTeams(s) && JobLinks(s) && review.action.Cancel?
    ensures UpdateTask(s, owner, review, expired).1.Ok? <==>
      !s.closed && exists p :: About(s, p, owner, review) && !s.tasks[p].state.Accepted?
    ensures var (t, r) := UpdateTask(s, owner, review, expired);
      r.Ok? ==> forall p :: About(s, p, owner, review) ==> WithdrawnTask(s, t, p)
  {
    FindTeamIs(s.teamOrder, s.teams, owner);
    var found := FindTeam(s.teamOrder, s.teams, owner);
    if found.Some? && About(s, Slot(found.value, review.key), owner, review) {
      CancelDecides(s, Slot(found.value, review.key), owner, review, expired);
    }
  }

  lemma CancelDecides(s: State, p: Slot, owner: string, review: Review, expired: set<Id>)
    requires FindTeam(s.teamOrder, s.teams, owner) == Some(p.team) && About(s, p, owner, review)
    requires JobLinks(s) && review.action.Cancel?
    ensures var (t, r) := UpdateTask(s, owner, review, expired);
      && (r.Ok? <==> !s.closed && !s.tasks[p].state.Accepted?)
      && (r.Ok? ==> WithdrawnTask(s, t, p))
  {
    if !s.closed && !s.tasks[p].state.Accepted? {
      CancelledTask(s, p, expired);
      assert UpdateTask(s, owner, review, expired) == (CancelTask(s, p, expired), Ok(()));
    }
  }

  lemma CancelledTask(s: State, p: Slot, expired: set<Id>)
    requires JobLinks(s) && p in s.tasks && p.team in s.teams && !s.tasks[p].state.Accepted?
    ensures WithdrawnTask(s, CancelTask(s, p, expired), p)
  {
    var t := Prune(s, expired);
    PruneForgets(s, expired);
    ForgettingKeepsLinks(s, t);
    if Active(s.tasks[p].state) {
      var id := JobOf(t, p);
      CancelOnTask(t, p, id);
      assert CancelTask(s, p, expired).jobs == CancelJob(t, id, false).jobs;
    } else if s.tasks[p].runId.Some? {
      CancelLeavesIdle(t, s.tasks[p].runId.value, p);
    }
  }

  /** What a task that is to be cancelled, and its job, become. */
  predicate WithdrawnTask(s: State, t: State, p: Slot)
    requires p in s.tasks
  {
    var a := s.tasks[p];
    && p in t.tasks
    && (if a.state.Running? || a.state.Cancelling? then t.tasks[p].state.Cancelling? else t.tasks[p].state.Cancelled?)
    && (Active(a.state) ==> a.runId.Some? && a.runId.value in t.jobs && t.jobs[a.runId.value].acknowledged)
  }

  /** Cancelling the job of a task under way. */
  lemma CancelOnTask(s: State, p: Slot, id: Id)
    requires p in s.tasks && Active(s.tasks[p].state) && id in s.jobs && LinkedJob(s, id, s.jobs[id])
    requires s.jobs[id].team == Some(p.team) && s.jobs[id].key == p.key
    ensures var t := CancelJob(s, id, false);
      && p in t.tasks && id in t.jobs && t.jobs[id].acknowledged
      && t.tasks[p].state == (if s.tasks[p].state.Queued? then TaskState.Cancelled else TaskState.Cancelling)
  {
  }

  /** Cancelling a job leaves a task without work under way alone. */
  lemma CancelLeavesIdle(s: State, id: Id, p: Slot)
    requires LinkedJobs(s) && p in s.tasks && !Active(s.tasks[p].state)
    ensures var t := CancelJob(s, id, false); p in t.tasks && t.tasks[p] == s.tasks[p]
  {
    if id in s.jobs {
      assert LinkedJob(s, id, s.jobs[id]);
    }
  }

  // ---------------------------------------------------------------- stopping

  /** How cancelling jobs may change a task: one under way is on its way out, the others stay. */
  predicate OnItsWay(a: Task, b: Task) {
    && (a.state.Running? ==> b.state.Running? || b.state.Cancelling?)
    && (a.state.Cancelling? ==> b.state.Cancelling?)
    && (a.state.Queued? ==> b.state.Queued? || b.state.Cancelled?)
    && (!Active(a.state) ==> b == a)
  }

  lemma CancelOnAnyTask(s: State, id: Id, p: Slot)
    requires LinkedJobs(s) && p in s.tasks
    ensures var t := CancelJob(s, id, false); p in t.tasks && OnItsWay(s.tasks[p], t.tasks[p])
  {
    if id in s.jobs {
      assert LinkedJob(s, id, s.jobs[id]);
    }
  }

  lemma {:induction false} CancelEachOnTask(s: State, ids: seq<Id>, p: Slot)
    requires Inv(s) && p in s.tasks
    ensures var t := CancelEach(s, ids); p in t.tasks && OnItsWay(s.tasks[p], t.tasks[p])
    decreases |ids|
  {
    if ids != [] {
      CancelOnAnyTask(s, ids[0], p);
      CancelKeepsInv(s, ids[0], false);
      CancelEachOnTask(CancelJob(s, ids[0], false), ids[1..], p);
    }
  }

  /** What becomes of a task when its team is stopped: accepted work stays, running work is being
      cancelled, everything else is cancelled. */
  predicate StoppedTask(a: Task, b: Task) {
    if a.state.Accepted? then b == a
    else if a.state.Running? || a.state.Cancelling? then b.state.Cancelling?
    else b.state.Cancelled?
  }

  lemma StopStopsTasks(s: State, h: Handle, p: Slot)
    requires Inv(s) && h in s.teams && p in s.tasks && p.team == h
    ensures var t := StopTeam(s, h);
      && h in t.teams && t.teams[h] == s.teams[h].(stopped := true)
      && p in t.tasks && StoppedTask(s.tasks[p], t.tasks[p])
  {
    var ids := Only(s.order, JobsOfTeam(s, s.teams[h]));
    HaltsTeam(s, h);
    CancelEachOnTask(s, ids, p);
    SweepStops(s, CancelEach(s, ids), h, p);
  }

  lemma SweepStops(s: State, t: State, h: Handle, p: Slot)
    requires h in s.teams && p in s.tasks && p.team == h && p in t.tasks && t.teams == s.teams
    requires OnItsWay(s.tasks[p], t.tasks[p]) && (Active(t.tasks[p].state) ==> t.tasks[p].state.Cancelling?)
    ensures var u := CloseBoard(t, h);
      u.teams[h] == s.teams[h].(stopped := true) && p in u.tasks && StoppedTask(s.tasks[p], u.tasks[p])
  {
  }

  /** Stopping a team stops every unfinished job of it, acknowledged, and no job of anybody else. */
  lemma StopStopsJobs(s: State, h: Handle, id: Id)
    requires Inv(s) && h in s.teams && id in s.jobs
    ensures var t := StopTeam(s, h);
      && (s.jobs[id].team == Some(h) ==>
        id in t.jobs && t.jobs[id].acknowledged && (t.jobs[id].state.Cancelling? || t.jobs[id].state.Cancelled?))
      && (s.jobs[id].owner != s.teams[h].owner ==> id in t.jobs && t.jobs[id] == s.jobs[id])
  {
    StopOnJob(s, h, id);
    assert LinkedJob(s, id, s.jobs[id]);
  }

  /** Ending a session or a turn stops every job of it, acknowledged, and no job of anybody else. */
  lemma CancelOwnerStopsJobs(s: State, owner: string, turn: Option<Id>, id: Id)
    requires OrderedJobs(s) && id in s.jobs
    ensures var a, t := s.jobs[id], CancelOwner(s, owner, turn);
      && id in t.jobs
      && (if a.owner == owner && (turn.None? || a.turn == turn) then
            t.jobs[id].acknowledged && (if Ending(a.state) then t.jobs[id].state == a.state else
              t.jobs[id].state == (if a.state.Queued? then JobState.Cancelled else JobState.Cancelling))
          else t.jobs[id] == a)
  {
    CancelOwnerOnJob(s, owner, turn, id);
  }

  /** Shutdown stops every job there is. */
  lemma CloseStopsJobs(s: State, id: Id)
    requires OrderedJobs(s) && id in s.jobs
    ensures var a, t := s.jobs[id], Close(s);
      && t.closed && id in t.jobs && t.jobs[id].acknowledged
      && (if Ending(a.state) then t.jobs[id].state == a.state
          else t.jobs[id].state == (if a.state.Queued? then JobState.Cancelled else JobState.Cancelling))
  {
    CloseOnJob(s, id);
  }

  /** The waiting tasks of a turn that ends are cancelled. */
  lemma TurnEndsTasks(s: State, owner: string, turn: Id, p: Slot)
    requires Inv(s) && p in s.tasks && s.tasks[p].state.Waiting? && s.tasks[p].turn == Some(turn)
    requires p.team in s.teams && s.teams[p.team].owner == owner
    ensures var t := CancelOwner(s, owner, Some(turn));
      p in t.tasks && t.tasks[p] == s.tasks[p].(state := TaskState.Cancelled)
  {
    FindTeamIs(s.teamOrder, s.teams, owner);
    var t := CancelWaiting(s, p.team, turn);
    CancelWaitingKeepsInv(s, p.team, turn);
    CancelEachOnTask(t, Only(t.order, JobsOfOwner(t, owner, Some(turn))), p);
  }

  // ---------------------------------------------------------------- delivery

  /** Settling a report ends its claim; committing it counts once and acknowledges it. */
  lemma SettleSettles(s: State, owner: string, id: Id, committed: bool, expired: set<Id>)
    requires id in s.jobs && s.jobs[id].owner == owner && !Prunable(s.options, s.jobs[id])
    ensures var a, t := s.jobs[id], FinishCompletion(s, owner, id, committed, expired);
      && id in t.jobs
      && t.jobs[id] == a.(
        claimed := false, acknowledged := a.acknowledged || committed, commits := a.commits + if committed then 1 else 0)
  {
  }

  /** The report is still there after pruning, finished, and neither claimed nor seen by anybody. */
  predicate Claimable(s: State, pruned: State, owner: string, id: Id) {
    && id in pruned.jobs && id in s.jobs && s.jobs[id].owner == owner && Terminal(s.jobs[id].state)
    && !s.jobs[id].acknowledged && !s.jobs[id].claimed
  }

  /** A claim is granted exactly for a finished report of the owner that nobody has claimed or seen. */
  lemma ClaimsWhen(s: State, owner: string, id: Id, expired: set<Id>)
    ensures var (t, r) := ClaimCompletion(s, owner, id, expired);
      && (r == Ok(true) <==> Claimable(s, Prune(s, expired), owner, id))
      && (r == Ok(true) ==> id in t.jobs && t.jobs[id] == s.jobs[id].(claimed := true))
  {
  }
}

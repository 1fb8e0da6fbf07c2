/** The background task service as it works in place (src/oran-bootstrap/background_tasks.cpp,
    team-scheduling.cpp, agent-team.cpp): every method does one step of the model. */
module BackgroundTasks {
  import opened Core
  import opened TaskBoard
  import opened TaskBoardInvariant
  import opened TaskBoardSteps
  import opened TaskBoardTeams
  import opened TaskBoardRuns
  import opened TaskBoardLaws
  import Completion

  // ---------------------------------------------------------------- facts about single loops

  lemma AdvanceIgnoresTeams(s: State, teams: map<Handle, Team>, id: Id, job: Job)
    requires id in s.jobs
    ensures Advance(s.(teams := teams), id, job) == Advance(s, id, job).(teams := teams)
  {
  }

  lemma CancelIgnoresTeams(s: State, teams: map<Handle, Team>, id: Id, timeout: bool)
    ensures CancelJob(s.(teams := teams), id, timeout) == CancelJob(s, id, timeout).(teams := teams)
  {
    if id in s.jobs {
      AdvanceIgnoresTeams(s, teams, id, CancelledJob(s.jobs[id], timeout));
    }
  }

  lemma {:induction false} CancelEachIgnoresTeams(s: State, teams: map<Handle, Team>, ids: seq<Id>)
    ensures CancelEach(s.(teams := teams), ids) == CancelEach(s, ids).(teams := teams)
    decreases |ids|
  {
    if ids != [] {
      CancelIgnoresTeams(s, teams, ids[0], false);
      CancelEachIgnoresTeams(CancelJob(s, ids[0], false), teams, ids[1..]);
    }
  }

  /** Cancelling the first of the picked jobs, then the others. */
  lemma PickFirst(s: State, ids: seq<Id>, picked: set<Id>)
    requires ids != [] && ids[0] in picked
    ensures CancelEach(s, Only(ids, picked)) == CancelEach(CancelJob(s, ids[0], false), Only(ids[1..], picked))
  {
    assert Only(ids, picked)[1..] == Only(ids[1..], picked);
  }

  lemma {:induction false} OnlyAll(ids: seq<Id>, picked: set<Id>)
    requires forall id :: id in ids ==> id in picked
    ensures Only(ids, picked) == ids
  {
    if ids != [] {
      OnlyAll(ids[1..], picked);
    }
  }

  lemma CancelIgnoresClosed(s: State, id: Id, timeout: bool)
    ensures CancelJob(s.(closed := true), id, timeout) == CancelJob(s, id, timeout).(closed := true)
  {
  }

  lemma {:induction false} CancelEachIgnoresClosed(s: State, ids: seq<Id>)
    ensures CancelEach(s.(closed := true), ids) == CancelEach(s, ids).(closed := true)
    decreases |ids|
  {
    if ids != [] {
      CancelIgnoresClosed(s, ids[0], false);
      CancelEachIgnoresClosed(CancelJob(s, ids[0], false), ids[1..]);
    }
  }

  lemma StopIgnoresClosed(s: State, h: Handle)
    ensures StopTeam(s.(closed := true), h) == StopTeam(s, h).(closed := true)
  {
    if h in s.teams {
      var team := s.teams[h];
      assert JobsOfTeam(s.(closed := true), team) == JobsOfTeam(s, team);
      CancelEachIgnoresClosed(s, Only(s.order, JobsOfTeam(s, team)));
    }
  }

  /** Every listed job and every task can be reached. */
  ghost predicate Covered(s: State) {
    && (forall id :: id in s.order ==> id in s.jobs)
    && (forall p :: p in s.tasks ==> p.team in s.teams && p.key in s.teams[p.team].keys)
  }

  lemma InvCovers(s: State)
    requires Inv(s)
    ensures Covered(s)
  {
    forall p | p in s.tasks ensures p.team in s.teams && p.key in s.teams[p.team].keys {
      assert GoodTask(s, p, s.tasks[p]);
    }
  }

  lemma StopCovers(s: State, h: Handle)
    requires Covered(s)
    ensures Covered(StopTeam(s, h)) && StopTeam(s, h).order == s.order && StopTeam(s, h).teamOrder == s.teamOrder
    ensures StopTeam(s, h).teams.Keys == s.teams.Keys
  {
    if h in s.teams {
      CancelEachIsOnward(s, Only(s.order, JobsOfTeam(s, s.teams[h])));
    }
  }

  /** The waiting tasks among the first `n` tasks of team `h`. */
  ghost function WaitingBelow(tasks: map<Slot, Task>, h: Handle, n: nat): set<Slot> {
    set p | p in tasks && p.team == h && tasks[p].index < n && tasks[p].state.Waiting?
  }

  lemma WaitingGrows(s: State, h: Handle, n: nat)
    requires GoodBoard(s) && h in s.teams && n < |s.teams[h].keys|
    ensures var p := Slot(h, s.teams[h].keys[n]);
      p in s.tasks && |WaitingBelow(s.tasks, h, n + 1)| == |WaitingBelow(s.tasks, h, n)| + if s.tasks[p].state.Waiting? then 1 else 0
  {
    var p := Slot(h, s.teams[h].keys[n]);
    assert p in s.tasks && s.tasks[p].index == n;
    assert forall q :: q in s.tasks && q.team == h && s.tasks[q].index == n ==> GoodTask(s, q, s.tasks[q]) && q == p;
    var below := WaitingBelow(s.tasks, h, n);
    assert p !in below;
    assert WaitingBelow(s.tasks, h, n + 1) == if s.tasks[p].state.Waiting? then below + {p} else below;
  }

  /** The waiting tasks of the listed teams. */
  ghost function WaitingAmong(tasks: map<Slot, Task>, hs: seq<Handle>): set<Slot> {
    set p | p in tasks && p.team in hs && tasks[p].state.Waiting?
  }

  lemma WaitingAdds(s: State, hs: seq<Handle>, h: Handle)
    requires GoodBoard(s) && h in s.teams && h !in hs
    ensures |WaitingAmong(s.tasks, hs + [h])|
      == |WaitingAmong(s.tasks, hs)| + |WaitingBelow(s.tasks, h, |s.teams[h].keys|)|
  {
    assert forall q :: q in s.tasks ==> GoodTask(s, q, s.tasks[q]);
    var a, b := WaitingAmong(s.tasks, hs), WaitingBelow(s.tasks, h, |s.teams[h].keys|);
    assert WaitingAmong(s.tasks, hs + [h]) == a + b && a !! b;
  }

  lemma SlotsStep(order: seq<Handle>, teams: map<Handle, Team>, i: nat)
    requires i < |order| && order[i] in teams
    ensures Slots(order[i..], teams) == SlotsOf(order[i], teams[order[i]].keys) + Slots(order[i + 1..], teams)
  {
    assert order[i..][0] == order[i] && order[i..][1..] == order[i + 1..];
  }

  lemma WaitingAddsNext(s: State, i: nat)
    requires OrderedTeams(s) && GoodBoard(s) && i < |s.teamOrder|
    ensures var h := s.teamOrder[i];
      h in s.teams && |WaitingAmong(s.tasks, s.teamOrder[..i + 1])|
        == |WaitingAmong(s.tasks, s.teamOrder[..i])| + |WaitingBelow(s.tasks, h, |s.teams[h].keys|)|
  {
    var h := s.teamOrder[i];
    assert s.teamOrder[..i + 1] == s.teamOrder[..i] + [h] && h !in s.teamOrder[..i] && h in s.teamOrder;
    WaitingAdds(s, s.teamOrder[..i], h);
  }

  /** The unfinished jobs of a list. */
  ghost function UnfinishedAmong(jobs: map<Id, Job>, ids: seq<Id>): set<Id> {
    set id | id in ids && id in jobs && !Terminal(jobs[id].state)
  }

  lemma UnfinishedGrows(s: State, i: nat)
    requires OrderedJobs(s) && i < |s.order|
    ensures s.order[i] in s.jobs
    ensures |UnfinishedAmong(s.jobs, s.order[..i + 1])|
      == |UnfinishedAmong(s.jobs, s.order[..i])| + if Terminal(s.jobs[s.order[i]].state) then 0 else 1
  {
    var id := s.order[i];
    assert s.order[..i + 1] == s.order[..i] + [id] && id in s.order && id !in s.order[..i];
    var a := UnfinishedAmong(s.jobs, s.order[..i]);
    assert UnfinishedAmong(s.jobs, s.order[..i + 1]) == if Terminal(s.jobs[id].state) then a else a + {id};
  }

  lemma WaitingOfAll(s: State)
    requires OrderedTeams(s) && GoodBoard(s)
    ensures WaitingAmong(s.tasks, s.teamOrder) == WaitingTasks(s)
  {
    assert forall q :: q in s.tasks ==> GoodTask(s, q, s.tasks[q]);
  }

  class Service {
    const options: Options
    var order: seq<Id>
    var jobs: map<Id, Job>
    var teamOrder: seq<Handle>
    var teams: map<Handle, Team>
    var tasks: map<Slot, Task>
    var active: int
    var closed: bool
    var joining: bool
    var nextHandle: Handle

    function View(): State
      reads this
    {
      State(options, order, jobs, teamOrder, teams, tasks, active, closed, nextHandle)
    }

    ghost predicate Valid()
      reads this
    {
      Inv(View())
    }

    constructor (options: Options)
      ensures Valid() && View() == Init(options) && !joining
    {
      this.options := options;
      order, jobs, teamOrder, teams, tasks := [], map[], [], map[], map[];
      active, closed, joining, nextHandle := 0, false, false, 0;
      InitInv(options);
    }

    // -------------------------------------------------------------- retention and capacity

    method PruneExpired(expired: set<Id>)
      requires OrderedJobs(View())
      modifies this`order, this`jobs
      ensures View() == Prune(old(View()), expired)
    {
      ghost var s := View();
      var kept: seq<Id>, gone: set<Id> := [], {};
      var i := |order|;
      while i > 0
        invariant 0 <= i <= |order|
        invariant forall id :: id in gone <==> id in order[i..] && id in expired && Prunable(options, jobs[id])
        invariant kept == Without(order[i..], Dropped(s, expired))
      {
        i := i - 1;
        var id := order[i];
        assert order[i..] == [id] + order[i + 1..];
        if id in expired && Prunable(options, jobs[id]) {
          gone := gone + {id};
        } else {
          kept := [id] + kept;
        }
      }
      assert order[0..] == order;
      assert gone == Dropped(s, expired);
      order, jobs := kept, jobs - gone;
    }

    method CountUnfinished() returns (n: nat)
      requires OrderedJobs(View())
      ensures n == |Unfinished(View())|
    {
      n := 0;
      var i := 0;
      assert UnfinishedAmong(jobs, order[..0]) == {};
      while i < |order|
        invariant 0 <= i <= |order| && n == |UnfinishedAmong(jobs, order[..i])|
      {
        UnfinishedGrows(View(), i);
        if !Terminal(jobs[order[i]].state) {
          n := n + 1;
        }
        i := i + 1;
      }
      assert order[..|order|] == order;
      assert UnfinishedAmong(jobs, order) == Unfinished(View());
    }

    /** The waiting tasks of one team. */
    method CountWaitingOf(h: Handle) returns (n: nat)
      requires GoodBoard(View()) && h in teams
      ensures n == |WaitingBelow(tasks, h, |teams[h].keys|)|
    {
      n := 0;
      var keys := teams[h].keys;
      var j := 0;
      assert WaitingBelow(tasks, h, 0) == {};
      while j < |keys|
        invariant 0 <= j <= |keys| && n == |WaitingBelow(tasks, h, j)|
      {
        WaitingGrows(View(), h, j);
        if tasks[Slot(h, keys[j])].state.Waiting? {
          n := n + 1;
        }
        j := j + 1;
      }
    }

    method CountWaiting() returns (n: nat)
      requires OrderedTeams(View()) && GoodBoard(View())
      ensures n == |WaitingTasks(View())|
    {
      n := 0;
      var i := 0;
      assert WaitingAmong(tasks, teamOrder[..0]) == {};
      while i < |teamOrder|
        invariant 0 <= i <= |teamOrder| && n == |WaitingAmong(tasks, teamOrder[..i])|
      {
        var h := teamOrder[i];
        WaitingAddsNext(View(), i);
        var more := CountWaitingOf(h);
        n := n + more;
        i := i + 1;
      }
      assert teamOrder[..|teamOrder|] == teamOrder;
      WaitingOfAll(View());
    }

    method CheckRecordCapacity(reserved: bool, expired: set<Id>) returns (free: bool)
      requires Valid()
      modifies this`order, this`jobs
      ensures Valid() && View() == Prune(old(View()), expired) && free == HasRecordCapacity(View(), reserved)
    {
      PruneKeepsInv(View(), expired);
      PruneExpired(expired);
      var waiting := CountWaiting();
      free := HasRoom(waiting, reserved);
    }

    function HasRoom(waiting: nat, reserved: bool): bool
      reads this`order, this`closed
    {
      !closed && |order| + (if reserved && waiting > 0 then waiting - 1 else waiting) < options.maxRecords
    }

    method CheckCapacity(reserved: bool, expired: set<Id>) returns (free: bool)
      requires Valid()
      modifies this`order, this`jobs
      ensures Valid() && View() == Prune(old(View()), expired) && free == HasCapacity(View(), reserved)
    {
      var records := CheckRecordCapacity(reserved, expired);
      var unfinished := CountUnfinished();
      free := records && unfinished < options.maxRunning + options.maxQueued;
    }

    // -------------------------------------------------------------- jobs

    /** Tells the task of a job what has become of the job. */
    method UpdateTeamJob(id: Id)
      requires id in jobs
      modifies this`tasks
      ensures tasks == Told(old(View()), id, jobs[id])
    {
      var job := jobs[id];
      if job.team.None? {
        return;
      }
      var p := Slot(job.team.value, job.key);
      if p !in tasks || tasks[p].runId != Some(id) || tasks[p].attempt != job.attempt {
        return;
      }
      tasks := tasks[p := tasks[p].(state := Mapped(job.state))];
      if Terminal(job.state) {
        tasks := tasks[p := tasks[p].(error := job.error, report := job.result)];
      }
    }

    /** Job `id` becomes `job`; a finished job lets go of its team. */
    method Become(id: Id, job: Job)
      requires id in jobs
      modifies this`jobs, this`tasks
      ensures jobs == old(Advance(View(), id, job).jobs) && tasks == old(Advance(View(), id, job).tasks)
    {
      jobs := jobs[id := job];
      UpdateTeamJob(id);
      if Terminal(job.state) {
        jobs := jobs[id := job.(team := None)];
      }
    }

    method Cancel(id: Id, timeout: bool)
      requires id in jobs
      modifies this`jobs, this`tasks
      ensures View() == CancelJob(old(View()), id, timeout)
    {
      var job := jobs[id];
      if Terminal(job.state) || job.state.Cancelling? {
        jobs := jobs[id := job.(acknowledged := job.acknowledged || !timeout)];
        return;
      }
      var next := job.(timedOut := job.timedOut || timeout, acknowledged := job.acknowledged || !timeout);
      if job.state.Queued? {
        next := next.(
          state := if timeout then JobState.Failed else JobState.Cancelled,
          error := Some(if timeout then Timeout else ErrorKind.Cancelled));
      } else {
        next := next.(state := JobState.Cancelling);
      }
      assert next == CancelledJob(job, timeout);
      Become(id, next);
    }

    /** The end of the monitor of a running or cancelling job. */
    method Complete(id: Id, outcome: Result<string>)
      requires Valid() && id in jobs && Live(jobs[id].state)
      modifies this`jobs, this`tasks, this`active
      ensures Valid() && View() == Finish(old(View()), id, outcome)
    {
      ghost var s := View();
      FinishKeepsInv(s, id, outcome);
      Monitor(id, outcome);
      assert View() == Finish(s, id, outcome);
    }

    method Monitor(id: Id, outcome: Result<string>)
      requires id in jobs && Live(jobs[id].state)
      modifies this`jobs, this`tasks, this`active
      ensures View() == Finish(old(View()), id, outcome)
    {
      var job := jobs[id];
      var next := job;
      if job.state.Cancelling? {
        next := job.(
          state := if job.timedOut then JobState.Failed else JobState.Cancelled,
          error := Some(if job.timedOut then Timeout else ErrorKind.Cancelled));
      } else if outcome.Err? {
        var kind := outcome.kind;
        next := job.(state := if kind.Cancelled? then JobState.Cancelled else JobState.Failed, error := Some(kind));
      } else {
        next := job.(state := Succeeded, result := outcome.value);
      }
      assert next == FinishedJob(job, outcome);
      Become(id, next);
      active := active - 1;
    }

    // -------------------------------------------------------------- admission

    /** The queue takes a job, unless there is no room or its identity is taken. */
    method Queue(id: Id, job: Job, expired: set<Id>) returns (reply: Result<()>)
      requires Valid()
      modifies this`order, this`jobs
      ensures (View(), reply) == Enqueue(old(View()), id, job, expired)
    {
      var free := CheckCapacity(job.team.Some?, expired);
      if !free {
        return Err(MailboxOverflowed);
      }
      if id in jobs {
        return Err(Conflict);
      }
      order, jobs := order + [id], jobs[id := job];
      reply := Ok(());
    }

    /** `start`: a background job for `owner`, checked before and while it is queued. */
    method Start(owner: string, turn: Option<Id>, choice: Choice) returns (reply: Result<()>)
      requires Valid()
      modifies this`order, this`jobs
      ensures Valid() && (View(), reply) == StartJob(old(View()), owner, turn, choice)
    {
      ghost var s := View();
      StartJobKeepsInv(s, owner, turn, choice);
      PruneKeepsInv(s, choice.expired);
      reply := Admit(owner, turn, choice);
      assert View() == StartJob(s, owner, turn, choice).0;
    }

    method Admit(owner: string, turn: Option<Id>, choice: Choice) returns (reply: Result<()>)
      requires OrderedJobs(View()) && Inv(Prune(View(), choice.expired))
      modifies this`order, this`jobs
      ensures (View(), reply) == StartJob(old(View()), owner, turn, choice)
    {
      PruneExpired(choice.expired);
      var unfinished := CountUnfinished();
      if closed || |order| >= options.maxRecords || unfinished >= options.maxRunning + options.maxQueued {
        return Err(MailboxOverflowed);
      }
      if choice.generated.Err? {
        return Err(choice.generated.kind);
      }
      if choice.generated.value in jobs {
        return Err(Conflict);
      }
      var job := Job(
        owner, turn, JobState.Queued, false, false, 0, options.automaticDelivery, false, None, "", None, None, "", 0);
      reply := Queue(choice.generated.value, job, choice.expiredLater);
    }

    /** One waiting task of a team: launched if it is due and there is room. */
    method LaunchTask(p: Slot, choice: Choice) returns (full: bool)
      requires Valid()
      modifies this`order, this`jobs, this`tasks
      ensures Valid() && (View(), full) == Launch(old(View()), p, choice)
    {
      ghost var s := View();
      LaunchKeepsInv(s, p, choice);
      full := false;
      if Launchable(View(), p) {
        full := LaunchDue(p, choice);
      }
      assert View() == Launch(s, p, choice).0;
    }

    method LaunchDue(p: Slot, choice: Choice) returns (full: bool)
      requires Valid() && Launchable(View(), p)
      modifies this`order, this`jobs, this`tasks
      ensures (View(), full) == Launch(old(View()), p, choice)
    {
      var free := CheckCapacity(true, choice.expired);
      if !free {
        return true;
      }
      full := false;
      if choice.generated.Err? {
        tasks := tasks[p := tasks[p].(state := TaskState.Failed, error := Some(choice.generated.kind))];
        return;
      }
      Assign(p, choice.generated.value, choice.expiredLater);
    }

    /** The job of task `p`; the task fails when the queue refuses it. */
    method Assign(p: Slot, id: Id, expired: set<Id>)
      requires Valid() && p in tasks && p.team in teams
      modifies this`order, this`jobs, this`tasks
      ensures var u := Prune(old(View()), expired);
        View() == if !HasCapacity(u, true) then FailTask(u, p, MailboxOverflowed)
          else if id in u.jobs then FailTask(u, p, Conflict) else Launched(u, p, id)
    {
      var team, task := teams[p.team], tasks[p];
      var job := Job(
        team.owner, task.turn, JobState.Queued, false, false, 0, options.automaticDelivery, false, None, "",
        Some(p.team), Some(team.id), p.key, task.attempt);
      assert job == TeamJob(View(), p);
      var admitted := Queue(id, job, expired);
      if admitted.Err? {
        tasks := tasks[p := task.(state := TaskState.Failed, error := Some(admitted.kind))];
      } else {
        tasks := tasks[p := task.(state := TaskState.Queued, runId := Some(id))];
      }
    }

    // -------------------------------------------------------------- the pump

    /** All teams in order, their tasks in order, until the room is used up. */
    method PumpTasks(choices: Slot -> Choice)
      requires Valid() && !closed
      modifies this`order, this`jobs, this`tasks
      ensures Valid() && View() == PumpTeams(old(View()), choices)
    {
      ghost var goal := PumpTeams(View(), choices);
      var i := 0;
      assert teamOrder[0..] == teamOrder;
      while i < |teamOrder|
        invariant Valid() && 0 <= i <= |teamOrder|
        invariant LaunchEach(View(), Slots(teamOrder[i..], teams), choices) == goal
      {
        var h := teamOrder[i];
        ghost var rest := Slots(teamOrder[i + 1..], teams);
        assert h in teamOrder;
        SlotsStep(teamOrder, teams, i);
        var full := PumpTeam(h, rest, choices);
        if full {
          return;
        }
        i := i + 1;
      }
    }

    /** The tasks of one team; what the rest of the scan would do is unchanged unless it is full. */
    method PumpTeam(h: Handle, ghost rest: seq<Slot>, choices: Slot -> Choice) returns (full: bool)
      requires Valid() && h in teams
      modifies this`order, this`jobs, this`tasks
      ensures Valid()
      ensures old(LaunchEach(View(), SlotsOf(h, teams[h].keys) + rest, choices))
        == if full then View() else LaunchEach(View(), rest, choices)
    {
      var keys := teams[h].keys;
      ghost var slots := SlotsOf(h, keys) + rest;
      ghost var goal := LaunchEach(View(), slots, choices);
      var j := 0;
      assert slots[0..] == slots;
      while j < |keys|
        invariant Valid() && 0 <= j <= |keys|
        invariant LaunchEach(View(), slots[j..], choices) == goal
      {
        var p := Slot(h, keys[j]);
        assert slots[j..][0] == p && slots[j..][1..] == slots[j + 1..];
        full := LaunchTask(p, choices(p));
        if full {
          return;
        }
        j := j + 1;
      }
      assert slots[|keys|..] == rest;
      full := false;
    }

    /** Launches what is due, then starts queued jobs while there is room. */
    method PumpAll(choices: Slot -> Choice, broken: set<Id>)
      requires Valid()
      modifies this`order, this`jobs, this`tasks, this`active
      ensures Valid() && View() == Pump(old(View()), choices, broken)
    {
      if closed {
        return;
      }
      PumpTasks(choices);
      StartEachKeepsInv(View(), order, broken);
      StartQueued(broken);
    }

    method StartQueued(broken: set<Id>)
      requires forall id :: id in order ==> id in jobs
      modifies this`jobs, this`tasks, this`active
      ensures View() == StartEach(old(View()), old(order), broken)
    {
      ghost var goal := StartEach(View(), order, broken);
      var i := 0;
      assert order[0..] == order;
      while i < |order| && active < options.maxRunning
        invariant 0 <= i <= |order| && (forall id :: id in order ==> id in jobs)
        invariant StartEach(View(), order[i..], broken) == goal
      {
        var id := order[i];
        assert order[i..][0] == id && order[i..][1..] == order[i + 1..] && id in order;
        StartOneClears(View(), id, broken);
        StartJobNow(id, broken);
        i := i + 1;
      }
    }

    method StartJobNow(id: Id, broken: set<Id>)
      requires id in jobs
      modifies this`jobs, this`tasks, this`active
      ensures View() == StartOne(old(View()), id, broken)
    {
      if !jobs[id].state.Queued? {
        return;
      }
      if id in broken {
        Cancel(id, false);
        return;
      }
      Become(id, jobs[id].(state := JobState.Running));
      active := active + 1;
    }

    // -------------------------------------------------------------- requests of team leaders

    method TeamOf(owner: string) returns (found: Option<Handle>)
      ensures found == FindTeam(teamOrder, teams, owner)
    {
      var i := 0;
      assert teamOrder[0..] == teamOrder;
      while i < |teamOrder|
        invariant 0 <= i <= |teamOrder|
        invariant FindTeam(teamOrder[i..], teams, owner) == FindTeam(teamOrder, teams, owner)
      {
        assert teamOrder[i..][0] == teamOrder[i] && teamOrder[i..][1..] == teamOrder[i + 1..];
        if teamOrder[i] in teams && teams[teamOrder[i]].owner == owner {
          return Some(teamOrder[i]);
        }
        i := i + 1;
      }
      found := None;
    }

    method FirstDrained() returns (found: Option<Handle>)
      ensures found == FindDrained(View(), teamOrder)
    {
      var i := 0;
      assert teamOrder[0..] == teamOrder;
      while i < |teamOrder|
        invariant 0 <= i <= |teamOrder|
        invariant FindDrained(View(), teamOrder[i..]) == FindDrained(View(), teamOrder)
      {
        assert teamOrder[i..][0] == teamOrder[i] && teamOrder[i..][1..] == teamOrder[i + 1..];
        if Drained(View(), teamOrder[i]) {
          return Some(teamOrder[i]);
        }
        i := i + 1;
      }
      found := None;
    }

    method SetUpMembers(names: seq<string>, maxChildren: nat, refused: string -> Option<ErrorKind>)
      returns (members: Result<seq<string>>)
      ensures members == JoinAll([], names, maxChildren, refused)
    {
      var admitted: seq<string> := [];
      var i := 0;
      assert names[0..] == names;
      while i < |names|
        invariant 0 <= i <= |names|
        invariant JoinAll(admitted, names[i..], maxChildren, refused) == JoinAll([], names, maxChildren, refused)
      {
        assert names[i..][0] == names[i] && names[i..][1..] == names[i + 1..];
        var more := Joined(admitted, names[i], maxChildren, refused);
        if more.Err? {
          return more;
        }
        admitted := more.value;
        i := i + 1;
      }
      members := Ok(admitted);
    }

    method EraseTeam(h: Handle)
      modifies this`teamOrder, this`teams, this`tasks
      ensures View() == DropTeam(old(View()), h)
    {
      teamOrder := WithoutTeam(teamOrder, h);
      teams := teams - {h};
      tasks := map p | p in tasks && p.team != h :: tasks[p];
    }

    method Found(owner: string, names: seq<string>, maxChildren: nat, id: Result<Id>, refused: string -> Option<ErrorKind>)
      returns (reply: Result<()>)
      requires Valid()
      modifies this`teamOrder, this`teams, this`tasks, this`nextHandle
      ensures Valid() && (View(), reply) == CreateTeam(old(View()), owner, names, maxChildren, id, refused)
    {
      ghost var s := View();
      CreateKeepsInv(s, owner, names, maxChildren, id, refused);
      reply := ReplaceTeam(owner, names, maxChildren, id, refused);
      assert View() == CreateTeam(s, owner, names, maxChildren, id, refused).0;
    }

    method ReplaceTeam(owner: string, names: seq<string>, maxChildren: nat, id: Result<Id>, refused: string -> Option<ErrorKind>)
      returns (reply: Result<()>)
      modifies this`teamOrder, this`teams, this`tasks, this`nextHandle
      ensures (View(), reply) == CreateTeam(old(View()), owner, names, maxChildren, id, refused)
    {
      var retired := TeamOf(owner);
      if closed || (retired.Some? && !Drained(View(), retired.value)) {
        return Err(Conflict);
      }
      if retired.None? && |teamOrder| >= MAX_TEAMS {
        retired := FirstDrained();
      }
      if (retired.None? && |teamOrder| >= MAX_TEAMS) || |names| > maxChildren {
        return Err(MailboxOverflowed);
      }
      if id.Err? {
        return Err(id.kind);
      }
      var members := SetUpMembers(names, maxChildren, refused);
      if members.Err? {
        return Err(members.kind);
      }
      if retired.Some? {
        EraseTeam(retired.value);
      }
      teamOrder := teamOrder + [nextHandle];
      teams := teams[nextHandle := Team(owner, id.value, false, members.value, [])];
      nextHandle := nextHandle + 1;
      reply := Ok(());
    }

    method Enlist(owner: string, name: string, maxChildren: nat, refused: string -> Option<ErrorKind>)
      returns (reply: Result<()>)
      requires Valid()
      modifies this`teams
      ensures Valid() && (View(), reply) == AddMember(old(View()), owner, name, maxChildren, refused)
    {
      ghost var s := View();
      AddMemberKeepsInv(s, owner, name, maxChildren, refused);
      reply := JoinTeam(owner, name, maxChildren, refused);
      assert View() == AddMember(s, owner, name, maxChildren, refused).0;
    }

    method JoinTeam(owner: string, name: string, maxChildren: nat, refused: string -> Option<ErrorKind>)
      returns (reply: Result<()>)
      modifies this`teams
      ensures (View(), reply) == AddMember(old(View()), owner, name, maxChildren, refused)
    {
      var found := TeamOf(owner);
      if closed {
        return Err(Conflict);
      }
      if found.None? || found.value !in teams {
        return Err(NotFound);
      }
      var team := teams[found.value];
      if team.stopped {
        return Err(Conflict);
      }
      var members := Joined(team.members, name, maxChildren, refused);
      if members.Err? {
        return Err(members.kind);
      }
      teams := teams[found.value := team.(members := members.value)];
      reply := Ok(());
    }

    method Submit(owner: string, request: Request, expired: set<Id>) returns (reply: Result<()>)
      requires Valid()
      modifies this`order, this`jobs, this`teams, this`tasks
      ensures Valid() && (View(), reply) == SubmitTask(old(View()), owner, request, expired)
    {
      ghost var s := View();
      SubmitKeepsInv(s, owner, request, expired);
      reply := Post(owner, request, expired);
      assert View() == SubmitTask(s, owner, request, expired).0;
    }

    method Post(owner: string, request: Request, expired: set<Id>) returns (reply: Result<()>)
      requires Valid()
      modifies this`order, this`jobs, this`teams, this`tasks
      ensures (View(), reply) == SubmitTask(old(View()), owner, request, expired)
    {
      var found := TeamOf(owner);
      if closed {
        return Err(Conflict);
      }
      if found.None? || found.value !in teams {
        return Err(NotFound);
      }
      var h := found.value;
      var team := teams[h];
      if team.stopped {
        return Err(Conflict);
      }
      if |team.keys| >= MAX_TASKS {
        return Err(MailboxOverflowed);
      }
      if request.key in team.keys {
        return Err(Conflict);
      }
      if request.member !in team.members {
        return Err(NotFound);
      }
      if exists d :: d in request.dependsOn && d !in team.keys {
        return Err(InvalidArgument);
      }
      reply := PostOnBoard(h, request, expired);
    }

    method PostOnBoard(h: Handle, request: Request, expired: set<Id>) returns (reply: Result<()>)
      requires Valid() && h in teams
      modifies this`order, this`jobs, this`teams, this`tasks
      ensures reply == if HasRecordCapacity(Prune(old(View()), expired), false) then Ok(()) else Err(MailboxOverflowed)
      ensures View() == if reply.Ok? then Posted(Prune(old(View()), expired), h, request) else Prune(old(View()), expired)
    {
      var free := CheckRecordCapacity(false, expired);
      if !free {
        return Err(MailboxOverflowed);
      }
      var team := teams[h];
      var task := Task(|team.keys|, request.member, request.dependsOn, request.turn, Waiting, 1, None, "", None);
      teams := teams[h := team.(keys := team.keys + [request.key])];
      tasks := tasks[Slot(h, request.key) := task];
      reply := Ok(());
    }

    /** The leader accepts, revises or cancels an attempt. */
    method Judge(owner: string, review: Review, expired: set<Id>) returns (reply: Result<()>)
      requires Valid()
      modifies this`order, this`jobs, this`tasks
      ensures Valid() && (View(), reply) == UpdateTask(old(View()), owner, review, expired)
    {
      ghost var s := View();
      UpdateKeepsInv(s, owner, review, expired);
      reply := Decide(owner, review, expired);
      assert View() == UpdateTask(s, owner, review, expired).0;
    }

    method Decide(owner: string, review: Review, expired: set<Id>) returns (reply: Result<()>)
      requires Valid()
      modifies this`order, this`jobs, this`tasks
      ensures (View(), reply) == UpdateTask(old(View()), owner, review, expired)
    {
      var found := TeamOf(owner);
      if closed {
        return Err(Conflict);
      }
      if found.None? || found.value !in teams {
        return Err(NotFound);
      }
      var team, p := teams[found.value], Slot(found.value, review.key);
      if review.teamId != team.id {
        return Err(Conflict);
      }
      if p !in tasks {
        return Err(NotFound);
      }
      var task := tasks[p];
      if task.attempt != review.attempt {
        return Err(Conflict);
      }
      if task.state.Accepted? {
        return if review.action.Accept? then Ok(()) else Err(Conflict);
      }
      if review.action.Cancel? {
        Withdraw(p, expired);
        return Ok(());
      }
      if team.stopped {
        return Err(Conflict);
      }
      if review.action.Accept? {
        if !task.state.InReview? {
          return Err(Conflict);
        }
        tasks := tasks[p := task.(state := Accepted)];
        return Ok(());
      }
      reply := ReviseTask(p, review.turn, expired);
    }

    method ReviseTask(p: Slot, turn: Option<Id>, expired: set<Id>) returns (reply: Result<()>)
      requires Valid() && p in tasks
      modifies this`order, this`jobs, this`tasks
      ensures var s := old(View());
        (View(), reply) ==
          if !s.tasks[p].state.InReview? && !s.tasks[p].state.Failed? then (s, Err(Conflict))
          else if s.tasks[p].attempt == MAX_ATTEMPTS then (s, Err(MailboxOverflowed))
          else if !HasRecordCapacity(Prune(s, expired), false) then (Prune(s, expired), Err(MailboxOverflowed))
          else (Retried(Prune(s, expired), p, turn), Ok(()))
    {
      var task := tasks[p];
      if !task.state.InReview? && !task.state.Failed? {
        return Err(Conflict);
      }
      if task.attempt == MAX_ATTEMPTS {
        return Err(MailboxOverflowed);
      }
      reply := RetryTask(p, turn, expired);
    }

    method RetryTask(p: Slot, turn: Option<Id>, expired: set<Id>) returns (reply: Result<()>)
      requires Valid() && p in tasks
      modifies this`order, this`jobs, this`tasks
      ensures reply == if HasRecordCapacity(Prune(old(View()), expired), false) then Ok(()) else Err(MailboxOverflowed)
      ensures View() == if reply.Ok? then Retried(Prune(old(View()), expired), p, turn) else Prune(old(View()), expired)
    {
      var task := tasks[p];
      var free := CheckRecordCapacity(false, expired);
      if !free {
        return Err(MailboxOverflowed);
      }
      var next := task.(
        attempt := task.attempt + 1, state := Waiting, runId := None, report := "", error := None, turn := turn);
      assert next == Retry(task, turn);
      tasks := tasks[p := next];
      reply := Ok(());
    }

    /** Cancels a task, and its job if it has one. */
    method Withdraw(p: Slot, expired: set<Id>)
      requires OrderedJobs(View()) && p in tasks && p.team in teams
      modifies this`order, this`jobs, this`tasks
      ensures View() == CancelTask(old(View()), p, expired)
    {
      var run, owner := tasks[p].runId, teams[p.team].owner;
      PruneExpired(expired);
      if run.Some? && run.value in jobs && jobs[run.value].owner == owner {
        Cancel(run.value, false);
      }
      if p in tasks && !Active(tasks[p].state) {
        tasks := tasks[p := tasks[p].(state := TaskState.Cancelled)];
      }
    }

    // -------------------------------------------------------------- stopping

    /** Cancels the picked jobs in order. */
    method CancelPicked(picked: set<Id>)
      requires forall id :: id in order ==> id in jobs
      modifies this`jobs, this`tasks
      ensures View() == CancelEach(old(View()), Only(order, picked))
    {
      ghost var s := View();
      ghost var goal := CancelEach(s, Only(order, picked));
      var i := 0;
      assert order[0..] == order;
      while i < |order|
        invariant 0 <= i <= |order| && (forall id :: id in order ==> id in jobs)
        invariant CancelEach(View(), Only(order[i..], picked)) == goal
      {
        var id := order[i];
        assert order[i..][0] == id && order[i..][1..] == order[i + 1..] && id in order;
        if id in picked {
          PickFirst(View(), order[i..], picked);
          CancelIsOnward(View(), id, false);
          Cancel(id, false);
        } else {
          assert Only(order[i..], picked) == Only(order[i + 1..], picked);
        }
        i := i + 1;
      }
    }

    /** Cancels what is neither under way nor accepted. */
    method Sweep(h: Handle)
      requires h in teams && (forall p :: p in tasks && p.team == h ==> p.key in teams[h].keys)
      modifies this`tasks
      ensures tasks == map p | p in old(tasks) :: if p.team == h then Swept(old(tasks)[p]) else old(tasks)[p]
    {
      var keys := teams[h].keys;
      var j := 0;
      while j < |keys|
        invariant 0 <= j <= |keys| && tasks.Keys == old(tasks).Keys
        invariant forall p :: p in tasks ==>
          tasks[p] == if p.team == h && p.key in keys[..j] then Swept(old(tasks)[p]) else old(tasks)[p]
      {
        var p := Slot(h, keys[j]);
        assert keys[..j + 1] == keys[..j] + [keys[j]];
        if p in tasks && !Active(tasks[p].state) && !tasks[p].state.Accepted? {
          tasks := tasks[p := tasks[p].(state := TaskState.Cancelled)];
        }
        j := j + 1;
      }
      assert keys[..|keys|] == keys;
    }

    method StopWork(h: Handle)
      requires Covered(View()) && h in teams
      modifies this`jobs, this`teams, this`tasks
      ensures View() == StopTeam(old(View()), h)
    {
      ghost var s := View();
      var team := teams[h];
      teams := teams[h := team.(stopped := true)];
      var picked := set id | id in jobs && jobs[id].owner == team.owner && jobs[id].teamId == Some(team.id);
      assert picked == JobsOfTeam(s, team);
      CancelEachIgnoresTeams(s, teams, Only(order, picked));
      CancelEachIsOnward(s, Only(order, picked));
      CancelPicked(picked);
      Sweep(h);
    }

    method StopOwned(owner: string) returns (reply: Result<()>)
      requires Valid()
      modifies this`jobs, this`teams, this`tasks
      ensures Valid() && (View(), reply) == StopByOwner(old(View()), owner)
    {
      ghost var s := View();
      StopByOwnerKeepsInv(s, owner);
      InvCovers(s);
      FindTeamIs(teamOrder, teams, owner);
      var found := TeamOf(owner);
      if found.None? {
        return Err(NotFound);
      }
      StopWork(found.value);
      assert View() == StopByOwner(s, owner).0;
      reply := Ok(());
    }

    /** Cancels the waiting tasks of one turn. */
    method DropWaiting(h: Handle, turn: Id)
      requires h in teams && (forall p :: p in tasks && p.team == h ==> p.key in teams[h].keys)
      modifies this`tasks
      ensures View() == CancelWaiting(old(View()), h, turn)
    {
      var keys := teams[h].keys;
      var j := 0;
      while j < |keys|
        invariant 0 <= j <= |keys| && tasks.Keys == old(tasks).Keys
        invariant forall p :: p in tasks ==>
          tasks[p] == if p.team == h && p.key in keys[..j] then CalledOff(old(tasks)[p], turn) else old(tasks)[p]
      {
        var p := Slot(h, keys[j]);
        assert keys[..j + 1] == keys[..j] + [keys[j]];
        if p in tasks && tasks[p].turn == Some(turn) && tasks[p].state.Waiting? {
          tasks := tasks[p := tasks[p].(state := TaskState.Cancelled)];
        }
        j := j + 1;
      }
      assert keys[..|keys|] == keys;
    }

    /** A session, or one of its turns, ends: its team's work and its jobs are cancelled. */
    method CancelAllOf(owner: string, turn: Option<Id>)
      requires Valid()
      modifies this`jobs, this`teams, this`tasks
      ensures Valid() && View() == CancelOwner(old(View()), owner, turn)
    {
      ghost var s := View();
      CancelOwnerKeepsInv(s, owner, turn);
      InvCovers(s);
      EndOwner(owner, turn);
      assert View() == CancelOwner(s, owner, turn);
    }

    method EndOwner(owner: string, turn: Option<Id>)
      requires Covered(View())
      modifies this`jobs, this`teams, this`tasks
      ensures View() == CancelOwner(old(View()), owner, turn)
    {
      FindTeamIs(teamOrder, teams, owner);
      var found := TeamOf(owner);
      if found.Some? && turn.None? {
        StopCovers(View(), found.value);
        StopWork(found.value);
      } else if found.Some? {
        DropWaiting(found.value, turn.value);
      }
      var picked := set id | id in jobs && jobs[id].owner == owner && (turn.None? || jobs[id].turn == turn);
      assert picked == JobsOfOwner(View(), owner, turn);
      CancelPicked(picked);
    }

    /** `shutdown` up to its wait: nothing is admitted from here on and everything is asked to stop. */
    method BeginShutdown() returns (reply: Result<()>)
      requires Valid()
      modifies this`jobs, this`teams, this`tasks, this`closed, this`joining
      ensures Valid() && joining
      ensures reply == if old(joining) then Err(Conflict) else Ok(())
      ensures View() == if old(joining) then old(View()) else Close(old(View()))
    {
      if joining {
        return Err(Conflict);
      }
      ghost var s := View();
      CloseKeepsInv(s);
      InvCovers(s);
      joining := true;
      StopAll();
      assert View() == Close(s);
      reply := Ok(());
    }

    method StopAll()
      requires Covered(View()) && (forall h :: h in teamOrder ==> h in teams)
      modifies this`jobs, this`teams, this`tasks, this`closed
      ensures View() == Close(old(View()))
    {
      ghost var s := View();
      ghost var goal := StopEach(s, teamOrder);
      closed := true;
      ghost var g := s;
      var i := 0;
      assert teamOrder[0..] == teamOrder;
      while i < |teamOrder|
        invariant 0 <= i <= |teamOrder| && View() == g.(closed := true) && Covered(g)
        invariant forall h :: h in teamOrder ==> h in teams
        invariant StopEach(g, teamOrder[i..]) == goal
      {
        var h := teamOrder[i];
        assert teamOrder[i..][0] == h && teamOrder[i..][1..] == teamOrder[i + 1..] && h in teamOrder;
        StopIgnoresClosed(g, h);
        StopCovers(g, h);
        StopWork(h);
        g := StopTeam(g, h);
        i := i + 1;
      }
      assert g == goal;
      CancelEachIgnoresClosed(g, g.order);
      OnlyAll(order, jobs.Keys);
      CancelPicked(jobs.Keys);
    }

    /** The wait of `shutdown`: it returns once no job is active. */
    method PollShutdown() returns (done: bool)
      requires Valid() && closed
      modifies this`joining
      ensures done == (active == 0) && joining == (old(joining) && !done)
      ensures done ==> forall id :: id in jobs ==> Terminal(jobs[id].state)
    {
      done := active == 0;
      if done {
        joining := false;
        ShutdownIsComplete(View());
      }
    }

    // -------------------------------------------------------------- delivery of reports

    method NextReport(owner: string) returns (next: Option<Id>)
      ensures next == Completion.NextCompletion(View(), order, owner)
    {
      var i := 0;
      assert order[0..] == order;
      while i < |order|
        invariant 0 <= i <= |order|
        invariant Completion.NextCompletion(View(), order[i..], owner) == Completion.NextCompletion(View(), order, owner)
      {
        var id := order[i];
        assert order[i..][0] == id && order[i..][1..] == order[i + 1..];
        if id in jobs && jobs[id].owner == owner && Terminal(jobs[id].state) && jobs[id].automatic
          && !jobs[id].acknowledged && !jobs[id].claimed {
          return Some(id);
        }
        i := i + 1;
      }
      next := None;
    }

    method ClaimReport(owner: string, id: Id, expired: set<Id>) returns (reply: Result<bool>)
      requires OrderedJobs(View())
      modifies this`order, this`jobs
      ensures (View(), reply) == ClaimCompletion(old(View()), owner, id, expired)
    {
      PruneExpired(expired);
      if id !in jobs || jobs[id].owner != owner {
        return Err(NotFound);
      }
      if jobs[id].acknowledged {
        return Ok(false);
      }
      if !Terminal(jobs[id].state) || jobs[id].claimed {
        return Err(Conflict);
      }
      jobs := jobs[id := jobs[id].(claimed := true)];
      reply := Ok(true);
    }

    method FinishReport(owner: string, id: Id, committed: bool, expired: set<Id>)
      requires OrderedJobs(View())
      modifies this`order, this`jobs
      ensures View() == FinishCompletion(old(View()), owner, id, committed, expired)
    {
      PruneExpired(expired);
      if id in jobs && jobs[id].owner == owner {
        var job := jobs[id];
        jobs := jobs[id := job.(
          claimed := false,
          acknowledged := job.acknowledged || committed,
          commits := job.commits + if committed then 1 else 0)];
      }
    }

    /** `run_completion` up to its prompt: the batch of reports that is handed to the parent. */
    method ClaimBatch(owner: string, id: Id, now: set<Id>, later: nat -> set<Id>) returns (reply: Result<bool>, ids: seq<Id>)
      requires Valid()
      modifies this`order, this`jobs
      ensures var (t, claimed) := ClaimCompletion(old(View()), owner, id, now);
        && reply == claimed
        && (View(), ids) == if claimed == Ok(true)
          then (Completion.Gather(t, owner, [id], later).0, Completion.Gather(t, owner, [id], later).1) else (t, [])
      ensures Valid() && |ids| <= Completion.MAX_BATCH && Distinct(ids)
      ensures |ids| == Completion.MAX_BATCH || reply != Ok(true) ||
        forall k :: k in jobs ==> !Completion.Deliverable(View(), owner, k)
    {
      ghost var s := View();
      Completion.BatchKeepsInv(s, owner, id, now, later);
      Completion.ClaimKeepsAutomatic(s, owner, id, now);
      reply := ClaimReport(owner, id, now);
      if reply != Ok(true) {
        return reply, [];
      }
      Completion.BatchIs(s, owner, id, now, later);
      Completion.ClaimIs(s, owner, id, now);
      ids := GatherBatch(owner, id, later);
      assert View() == Completion.Gather(ClaimCompletion(s, owner, id, now).0, owner, [id], later).0;
    }

    method GatherBatch(owner: string, id: Id, later: nat -> set<Id>) returns (ids: seq<Id>)
      requires OrderedJobs(View()) && Automatic(View())
      modifies this`order, this`jobs
      ensures (View(), ids) ==
        (Completion.Gather(old(View()), owner, [id], later).0, Completion.Gather(old(View()), owner, [id], later).1)
    {
      ids := [id];
      ghost var goal := Completion.Gather(View(), owner, ids, later);
      while |ids| < Completion.MAX_BATCH
        invariant |ids| <= Completion.MAX_BATCH && OrderedJobs(View()) && Automatic(View())
        invariant Completion.Gather(View(), owner, ids, later) == goal
        decreases Completion.MAX_BATCH - |ids|
      {
        var next := NextReport(owner);
        if next.None? {
          return;
        }
        Completion.NextIs(View(), order, owner);
        Completion.ReadyIsClaimed(View(), owner, next.value, later(|ids|));
        Completion.ClaimKeepsAutomatic(View(), owner, next.value, later(|ids|));
        var claimed := ClaimReport(owner, next.value, later(|ids|));
        ids := ids + [next.value];
      }
    }

    /** The batch is committed, or its claims are released. */
    method SettleBatch(owner: string, ids: seq<Id>, committed: bool, expired: Id -> set<Id>)
      requires Valid()
      modifies this`order, this`jobs
      ensures Valid() && View() == Completion.FinishEach(old(View()), owner, ids, committed, expired)
    {
      ghost var goal := Completion.FinishEach(View(), owner, ids, committed, expired);
      var i := 0;
      assert ids[0..] == ids;
      while i < |ids|
        invariant Valid() && 0 <= i <= |ids|
        invariant Completion.FinishEach(View(), owner, ids[i..], committed, expired) == goal
      {
        assert ids[i..][0] == ids[i] && ids[i..][1..] == ids[i + 1..];
        ghost var s := View();
        FinishCompletionKeepsInv(s, owner, ids[i], committed, expired(ids[i]));
        FinishReport(owner, ids[i], committed, expired(ids[i]));
        assert View() == FinishCompletion(s, owner, ids[i], committed, expired(ids[i]));
        i := i + 1;
      }
    }
  }
}

/** How a stopped background job ends, whatever happens between the stop and its end
    (src/oran-bootstrap/background_tasks.cpp). */
module TaskBoardStops {
  import opened Core
  import opened TaskBoard
  import opened TaskBoardInvariant
  import opened TaskBoardSteps
  import opened TaskBoardTeams
  import opened TaskBoardRuns
  import opened TaskBoardLaws

  /** The job after `cancel_job`: stopped if it was not, acknowledged if a caller asked. A queued job
      ends at once and lets go of its team, a running one is on its way. */
  function AfterCancel(job: Job, timeout: bool): Job {
    var heard := job.acknowledged || !timeout;
    if Ending(job.state) then job.(acknowledged := heard)
    else if job.state.Running? then
      job.(state := JobState.Cancelling, timedOut := job.timedOut || timeout, acknowledged := heard)
    else if timeout then
      job.(state := JobState.Failed, error := Some(Timeout), timedOut := true, acknowledged := heard, team := None)
    else job.(state := JobState.Cancelled, error := Some(ErrorKind.Cancelled), acknowledged := heard, team := None)
  }

  predicate Became(t: State, id: Id, b: Job) {
    id in t.jobs && t.jobs[id] == b
  }

  lemma CancelledIs(job: Job, timeout: bool)
    requires !Ending(job.state)
    ensures var c := CancelledJob(job, timeout);
      AfterCancel(job, timeout) == if Terminal(c.state) then c.(team := None) else c
  {
  }

  lemma CancelOnJob(s: State, id: Id, timeout: bool, k: Id)
    requires k in s.jobs
    ensures Became(CancelJob(s, id, timeout), k, if k == id then AfterCancel(s.jobs[k], timeout) else s.jobs[k])
  {
    if k == id && !Ending(s.jobs[k].state) {
      CancelledIs(s.jobs[k], timeout);
    }
  }

  lemma AfterCancelTwice(job: Job)
    ensures AfterCancel(AfterCancel(job, false), false) == AfterCancel(job, false)
  {
  }

  lemma {:induction false} CancelEachOnJob(s: State, ids: seq<Id>, k: Id)
    requires k in s.jobs
    ensures Became(CancelEach(s, ids), k, if k in ids then AfterCancel(s.jobs[k], false) else s.jobs[k])
    decreases |ids|
  {
    if ids != [] {
      assert ids == [ids[0]] + ids[1..];
      CancelOnJob(s, ids[0], false, k);
      CancelEachOnJob(CancelJob(s, ids[0], false), ids[1..], k);
      AfterCancelTwice(s.jobs[k]);
    }
  }

  // ---------------------------------------------------------------- who asks for a job to be cancelled

  /** The task whose cancellation this review asks for has the job's run. */
  predicate ReviewCancels(s: State, owner: string, review: Review, id: Id)
    requires id in s.jobs
  {
    var found := FindTeam(s.teamOrder, s.teams, owner);
    && !s.closed && found.Some? && found.value in s.teams && review.teamId == s.teams[found.value].id
    && Slot(found.value, review.key) in s.tasks
    && var task := s.tasks[Slot(found.value, review.key)];
    && task.attempt == review.attempt && !task.state.Accepted? && review.action.Cancel?
    && task.runId == Some(id) && s.jobs[id].owner == s.teams[found.value].owner
  }

  /** In this event a caller asks for the job to be cancelled: by its identity, through its task, with
      its team, with its session or turn, or with the whole service. */
  predicate CallerCancels(s: State, e: Event, id: Id)
    requires id in s.jobs
  {
    match e
    case CancelEvent(i, owner, _) => i == id && s.jobs[id].owner == owner
    case ReviewEvent(owner, review, _) => ReviewCancels(s, owner, review, id)
    case StopEvent(owner) =>
      var found := FindTeam(s.teamOrder, s.teams, owner);
      found.Some? && found.value in s.teams && id in JobsOfTeam(s, s.teams[found.value])
    case CancelOwnerEvent(owner, turn) => id in JobsOfOwner(s, owner, turn)
    case CloseEvent => true
    case _ => false
  }

  // ---------------------------------------------------------------- what one event does to a job

  /** A session gets the report of this job. */
  predicate Claims(s: State, owner: string, i: Id, id: Id)
    requires id in s.jobs
  {
    var a := s.jobs[id];
    i == id && a.owner == owner && !a.acknowledged && Terminal(a.state) && !a.claimed
  }

  /** A session commits the report of this job to its parent. */
  predicate Commits(s: State, e: Event, id: Id)
    requires id in s.jobs
  {
    e.SettleEvent? && e.committed && e.id == id && s.jobs[id].owner == e.owner
  }

  /** Exactly what may become of a job that must not be forgotten yet. */
  predicate OnJob(s: State, e: Event, id: Id, b: Job)
    requires id in s.jobs
  {
    var a := s.jobs[id];
    match e
    case ClaimEvent(owner, i, _) => b == if Claims(s, owner, i, id) then a.(claimed := true) else a
    case SettleEvent(i, owner, committed, _) =>
      if i == id && a.owner == owner then
        b == a.(claimed := false, acknowledged := a.acknowledged || committed, commits := a.commits + if committed then 1 else 0)
      else b == a
    case FinishEvent(i, outcome) => if i == id && Live(a.state) then JobEnds(a, outcome, b) else b == a
    case DeadlineEvent(i) => b == if i == id then AfterCancel(a, true) else a
    case PumpEvent(_, broken) =>
      b == a || (a.state.Queued? && b == if id in broken then AfterCancel(a, false) else a.(state := JobState.Running))
    case _ => b == if CallerCancels(s, e, id) then AfterCancel(a, false) else a
  }

  lemma {:induction false} StartEachOnJob(s: State, ids: seq<Id>, broken: set<Id>, k: Id)
    requires k in s.jobs
    ensures var t, a := StartEach(s, ids, broken), s.jobs[k];
      k in t.jobs && (t.jobs[k] == a ||
        (a.state.Queued? && t.jobs[k] == if k in broken then AfterCancel(a, false) else a.(state := JobState.Running)))
    decreases |ids|
  {
    if ids != [] && s.active < s.options.maxRunning {
      var t := StartOne(s, ids[0], broken);
      if ids[0] in s.jobs && s.jobs[ids[0]].state.Queued? {
        if ids[0] in broken {
          CancelOnJob(s, ids[0], false, k);
        }
      }
      StartEachOnJob(t, ids[1..], broken, k);
    }
  }

  lemma PumpOnJob(s: State, e: Event, id: Id)
    requires e.PumpEvent? && id in s.jobs && !Prunable(s.options, s.jobs[id])
    ensures id in Pump(s, e.choices, e.broken).jobs && OnJob(s, e, id, Pump(s, e.choices, e.broken).jobs[id])
  {
    if !s.closed {
      var t := PumpTeams(s, e.choices);
      LaunchEachRetains(s, Slots(s.teamOrder, s.teams), e.choices);
      StartEachOnJob(t, t.order, e.broken, id);
    }
  }

  lemma JobStepOnJob(s: State, e: Event, id: Id)
    requires OfJobs(e) && id in s.jobs && !Prunable(s.options, s.jobs[id])
    ensures id in JobStep(s, e).jobs && OnJob(s, e, id, JobStep(s, e).jobs[id])
  {
    match e
    case StartEvent(owner, turn, choice) => StartJobRetains(s, owner, turn, choice);
    case DeadlineEvent(i) => CancelOnJob(s, i, true, id);
    case FinishEvent(i, outcome) =>
      if i in s.jobs && Live(s.jobs[i].state) {
        FinishedEnds(s.jobs[i], outcome);
      }
    case CancelEvent(i, owner, expired) =>
      PruneRetains(s, expired);
      CancelOnJob(Prune(s, expired), i, false, id);
    case PruneEvent(expired) => PruneRetains(s, expired);
    case PumpEvent(choices, broken) => PumpOnJob(s, e, id);
  }

  lemma ReportStepOnJob(s: State, e: Event, id: Id)
    requires OfReports(e) && id in s.jobs && !Prunable(s.options, s.jobs[id])
    ensures id in ReportStep(s, e).jobs && OnJob(s, e, id, ReportStep(s, e).jobs[id])
  {
  }

  // ---------------------------------------------------------------- requests and stops

  /** Stopping a team cancels its jobs. */
  lemma StopOnJob(s: State, h: Handle, id: Id)
    requires OrderedJobs(s) && id in s.jobs
    ensures var hit := h in s.teams && id in JobsOfTeam(s, s.teams[h]);
      Became(StopTeam(s, h), id, if hit then AfterCancel(s.jobs[id], false) else s.jobs[id])
  {
    if h in s.teams {
      var picked := JobsOfTeam(s, s.teams[h]);
      OnlyIs(s.order, picked);
      CancelEachOnJob(s, Only(s.order, picked), id);
    }
  }

  lemma StopKeepsOrder(s: State, h: Handle)
    ensures StopTeam(s, h).order == s.order && StopTeam(s, h).jobs.Keys == s.jobs.Keys
  {
    if h in s.teams {
      CancelEachIsOnward(s, Only(s.order, JobsOfTeam(s, s.teams[h])));
    }
  }

  lemma {:induction false} StopEachOnJob(s: State, hs: seq<Handle>, id: Id)
    requires OrderedJobs(s) && id in s.jobs
    ensures var t := StopEach(s, hs); Became(t, id, s.jobs[id]) || Became(t, id, AfterCancel(s.jobs[id], false))
    ensures StopEach(s, hs).order == s.order
    decreases |hs|
  {
    if hs != [] {
      StopOnJob(s, hs[0], id);
      StopKeepsOrder(s, hs[0]);
      StopEachOnJob(StopTeam(s, hs[0]), hs[1..], id);
      AfterCancelTwice(s.jobs[id]);
    }
  }

  lemma CloseOnJob(s: State, id: Id)
    requires OrderedJobs(s) && id in s.jobs
    ensures Became(Close(s), id, AfterCancel(s.jobs[id], false))
  {
    var t := StopEach(s, s.teamOrder);
    StopEachOnJob(s, s.teamOrder, id);
    CancelEachOnJob(t, t.order, id);
    AfterCancelTwice(s.jobs[id]);
  }

  /** Ending a session or a turn cancels its jobs, those of its team among them. */
  lemma CancelOwnerOnJob(s: State, owner: string, turn: Option<Id>, id: Id)
    requires OrderedJobs(s) && id in s.jobs
    ensures var hit := id in JobsOfOwner(s, owner, turn);
      Became(CancelOwner(s, owner, turn), id, if hit then AfterCancel(s.jobs[id], false) else s.jobs[id])
  {
    var found := FindTeam(s.teamOrder, s.teams, owner);
    FindTeamIs(s.teamOrder, s.teams, owner);
    if found.None? {
      CancelPickedOnJob(s, s, owner, turn, id);
    } else if turn.None? {
      StopOnJob(s, found.value, id);
      StopKeepsOrder(s, found.value);
      CancelPickedOnJob(s, StopTeam(s, found.value), owner, turn, id);
    } else {
      CancelPickedOnJob(s, CancelWaiting(s, found.value, turn.value), owner, turn, id);
    }
  }

  lemma CancelPickedOnJob(s: State, t: State, owner: string, turn: Option<Id>, id: Id)
    requires id in s.jobs && id in t.order
    requires Became(t, id, s.jobs[id]) || (id in JobsOfOwner(s, owner, turn) && Became(t, id, AfterCancel(s.jobs[id], false)))
    ensures var hit := id in JobsOfOwner(s, owner, turn);
      Became(CancelEach(t, Only(t.order, JobsOfOwner(t, owner, turn))), id,
             if hit then AfterCancel(s.jobs[id], false) else s.jobs[id])
  {
    var picked := JobsOfOwner(t, owner, turn);
    OnlyIs(t.order, picked);
    CancelEachOnJob(t, Only(t.order, picked), id);
    AfterCancelTwice(s.jobs[id]);
  }

  lemma CancelTaskOnJob(s: State, p: Slot, expired: set<Id>, id: Id)
    requires p in s.tasks && p.team in s.teams && id in s.jobs && !Prunable(s.options, s.jobs[id])
    ensures var hit := s.tasks[p].runId == Some(id) && s.jobs[id].owner == s.teams[p.team].owner;
      Became(CancelTask(s, p, expired), id, if hit then AfterCancel(s.jobs[id], false) else s.jobs[id])
  {
    PruneRetains(s, expired);
    var run := s.tasks[p].runId;
    if run.Some? {
      CancelOnJob(Prune(s, expired), run.value, false, id);
    }
  }

  lemma UpdateOnJob(s: State, owner: string, review: Review, expired: set<Id>, id: Id)
    requires id in s.jobs && !Prunable(s.options, s.jobs[id])
    ensures var hit := ReviewCancels(s, owner, review, id);
      Became(UpdateTask(s, owner, review, expired).0, id, if hit then AfterCancel(s.jobs[id], false) else s.jobs[id])
  {
    PruneRetains(s, expired);
    var found := FindTeam(s.teamOrder, s.teams, owner);
    if found.Some? && found.value in s.teams && Slot(found.value, review.key) in s.tasks {
      CancelTaskOnJob(s, Slot(found.value, review.key), expired, id);
    }
  }

  lemma TeamStepOnJob(s: State, e: Event, id: Id)
    requires Inv(s) && OfTeams(e) && id in s.jobs && !Prunable(s.options, s.jobs[id])
    ensures id in TeamStep(s, e).jobs && OnJob(s, e, id, TeamStep(s, e).jobs[id])
  {
    match e
    case CreateEvent(owner, names, max, generated, refused) => CreateJobs(s, owner, names, max, generated, refused);
    case JoinEvent(owner, name, max, refused) => JoinJobs(s, owner, name, max, refused);
    case SubmitEvent(owner, request, expired) => SubmitSucceeds(s, owner, request, expired);
    case ReviewEvent(owner, review, expired) => UpdateOnJob(s, owner, review, expired, id);
    case StopEvent(owner) =>
      var found := FindTeam(s.teamOrder, s.teams, owner);
      if found.Some? {
        StopOnJob(s, found.value, id);
      }
    case CancelOwnerEvent(owner, turn) => CancelOwnerOnJob(s, owner, turn, id);
    case CloseEvent => CloseOnJob(s, id);
  }

  /** Over any event, a job that must not be forgotten yet changes exactly as the event says. */
  lemma JobsChangeLawfully(s: State, e: Event, id: Id)
    requires Inv(s) && id in s.jobs && !Prunable(s.options, s.jobs[id])
    ensures id in Step(s, e).jobs && OnJob(s, e, id, Step(s, e).jobs[id])
  {
    if OfJobs(e) {
      JobStepOnJob(s, e, id);
    } else if OfReports(e) {
      ReportStepOnJob(s, e, id);
    } else {
      TeamStepOnJob(s, e, id);
    }
  }

  // ---------------------------------------------------------------- from the stop to the end

  /** A job stopped by its deadline, or not, that is still ending or has ended as such. */
  predicate StoppedBy(job: Job, timeout: bool, result: string) {
    && job.timedOut == timeout && job.result == result
    && (job.state.Cancelling? ||
      (job.state == (if timeout then JobState.Failed else JobState.Cancelled)
        && job.error == Some(if timeout then Timeout else ErrorKind.Cancelled)))
  }

  /** The event that stops a job decides how it is stopped. */
  lemma StopDecides(s: State, e: Event, id: Id)
    requires Inv(s) && id in s.jobs && !Ending(s.jobs[id].state) && !e.FinishEvent?
    requires id in Step(s, e).jobs && Ending(Step(s, e).jobs[id].state)
    ensures var a, b := s.jobs[id], Step(s, e).jobs[id];
      StoppedBy(b, e.DeadlineEvent?, a.result) && b.acknowledged == (a.acknowledged || !e.DeadlineEvent?)
  {
    JobsChangeLawfully(s, e, id);
    StoppingDecides(s, e, id, Step(s, e).jobs[id]);
  }

  lemma StoppingDecides(s: State, e: Event, id: Id, b: Job)
    requires id in s.jobs && !Ending(s.jobs[id].state) && !s.jobs[id].timedOut && !e.FinishEvent?
    requires OnJob(s, e, id, b) && Ending(b.state)
    ensures StoppedBy(b, e.DeadlineEvent?, s.jobs[id].result)
    ensures b.acknowledged == (s.jobs[id].acknowledged || !e.DeadlineEvent?)
  {
    CancelDecides(s.jobs[id], true);
    CancelDecides(s.jobs[id], false);
  }

  lemma CancelDecides(job: Job, timeout: bool)
    requires !Ending(job.state) && !job.timedOut
    ensures var b := AfterCancel(job, timeout);
      StoppedBy(b, timeout, job.result) && b.acknowledged == (job.acknowledged || !timeout)
  {
  }

  /** After that nothing but the end itself changes the job, except that a caller's request or the commit
      of its report acknowledges it. */
  lemma StopLasts(s: State, e: Event, id: Id, timeout: bool, result: string)
    requires Inv(s) && id in s.jobs && StoppedBy(s.jobs[id], timeout, result) && !Prunable(s.options, s.jobs[id])
    ensures id in Step(s, e).jobs
    ensures var b := Step(s, e).jobs[id];
      StoppedBy(b, timeout, result) && b.acknowledged == (s.jobs[id].acknowledged || Acknowledges(s, e, id))
  {
    JobsChangeLawfully(s, e, id);
    EndingLasts(s, e, id, Step(s, e).jobs[id], timeout, result);
  }

  lemma EndingLasts(s: State, e: Event, id: Id, b: Job, timeout: bool, result: string)
    requires id in s.jobs && StoppedBy(s.jobs[id], timeout, result) && OnJob(s, e, id, b)
    ensures StoppedBy(b, timeout, result) && b.acknowledged == (s.jobs[id].acknowledged || Acknowledges(s, e, id))
  {
  }

  /** A caller asks for the job to be cancelled, or its report is committed. */
  predicate Acknowledges(s: State, e: Event, id: Id)
    requires id in s.jobs
  {
    CallerCancels(s, e, id) || Commits(s, e, id)
  }

  /** Between two states of a run some caller asked for the job to be cancelled, or its report was
      committed. */
  ghost predicate AcknowledgedBetween(run: seq<State>, events: seq<Event>, i: nat, j: nat, id: Id) {
    exists n: nat :: i <= n < j && n < |run| && n < |events| && AcknowledgedAt(run, events, n, id)
  }

  predicate AcknowledgedAt(run: seq<State>, events: seq<Event>, n: nat, id: Id)
    requires n < |run| && n < |events|
  {
    id in run[n].jobs && Acknowledges(run[n], events[n], id)
  }

  /** Step `n` of the run leaves a stopped job stopped. */
  ghost predicate StaysStopped(run: seq<State>, events: seq<Event>, n: nat, id: Id, timeout: bool, result: string) {
    && n + 1 < |run| && n < |events|
    && (id in run[n].jobs && StoppedBy(run[n].jobs[id], timeout, result) && !Prunable(run[n].options, run[n].jobs[id]) ==>
      && id in run[n + 1].jobs && StoppedBy(run[n + 1].jobs[id], timeout, result)
      && run[n + 1].jobs[id].acknowledged == (run[n].jobs[id].acknowledged || AcknowledgedAt(run, events, n, id)))
  }

  lemma RunStopLasts(run: seq<State>, events: seq<Event>, n: nat, id: Id, timeout: bool, result: string)
    requires Run(run, events) && Inv(run[0]) && n < |events|
    ensures StaysStopped(run, events, n, id, timeout, result)
  {
    RunKeepsInv(run, events, n);
    var s := run[n];
    if id in s.jobs && StoppedBy(s.jobs[id], timeout, result) && !Prunable(s.options, s.jobs[id]) {
      StopLasts(s, events[n], id, timeout, result);
    }
  }

  /** The record of the job is not up for being forgotten before `j`. */
  ghost predicate Needed(run: seq<State>, i: nat, j: nat, id: Id) {
    forall n: nat :: i <= n < j && n < |run| ==> id in run[n].jobs && !Prunable(run[n].options, run[n].jobs[id])
  }

  lemma {:induction false} StoppedThroughout(
    run: seq<State>, events: seq<Event>, i: nat, j: nat, id: Id, timeout: bool, result: string)
    requires |run| == |events| + 1 && i <= j < |run| && id in run[i].jobs && StoppedBy(run[i].jobs[id], timeout, result)
    requires Needed(run, i, j, id) && forall n: nat :: i <= n < j ==> StaysStopped(run, events, n, id, timeout, result)
    ensures id in run[j].jobs && StoppedBy(run[j].jobs[id], timeout, result)
    ensures run[j].jobs[id].acknowledged == (run[i].jobs[id].acknowledged || AcknowledgedBetween(run, events, i, j, id))
    decreases j
  {
    if i < j {
      StoppedThroughout(run, events, i, j - 1, id, timeout, result);
      assert StaysStopped(run, events, j - 1, id, timeout, result);
      if AcknowledgedBetween(run, events, i, j - 1, id) {
        var n: nat :| i <= n < j - 1 && n < |run| && n < |events| && AcknowledgedAt(run, events, n, id);
        assert AcknowledgedAt(run, events, n, id) && n < j;
      }
      if AcknowledgedBetween(run, events, i, j, id) {
        var n: nat :| i <= n < j && n < |run| && n < |events| && AcknowledgedAt(run, events, n, id);
        assert n == j - 1 || AcknowledgedAt(run, events, n, id);
      }
    }
  }

  /** Over every run, from the event that stopped a job until its record may be forgotten, whatever
      happens and whatever its child answers: a job stopped by its deadline is ending or failed with a
      timeout, any other one is ending or cancelled; its result is what it was; and it is
      acknowledged exactly if it was, or was not stopped by its deadline, or since then a caller asked
      for its cancellation or its report was committed. */
  lemma StoppedJobsEndAsStopped(run: seq<State>, events: seq<Event>, i: nat, j: nat, id: Id)
    requires Run(run, events) && Inv(run[0]) && i < j < |run|
    requires id in run[i].jobs && !Ending(run[i].jobs[id].state) && !events[i].FinishEvent?
    requires id in run[i + 1].jobs && Ending(run[i + 1].jobs[id].state) && Needed(run, i + 1, j, id)
    ensures id in run[j].jobs && StoppedBy(run[j].jobs[id], events[i].DeadlineEvent?, run[i].jobs[id].result)
    ensures run[j].jobs[id].acknowledged ==
      (run[i].jobs[id].acknowledged || !events[i].DeadlineEvent? || AcknowledgedBetween(run, events, i + 1, j, id))
  {
    RunKeepsInv(run, events, i);
    RunStopDecides(run, events, i, id);
    var timeout, result := events[i].DeadlineEvent?, run[i].jobs[id].result;
    forall n: nat | i + 1 <= n < j ensures StaysStopped(run, events, n, id, timeout, result) {
      RunStopLasts(run, events, n, id, timeout, result);
    }
    StoppedThroughout(run, events, i + 1, j, id, timeout, result);
  }

  lemma RunStopDecides(run: seq<State>, events: seq<Event>, i: nat, id: Id)
    requires Run(run, events) && i < |events| && Inv(run[i])
    requires id in run[i].jobs && !Ending(run[i].jobs[id].state) && !events[i].FinishEvent?
    requires id in run[i + 1].jobs && Ending(run[i + 1].jobs[id].state)
    ensures StoppedBy(run[i + 1].jobs[id], events[i].DeadlineEvent?, run[i].jobs[id].result)
    ensures run[i + 1].jobs[id].acknowledged == (run[i].jobs[id].acknowledged || !events[i].DeadlineEvent?)
  {
    StopDecides(run[i], events[i], id);
  }
}

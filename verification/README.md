# Verified model of the agent runtime's core protocols

The repository is a C++ agent runtime. Its coroutines run on single strands, so everything between
two suspensions is one atomic step over explicit state. This project models the parts of the runtime
that carry state across such steps and proves what every step keeps, what holds over every run, and
what the algorithmic loops compute. Providers, transports, timers, cancellation, crashes, failed
writes and freshly drawn identities are inputs: every theorem holds for all of them.

`dafny verify dfyconfig.toml` checks everything.

## How it is organised

| file | component |
|---|---|
| `TaskBoard.dfy` | background jobs, agent teams and their task board: state and steps |
| `TaskBoardInvariant.dfy`, `TaskBoardSteps.dfy`, `TaskBoardTeams.dfy` | the invariant of that service and its preservation, step by step |
| `TaskBoardRuns.dfy`, `TaskBoardLaws.dfy`, `TaskBoardStops.dfy` | what follows for every sequence of events; how stopped jobs end |
| `TaskBoardOutcomes.dfy` | what each operation of that service achieves, told by the fields it leaves |
| `ShutdownWait.dfy` | the wait of shutdown on the service's channel |
| `Completion.dfy`, `CompletionOutcomes.dfy` | delivery of finished jobs to their parent session: claim, batch, commit or release; what a batch holds and leaves |
| `BackgroundTasks.dfy` | the service object with its loops; every method performs one of the steps |
| `ResultWindow.dfy` | reading a job's result window by window |
| `Context.dfy`, `StrandedResults.dfy`, `TurnLoop.dfy`, `Execution.dfy`, `Provider.dfy` | context compaction, when it strands a tool result, the turn loop around it, provider retry and fallback |
| `Journal.dfy`, `TelegramHost.dfy`, `TelegramRecovery.dfy`, `TelegramOutcomes.dfy` | the journal format, the host that persists before it acts, what can be recovered after crashes, what a round without failures achieves |
| `ConversationKey.dfy`, `Dispatcher.dfy`, `DispatcherOutcomes.dfy` | channel keys and the bounded delivery cache; what each call comes to |
| `ToolScheduler.dfy`, `ToolSchedulerOutcomes.dfy` | bounded parallel tool batches; how a batch ends, and that it does |
| `TaskGroup.dfy`, `TaskGroupOutcomes.dfy` | ownership of child tasks; what becomes of children and joins |
| `StatementCache.dfy`, `StatementCacheOutcomes.dfy` | the LRU statement cache with leases and orphans; what a release gives back |
| `Permission.dfy`, `Utf8.dfy`, `Formatting.dfy`, `MemoryIndex.dfy` | glob matching and rule evaluation, UTF-8 loops and splitting, Telegram entities, memory index pages |
| `Core.dfy` | options, results, error kinds |

Components that the source updates in place are a value-level state machine (a `State` datatype with
one function per step), lemmas about its runs, and a class whose methods are proved to perform exactly
those steps. What a step means is proved beside it, in the `Outcomes` modules: lemmas that spell out the
fields a step leaves, without naming the step's own parts. A vector of shared pointers is an order of
identities with one record per identity. Where one call prunes, draws identities or waits for a clock,
what the environment decides is a parameter: the set of expired jobs, the drawn identity or its failure,
the answers of SQLite, of the provider or of the transport.

## Where code and expectation differ

- Adding a required capability never loosens a verdict, except when the list was empty: with no
  capability, `evaluate` considers only rules without one, and naming the first capability brings in
  rules that may allow what the mode would deny. `Permission.FirstCapabilityMayLoosen` shows it and
  `Permission.FirstCapabilityTightensIff` says exactly when it happens.
- Compaction can cut a tool result off from its call even in a log where every result follows a call of
  its id: when a call is answered twice, the cut between the two answers strands the second one
  (`StrandedResults.SecondAnswerIsStranded`, `StrandedResults.CompactionStrandsSecondAnswer`). It happens
  exactly when a cut lies between a repeated result and the last call of its id
  (`StrandedResults.CutsStrandNothingIff`); logs in which every result answers an open call never meet it
  (`StrandedResults.PairedStrandsNothing`).
- The journal accepts the largest 64-bit cursor, but no record pending at it
  (`Journal.LargestCursorHoldsNoRecord`). The host writes such a record for a background run: after a crash
  it can then neither start again nor be acknowledged (`TelegramRecovery.EdgeIsReachable`,
  `TelegramRecovery.EdgeIsFinal`). Every other state the host writes can be read back
  (`TelegramRecovery.ReachableIsReadableIff`).

## Model

| member | source | states |
|---|---|---|
| `TaskBoardRuns.StepKeepsInv` | src/oran-bootstrap/background_tasks.cpp:60-231 | every event of the job and team service, from start, deadline, cancel and monitor completion to pump, review, stop, shutdown, and the claims, commits and releases of reports, keeps the whole invariant: exact counters, jobs and tasks in step, dependencies, reservations |
| `TaskBoardRuns.RunKeepsInv` | src/oran-bootstrap/background_tasks.cpp:196-231 | over every sequence of these events every state satisfies the invariant |
| `TaskBoardRuns.EveryRunIsBounded` | src/oran-bootstrap/background_tasks.cpp:60-99 | from the start, `active` equals the number of running or cancelling jobs and is at most `max_running`, unfinished jobs are at most `max_running + max_queued`, jobs plus waiting team tasks at most `max_records`, teams at most 16 |
| `TaskBoardRuns.JobsMatchOneTask` | src/oran-bootstrap/team-scheduling.cpp:107-145 | each unfinished team job is in step with exactly one task: same team, key, run id and attempt, corresponding state |
| `TaskBoardRuns.ActiveTasksMatchOneJob` | src/oran-bootstrap/team-scheduling.cpp:27-103 | each queued, running or cancelling task is in step with exactly one unfinished job, and no other task of its member is under way |
| `TaskBoardRuns.ReservationIsHonoured` | src/oran-bootstrap/background_tasks.cpp:60-70 | a waiting task of an open service always has a record left for it |
| `TaskBoardRuns.RoomLasts` | src/oran-bootstrap/team-scheduling.cpp:42-100 | capacity seen before an identity is drawn is still there when the job is queued, so a launch never fails for lack of room |
| `TaskBoardSteps.LaunchCounts` | src/oran-bootstrap/team-scheduling.cpp:95-102 | launching a waiting task conserves jobs plus waiting tasks and keeps all counters exact |
| `TaskBoardRuns.TasksChangeLawfully` | src/oran-bootstrap/agent-team.cpp:153-212 | in one event a task is changed quietly (never into review, acceptance, waiting or another attempt), or by the result of the job that runs its current attempt, or by the leader's verdict on its current attempt |
| `TaskBoardRuns.FinishReports` | src/oran-bootstrap/team-scheduling.cpp:107-145 | the end of a job changes only the task in step with it: its value puts the task up for review with that report, an error fails it, a cancellation cancels it, a deadline fails it with a timeout |
| `TaskBoardRuns.ReviewJudges` | src/oran-bootstrap/agent-team.cpp:153-202 | a verdict changes another task only quietly; acceptance needs a reported task, revision a reported or failed one below the third attempt, both the current attempt number; a revised task waits with the next attempt |
| `TaskBoardLaws.AcceptanceIsPermanent` | src/oran-bootstrap/agent-team.cpp:165-185 | over every run an accepted task never changes again; it is dropped only when its whole team is replaced |
| `TaskBoardLaws.FirstWaitingIsReady` | src/oran-bootstrap/team-scheduling.cpp:27-41 | if everything of a team that does not wait is accepted, its first waiting task is ready, its team is live and its member is free |
| `TaskBoardLaws.LaunchQueues` | src/oran-bootstrap/team-scheduling.cpp:42-102 | such a task with room and an unused identity is queued, in step with its new job |
| `TaskBoardLaws.StoppedTeamDrains` | src/oran-bootstrap/agent-team.cpp:204-212 | once a stopped team has no work under way every task is accepted, cancelled or failed |
| `TaskBoardLaws.PumpIsWorkConserving` | src/oran-bootstrap/background_tasks.cpp:196-231 | after the pump no job is left in the queue unless `max_running` jobs are active |
| `TaskBoardLaws.StartsInOrder` | src/oran-bootstrap/background_tasks.cpp:200-217 | queued jobs start in the order in which they were queued |
| `TaskBoardStops.StoppedJobsEndAsStopped` | src/oran-bootstrap/background_tasks.cpp:117-193 | over every run from the event that stopped a job until its record may be forgotten: stopped by its deadline it is ending or failed with a timeout, else ending or cancelled, with its result unchanged; it is acknowledged exactly if it was, or something other than its deadline stopped it, or since then a caller asked for its cancellation or its report was committed |
| `TaskBoardStops.JobsChangeLawfully` | src/oran-bootstrap/background_tasks.cpp:117-231 | exactly what each event does to a job that must not be forgotten yet, field by field: how it ends by its child's answer, by cancellation or its deadline, when it starts, and what claims and commits leave |
| `TaskBoardLaws.FinishAfterStop` | src/oran-bootstrap/background_tasks.cpp:165-193 | a job that finishes right after its stop ends as stopped whatever its child answers, and its task ends with it |
| `TaskBoardLaws.EveryRunHonoursDependencies` | src/oran-bootstrap/agent-team.cpp:138-142 | over every run a launched task that has not failed or been cancelled has all dependencies accepted, and dependencies are earlier tasks of its team |
| `TaskBoardLaws.UndeliveredIsKept` | src/oran-bootstrap/background_tasks.cpp:101-107 | with automatic delivery no event, its own commit included, loses a finished job that was not acknowledged before it, or changes its outcome or owner; only claiming and settling change its claim |
| `TaskBoardLaws.ShutdownIsComplete` | src/oran-bootstrap/background_tasks.cpp:417-435 | when a closed service has no active job every job is finished |
| `TaskBoardLaws.NothingStartsAfterShutdown` | src/oran-bootstrap/background_tasks.cpp:417-435 | after a successful shutdown, over any further events, every job stays finished and none is admitted |
| `TaskBoardOutcomes.RunningJobEnds` | src/oran-bootstrap/background_tasks.cpp:165-193 | a running job whose child returned a value succeeds with it and its task goes up for review with that report; an error fails both with it; a cancellation cancels both; the result of a failed job is unchanged |
| `TaskBoardOutcomes.PruneIsExact` | src/oran-bootstrap/background_tasks.cpp:101-107 | pruning forgets exactly the expired jobs that are finished, not claimed and, with automatic delivery, acknowledged |
| `TaskBoardOutcomes.StartsWhen` | src/oran-bootstrap/background_tasks.cpp:286-345 | `start` succeeds exactly when the service is open, unfinished jobs are below `max_running + max_queued`, records and waiting tasks leave room, and the drawn identity is new |
| `TaskBoardOutcomes.StartQueuesJob` | src/oran-bootstrap/background_tasks.cpp:286-345 | the new job is queued last with the caller's owner and turn, and no other job changes |
| `TaskBoardOutcomes.LaunchedJob` | src/oran-bootstrap/team-scheduling.cpp:42-103 | a launched task is queued under a new job of its team, key and attempt |
| `TaskBoardOutcomes.LaunchWithoutIdentity` | src/oran-bootstrap/team-scheduling.cpp:42-49 | a due task for which no identity can be drawn fails with that error; no job is added and no other task changes |
| `TaskBoardOutcomes.NothingDueIsLeft` | src/oran-bootstrap/team-scheduling.cpp:27-104 | after the scan of the pump no task is due, unless there is no room for another job |
| `TaskBoardOutcomes.JoinsAll` | src/oran-bootstrap/agent-team.cpp:30-65 | if every initial member may join, all of them do, in order |
| `TaskBoardOutcomes.JoinsOnlyAdmissible` | src/oran-bootstrap/agent-team.cpp:30-65 | if they join, every one of them may: named, different, within the limit, not refused |
| `TaskBoardOutcomes.CreatesWhen` | src/oran-bootstrap/agent-team.cpp:30-65 | exactly when a team is created: service open, the owner's team drained or else a place free or taken by a drained team, all members admissible, an identity drawn |
| `TaskBoardOutcomes.CreatedTeam` | src/oran-bootstrap/agent-team.cpp:30-65 | the new team is last, has its owner, identity and members, no tasks, and is not stopped |
| `TaskBoardOutcomes.CreationKeepsOthers` | src/oran-bootstrap/agent-team.cpp:30-65 | at most one team, a drained one, is gone with its tasks; all other teams, tasks and jobs are as they were |
| `TaskBoardOutcomes.JoinsWhen` | src/oran-bootstrap/agent-team.cpp:67-124 | a member joins exactly a live team of its leader with a place and no member of that name, and is then its last; nothing else changes |
| `TaskBoardOutcomes.SubmitsWhen` | src/oran-bootstrap/agent-team.cpp:126-151 | a task is taken exactly by a live team of its leader with a place for it, a known member, a new key and known dependencies, while there are records |
| `TaskBoardOutcomes.SubmittedTask` | src/oran-bootstrap/agent-team.cpp:126-151 | the task waits as its first attempt with the request's member, turn and dependencies, last of its team; nothing else changes |
| `TaskBoardOutcomes.AcceptAccepts` | src/oran-bootstrap/agent-team.cpp:165-185 | accepting is granted exactly for the current attempt of a reported task of a live team, or of one accepted already, and leaves the task accepted and otherwise unchanged |
| `TaskBoardOutcomes.ReviseRetries` | src/oran-bootstrap/agent-team.cpp:186-202 | revising is granted exactly for a reported or failed task of a live team below the last attempt while there is room for its record, and leaves it waiting as the next attempt of the reviewing turn |
| `TaskBoardOutcomes.CancelWithdraws` | src/oran-bootstrap/agent-team.cpp:171-182 | cancelling is granted exactly for a task that is not accepted, and withdraws it: without a running job it is cancelled, else it is being cancelled, and its job is acknowledged |
| `TaskBoardOutcomes.StopStopsTasks` | src/oran-bootstrap/agent-team.cpp:204-212 | stopping a team keeps its accepted tasks, leaves those running being cancelled and cancels the others |
| `TaskBoardOutcomes.StopStopsJobs` | src/oran-bootstrap/agent-team.cpp:204-212 | stopping a team stops each of its unfinished jobs, acknowledged, and changes no job of another owner |
| `TaskBoardOutcomes.CancelOwnerStopsJobs` | src/oran-bootstrap/background_tasks.cpp:403-416 | ending a session or a turn stops exactly its unfinished jobs, acknowledged |
| `TaskBoardOutcomes.TurnEndsTasks` | src/oran-bootstrap/background_tasks.cpp:403-416 | the waiting tasks of a turn that ends are cancelled |
| `TaskBoardOutcomes.CloseStopsJobs` | src/oran-bootstrap/background_tasks.cpp:417-435 | shutdown stops every unfinished job |
| `TaskBoardOutcomes.ClaimsWhen` | src/oran-bootstrap/background_tasks.cpp:386-395 | a claim is granted exactly for a finished report of the owner that nobody has claimed or seen |
| `TaskBoardOutcomes.SettleSettles` | src/oran-bootstrap/background_tasks.cpp:396-402 | settling ends the claim; committing counts once and acknowledges |
| `TaskBoardInvariant.AdvanceKeepsInv` | src/oran-bootstrap/team-scheduling.cpp:107-145 | a legal move of one job, told to its task, keeps both state machines in step and all counts exact |
| `TaskBoardInvariant.PruneKeepsInv` | src/oran-bootstrap/background_tasks.cpp:101-107 | pruning removes only finished jobs that are unclaimed and, with automatic delivery, acknowledged; the invariant stays |
| `TaskBoardSteps.CancelEachEnds` | src/oran-bootstrap/background_tasks.cpp:117-142 | after a cancellation sweep every job on its list is finished or cancelling |
| `TaskBoardSteps.PumpKeepsInv` | src/oran-bootstrap/team-scheduling.cpp:21-105 | launching due tasks and starting queued jobs keeps the invariant |
| `TaskBoardTeams.CreateKeepsInv` | src/oran-bootstrap/agent-team.cpp:30-65 | creating a team, replacing the owner's drained one or retiring a drained one at the limit of 16, keeps the invariant |
| `TaskBoardTeams.SubmitKeepsInv` | src/oran-bootstrap/agent-team.cpp:126-151 | a new task has an unused key, a member and only earlier dependencies, and reserves a record |
| `TaskBoardTeams.UpdateKeepsInv` | src/oran-bootstrap/agent-team.cpp:153-202 | accept, revise and cancel keep the invariant |
| `TaskBoardTeams.StopKeepsInv` | src/oran-bootstrap/agent-team.cpp:204-212 | stopping a team cancels its jobs and sweeps its tasks without breaking the match of jobs and tasks |
| `TaskBoardTeams.HaltsTeam` | src/oran-bootstrap/agent-team.cpp:206-208 | the sweep over jobs reaches every task of the team that is under way: all are cancelling afterwards |
| `TaskBoardTeams.CancelOwnerKeepsInv` | src/oran-bootstrap/background_tasks.cpp:403-416 | cancelling a session or one of its turns keeps the invariant |
| `TaskBoardTeams.CloseKeepsInv` | src/oran-bootstrap/background_tasks.cpp:417-426 | the first part of shutdown leaves every team stopped and every job finished or cancelling |
| `BackgroundTasks.Service.PruneExpired` | src/oran-bootstrap/background_tasks.cpp:101-107 | the loop removes exactly the prunable expired jobs and keeps the order of the others |
| `BackgroundTasks.Service.CheckRecordCapacity` | src/oran-bootstrap/background_tasks.cpp:60-70 | counting over teams and tasks decides record capacity as specified |
| `BackgroundTasks.Service.CountWaiting` | src/oran-bootstrap/background_tasks.cpp:62-66 | the nested count is the number of waiting tasks |
| `BackgroundTasks.Service.CountUnfinished` | src/oran-bootstrap/background_tasks.cpp:74-75 | the count is the number of jobs that are not finished |
| `BackgroundTasks.Service.CheckCapacity` | src/oran-bootstrap/background_tasks.cpp:72-77 | decides capacity for one more job as specified |
| `BackgroundTasks.Service.Queue` | src/oran-bootstrap/background_tasks.cpp:79-99 | `enqueue`: refused for lack of capacity or an identity collision, else appended |
| `BackgroundTasks.Service.Start` | src/oran-bootstrap/background_tasks.cpp:295-344 | `start`: both capacity checks, identity draw and queueing as one step of the model |
| `BackgroundTasks.Service.UpdateTeamJob` | src/oran-bootstrap/team-scheduling.cpp:107-145 | tells exactly the task with the same key, run id and attempt |
| `BackgroundTasks.Service.Cancel` | src/oran-bootstrap/background_tasks.cpp:117-142 | `cancel_job` for callers and deadlines, as one step of the model |
| `BackgroundTasks.Service.Complete` | src/oran-bootstrap/background_tasks.cpp:165-193 | the end of the monitor: the job ends as its child answered or as it was stopped, its task is told, `active` decremented, invariant kept |
| `BackgroundTasks.Service.LaunchTask` | src/oran-bootstrap/team-scheduling.cpp:28-103 | one task of the scan: skipped, failed, queued, or the scan ends for lack of room |
| `BackgroundTasks.Service.PumpTasks` | src/oran-bootstrap/team-scheduling.cpp:21-105 | the nested scan over teams and tasks is the step function over all tasks in order |
| `BackgroundTasks.Service.PumpAll` | src/oran-bootstrap/background_tasks.cpp:196-231 | `pump` performs the pump step and keeps the invariant |
| `BackgroundTasks.Service.Found` | src/oran-bootstrap/agent-team.cpp:30-65 | `create_team` performs the creation step and keeps the invariant |
| `BackgroundTasks.Service.Enlist` | src/oran-bootstrap/agent-team.cpp:67-124 | `add_team_member`: limits of four and of the leader, unique names |
| `BackgroundTasks.Service.Submit` | src/oran-bootstrap/agent-team.cpp:126-151 | `submit_team_task` with all its refusals performs the submission step |
| `BackgroundTasks.Service.Judge` | src/oran-bootstrap/agent-team.cpp:153-202 | `update_team_task` with all its refusals performs the review step |
| `BackgroundTasks.Service.StopWork` | src/oran-bootstrap/agent-team.cpp:204-212 | `stop_team`, marking the team first as the source does, performs the stop step |
| `BackgroundTasks.Service.CancelAllOf` | src/oran-bootstrap/background_tasks.cpp:403-416 | `cancel_owner` performs its step and keeps the invariant |
| `BackgroundTasks.Service.BeginShutdown` | src/oran-bootstrap/background_tasks.cpp:417-427 | shutdown up to its wait, closing first, performs the close step; a second call is refused |
| `BackgroundTasks.Service.PollShutdown` | src/oran-bootstrap/background_tasks.cpp:428-434 | the wait ends exactly when no job is active, and then every job is finished |
| `ShutdownWait.ShutdownIsNeverStranded` | src/oran-bootstrap/background_tasks.cpp:417-435 | over every run, a suspended caller of shutdown finds a message as soon as no job is active, and returns; when it has returned every job is finished |
| `ShutdownWait.OnlyEndsLowerActive` | src/oran-bootstrap/background_tasks.cpp:188-194 | only the end of a job, which sends a message, lowers the number of active jobs |
| `BackgroundTasks.Service.NextReport` | src/oran-bootstrap/background_tasks.cpp:379-385 | the first finished, automatic, unacknowledged, unclaimed job of the owner |
| `BackgroundTasks.Service.ClaimReport` | src/oran-bootstrap/background_tasks.cpp:386-396 | `claim_completion` with its three refusals |
| `BackgroundTasks.Service.FinishReport` | src/oran-bootstrap/background_tasks.cpp:397-402 | `finish_completion`: the claim ends, acknowledgement only grows |
| `BackgroundTasks.Service.ClaimBatch` | src/oran-bootstrap/agent_session.cpp:405-435 | the batch has at most four different reports and is complete unless full |
| `BackgroundTasks.Service.SettleBatch` | src/oran-bootstrap/agent_session.cpp:419-440 | every report of the batch is committed, or released |
| `Completion.ReportsAreCommittedOnce` | src/oran-bootstrap/agent_session.cpp:405-442 | over all interleavings of the service and its sessions each job is committed to its parent at most once, two sessions never hold the same report, no claim is left behind |
| `Completion.SystemsRunTheService` | src/oran-bootstrap/agent_session.cpp:405-442 | each state the service reaches at work with its sessions is reached by a run of its own events, so every law over runs holds of it |
| `Completion.NextKeepsSound` | src/oran-bootstrap/background_tasks.cpp:386-402 | service events, batch starts and batch ends keep claims exclusive and accounted for |
| `Completion.BatchIs` | src/oran-bootstrap/agent_session.cpp:413-435 | starting a batch claims exactly its reports, is never refused half-way, and leaves none behind unless it is full |
| `Completion.UndeliveredSurvives` | src/oran-bootstrap/background_tasks.cpp:101-107 | a finished report survives every event except the commit of its own batch |
| `CompletionOutcomes.ReadyReportIsHeld` | src/oran-bootstrap/agent_session.cpp:405-435 | a session woken for a ready report holds it first in a batch of up to four, with the others that are ready; exactly these are newly claimed |
| `CompletionOutcomes.BatchIsSettled` | src/oran-bootstrap/agent_session.cpp:417-442 | the end of a batch releases exactly its reports; a committed batch acknowledges each and counts it once, any other leaves each as deliverable as before; nothing unexpired is forgotten |
| `CompletionOutcomes.CommittedIsDelivered` | src/oran-bootstrap/background_tasks.cpp:386-402 | no session holds a committed report, and none can claim it |
| `ResultWindow.GetWindow` | src/oran-bootstrap/background_tasks.cpp:347-363 | a window is an exact piece of the result, the next offset advances, and a valid result can be read from every code point boundary and from nowhere else |
| `ResultWindow.ReadAll` | src/oran-bootstrap/background_tasks.cpp:347-363 | following the offsets returns the whole result in valid pieces |
| `TurnLoop.RunTurn` | src/oran-agent/loop.cpp:303-606 | every request is the optional summary plus an exact suffix of the log of stored history and transcript, and every send of it fits the budget; the checkpoint covers no more than that log; no tool id is dispatched twice; no request shows a result whose call was cut away, for logs that keep their calls. A successful turn returns the blocks and stop reason that the backend answered to the last send of its last request, without tool calls; its transcript is the tail, then per earlier request what the inbox held, the provider's own blocks and what its tools returned, then the inbox and the answer. A failed turn names its reason |
| `TurnLoop.Iterate` | src/oran-agent/loop.cpp:410-571 | one iteration keeps view and transcript in step and issues at most one request; it ends with one more round of the transcript, with the terminal answer, or with the error of inbox, context, provider, reply or tools |
| `TurnLoop.Exchange` | src/oran-agent/loop.cpp:484-560 | a tool round appends the provider's own blocks and the results of that iteration's calls together, keeping the log paired, or fails as a batch |
| `TurnLoop.LoadHistory` | src/oran-agent/loop.cpp:390-408 | with any page sizes and any compaction between pages the view mirrors the stored history from its checkpoint on |
| `TurnLoop.Fit` | src/oran-agent/loop.cpp:435-437 | fitting keeps the view a suffix of the log, and on success within the budget |
| `TurnLoop.Ask` | src/oran-agent/loop.cpp:438-460 | the request issued is the framed view of the log as it is now, all its sends fit the budget, and the response is what the backend answered to the last of them |
| `TurnLoop.SendsFitBudget` | src/oran-agent/loop.cpp:356-361 | input plus output and thinking reserve of every retry and fallback attempt fits the context budget for the target that gets it |
| `TurnLoop.AdmitToolUseIds` | src/oran-agent/loop.cpp:157-168 | ids are admitted exactly when all are new and different |
| `TurnLoop.CollectToolResults` | src/oran-agent/loop.cpp:228-300 | success exactly when every result is a value or an error the model may see; then each call has its own result in order, with the text, data and error flag its tool returned, or the rendering of its error |
| `TurnLoop.ExchangePaired` | src/oran-agent/loop.cpp:484-560 | appending calls and then their answers keeps every result after its open call |
| `TurnLoop.NothingStranded` | src/oran-agent/context.cpp:148-175 | however often the view was cut: if in the log from the turn's checkpoint on results follow their calls and no cut lies between a repeated result and the last call of its id, no request has a result whose call was cut away |
| `TurnLoop.PairedTurn` | src/oran-agent/loop.cpp:484-560 | if what the turn starts from is paired and the provider sends no results, the log meets that condition and every request is paired |
| `StrandedResults.CutsStrandNothingIff` | src/oran-agent/context.cpp:148-160 | for every log whose results follow their calls: no cut strands a result if and only if no cut lies between a repeated result and the last call of its id |
| `StrandedResults.OnlyRepeatsAreSeparated` | src/oran-agent/context.cpp:148-160 | a cut never separates a result from the open call it answers |
| `StrandedResults.SecondAnswerIsStranded` | src/oran-agent/context.cpp:148-160 | in the log of one call answered twice every result follows its call, the only cut lies between the answers, and behind it the second has lost its call |
| `StrandedResults.CompactionStrandsSecondAnswer` | src/oran-agent/context.cpp:223-238 | whenever a view of that log is compacted, the second answer is stranded |
| `StrandedResults.PairedStrandsNothing` | src/oran-agent/context.cpp:148-160 | a log in which every result answers an open call meets the condition |
| `StrandedResults.FittedStrandsNothing` | src/oran-agent/context.cpp:125-239 | fitting a view whose messages meet the condition leaves no result without its call |
| `TurnLoop.MirrorsFitted` | src/oran-agent/context.cpp:223-238 | a compaction leaves the view an exact suffix of the log |
| `Context.FitContext` | src/oran-agent/context.cpp:125-239 | on success the view fits `max_tokens`, on failure it is unchanged; a summary is asked for exactly when one is due and there is a cut, of what lies before the earliest cut that leaves room or else the last; the view is then compacted exactly if the reply is usable and pays off |
| `Context.Summarize` | src/oran-agent/context.cpp:176-239 | the summary request itself fits; a usable reply that makes the view cheaper and fit replaces exactly the prefix and advances the checkpoint over it; cancellation and exceptions fail, anything else is an error over budget and put off below it |
| `Context.FindCuts` | src/oran-agent/context.cpp:148-160 | the candidates are exactly the positions after an assistant or tool message where no call is open, in order |
| `Context.ChooseCut` | src/oran-agent/context.cpp:161-175 | the first candidate that leaves room, else the last one |
| `Context.CutKeepsPairs` | src/oran-agent/context.cpp:148-160 | at a cut the log is paired exactly when both sides are |
| `Context.FittedKeeps` | src/oran-agent/context.cpp:223-238 | the newest message stays, pairs stay, the checkpoint advances exactly over what was cut and then has a summary |
| `Context.EstimateInputTokens` | src/oran-agent/context.cpp:62-88 | the loop adds up the byte estimate of system text, messages, content blocks and tools |
| `Execution.Run` | src/oran-provider/execution.cpp:96-176 | sends follow target and attempt order with at most `max_attempts` each, only the last one can have emitted events, and the outcome is the last answer, what was thrown, or what interrupted the pause before another attempt |
| `Execution.RunTarget` | src/oran-provider/execution.cpp:110-170 | one target uses up its attempts or settles the outcome |
| `Execution.AttemptWithinReserve` | src/oran-provider/execution.cpp:86-94 | an attempt differs from the request only in its thinking budget, which stays within the reserve |
| `TelegramHost.TurnsRunAtMostOnce` | apps/telegram/host.cpp:289-368 | over every sequence of polls, crashes, uncertain writes, restarts and acknowledgements no update's turn runs twice, and the journal brackets the sends: exactly `confirmed_parts`, or one more while one is in flight |
| `TelegramHost.StepKeepsInv` | apps/telegram/host.cpp:155-255 | every step keeps the journal ahead of what the host does |
| `TelegramHost.CursorNeverGoesBack` | apps/telegram/host.cpp:289-368 | no step decreases the saved cursor |
| `TelegramHost.CursorNeverGoesBackOverRuns` | apps/telegram/host.cpp:289-368 | nor does any run |
| `TelegramHost.PendingIsNeverDropped` | apps/telegram/host.cpp:300-368 | a saved pending record stays, unchanged in identity, until all its parts are confirmed, its background run turns out to have been delivered before, or the operator has archived it |
| `TelegramHost.FinishedWasDelivered` | apps/telegram/host.cpp:325-333 | a background run is answered as a duplicate only after all parts of its record were delivered |
| `TelegramRecovery.PendingIsKeptOverRuns` | apps/telegram/host.cpp:289-368 | over every run a saved record is still saved at the end, or was saved up to an event at which all its parts were confirmed, its background run had been delivered before, or it was archived |
| `TelegramRecovery.ReachableIsReadableIff` | apps/telegram/state.cpp:10-68 | over every run from the start, the saved document can be read back exactly unless it is a background record at the largest cursor, and then it is refused |
| `TelegramRecovery.PendingUpdateCanBeAcknowledged` | apps/telegram/state.cpp:89-110 | an update that any run left pending can be acknowledged, and that skips just it |
| `TelegramRecovery.EdgeIsReachable` | apps/telegram/host.cpp:313-322 | a concrete run writes a background record at the largest cursor, which is then refused for ever |
| `TelegramRecovery.EdgeIsFinal` | apps/telegram/state.cpp:70-110 | a stopped host with such a record neither starts again nor can the record be acknowledged |
| `TelegramHost.PendingBlocksRestart` | apps/telegram/state.cpp:70-87 | a host does not start while a record is pending |
| `TelegramHost.AcknowledgementSkipsOne` | apps/telegram/state.cpp:89-110 | an acknowledgement that was written skips exactly the acknowledged update |
| `TelegramHost.Process.Serve` | apps/telegram/host.cpp:289-368 | the poll loop is a run of protocol steps and keeps the invariant; if nothing fails and updates come in order it runs on, has run the turn of each admitted update once and in order, and is behind the last one |
| `TelegramHost.Process.Poll` | apps/telegram/host.cpp:289-368 | one round of the loop is a run of protocol steps; if nothing fails an admitted update gets one turn and one send per part and the cursor ends just past it, an update not admitted only moves the cursor, and a background run is sent unless it was before |
| `TelegramHost.Process.Answer` | apps/telegram/host.cpp:177-255 | the turn and the saving of its answer, in that order |
| `TelegramHost.Process.DeliverAll` | apps/telegram/host.cpp:155-176 | delivery of the remaining parts, then the record is resolved |
| `TelegramHost.Process.DeliverPart` | apps/telegram/host.cpp:155-176 | mark in flight, send, confirm: each saved before the next |
| `TelegramOutcomes.BootReadsBack` | apps/telegram/state.cpp:70-87 | a host starts from exactly the saved state if it can be read, is for this user and workspace and holds no record, from cursor zero without a journal, and otherwise not |
| `TelegramOutcomes.IdentityIsBound` | apps/telegram/host.cpp:139-145 | the first start binds the bot, later ones only go on with the same one |
| `TelegramOutcomes.AdmittedIsRecorded` | apps/telegram/host.cpp:349-353 | an admitted update in order becomes exactly the saved record, with nothing done for it and the cursor unmoved |
| `TelegramOutcomes.UnadmittedIsSkipped` | apps/telegram/host.cpp:349-364 | an update that is not admitted moves the cursor just past it and adds no record, turn or send |
| `TelegramOutcomes.DisorderStops` | apps/telegram/host.cpp:338-343 | an update without an id, behind the cursor or with the largest number stops the host with everything as it was |
| `TelegramOutcomes.TurnRuns` | apps/telegram/host.cpp:177-248 | the turn of an update is counted when it runs; its error stops the host with the record saved |
| `TelegramOutcomes.PartGoesOut` | apps/telegram/host.cpp:155-176 | one part: in flight on disk before it is sent, confirmed on disk after |
| `TelegramOutcomes.DeliveryResolves` | apps/telegram/host.cpp:355-366 | once all parts are confirmed the record goes; an update moves the cursor just past itself, a background run leaves it |
| `TelegramOutcomes.UpdateIsServed` | apps/telegram/host.cpp:289-368 | a round without failures gives an admitted update exactly one turn and one send per part, and ends with the cursor just past it, nothing pending and all of it saved |
| `TelegramOutcomes.AnswerIsOnDiskBeforeSending` | apps/telegram/host.cpp:248-255 | before the first part is sent the answer is on disk |
| `TelegramOutcomes.TaskIsServed` | apps/telegram/host.cpp:309-333 | a background run gets no turn of an update, is sent in full, and leaves the cursor |
| `TelegramOutcomes.RepeatResolves` | apps/telegram/host.cpp:325-333 | a background run that was delivered before is resolved without a turn or a send |
| `TelegramOutcomes.AcknowledgementArchives` | apps/telegram/state.cpp:89-110 | an acknowledgement archives exactly the saved record and resolves it |
| `TelegramOutcomes.OtherAcknowledgementsChangeNothing` | apps/telegram/state.cpp:89-110 | any other acknowledgement changes nothing |
| `Journal.RoundTrip` | apps/telegram/state.cpp:10-68 | decoding an encoded state returns it exactly when it is storable, and an error otherwise |
| `Journal.LargestCursorHoldsNoRecord` | apps/telegram/state.cpp:20-34 | at the largest cursor a state is read back exactly if nothing is pending |
| `Journal.EncodeInjective` | apps/telegram/state.cpp:51-68 | storable states have different encodings |
| `Journal.ParseFormat` | apps/telegram/state.cpp:10-30 | the hexadecimal form of a turn id is read back as that id |
| `Dispatcher.EveryRunIsSafe` | src/oran-channel/dispatcher.cpp:265-371 | over every run the cache keeps at most `capacity` entries, the queue lists each complete entry exactly once, confirmed parts strictly increase, and an unfinished entry without error is the one its conversation works on |
| `Dispatcher.StepKeepsInv` | src/oran-channel/dispatcher.cpp:171-371 | every event keeps the invariant of cache, queue and conversation leases |
| `Dispatcher.TurnRunsOnceWhileRetained` | src/oran-channel/dispatcher.cpp:280-303 | a turn starts again only after its entry was complete and then forgotten |
| `Dispatcher.OnlyCompletedIsEvicted` | src/oran-channel/dispatcher.cpp:287-292 | only the oldest completed entry of a full cache is evicted |
| `Dispatcher.FailureStays` | src/oran-channel/dispatcher.cpp:301-303 | an unacknowledged failure stays recorded until a resumed delivery has confirmed its last part |
| `Dispatcher.FailureIsRetained` | src/oran-channel/dispatcher.cpp:360-371 | over runs a failure nobody acknowledges is retained or was delivered completely |
| `Dispatcher.EntriesOnlyAdvance` | src/oran-channel/dispatcher.cpp:171-192 | over handling and any resumes a retained entry keeps its message and answer, and its position and confirmed parts only grow |
| `Dispatcher.DecodedIsKeyed` | src/oran-channel/protocol.cpp:7-17 | an event key determines its conversation, so a conversation lease excludes every other call on that event |
| `Dispatcher.Dispatcher.Handle` | src/oran-channel/dispatcher.cpp:265-276 | `handle` up to the permission hook |
| `Dispatcher.Dispatcher.AfterPermission` | src/oran-channel/dispatcher.cpp:277-296 | duplicate answer, eviction and admission |
| `Dispatcher.Dispatcher.AfterTurn` | src/oran-channel/dispatcher.cpp:204-248 | the parts of the answer are stored, or the failure recorded, and the first part is sent |
| `Dispatcher.Dispatcher.AfterSend` | src/oran-channel/dispatcher.cpp:178-192 | a receipt advances the delivery by one part; an error ends it |
| `Dispatcher.Dispatcher.Resume` | src/oran-channel/dispatcher.cpp:316-326 | recovery starts only at or after the first unconfirmed part |
| `Dispatcher.Dispatcher.AfterResumePermission` | src/oran-channel/dispatcher.cpp:327-336 | delivery goes on from the given part |
| `Dispatcher.Dispatcher.AcknowledgeFailure` | src/oran-channel/dispatcher.cpp:360-371 | a failure is completed once and queued for eviction |
| `DispatcherOutcomes.HandleTakesUp` | src/oran-channel/dispatcher.cpp:265-276 | a message is taken up exactly if it is valid, its conversation idle and a place free; each refusal has its error and changes nothing |
| `DispatcherOutcomes.DuplicateIsAnswered` | src/oran-channel/dispatcher.cpp:280-286 | a known event is answered with its recorded error or count, and nothing runs again |
| `DispatcherOutcomes.NewEventStarts` | src/oran-channel/dispatcher.cpp:287-296 | a permitted new event gets an empty entry and its turn starts, exactly if there is a place or a complete entry, of which the oldest makes way |
| `DispatcherOutcomes.AnswerIsStored` | src/oran-channel/dispatcher.cpp:228-248 | after a turn answered with parts, exactly those parts are stored; then the first is sent, or nothing was left, or the call ends with its error |
| `DispatcherOutcomes.TurnErrorIsRecorded` | src/oran-channel/dispatcher.cpp:228-241 | a turn without an answer leaves its error, a cancelled one as cancelled |
| `DispatcherOutcomes.ReceiptConfirmsOne` | src/oran-channel/dispatcher.cpp:178-192 | a receipt confirms exactly the next part; then the one after it is sent, or the delivery is complete with its count, or what is left cannot be rendered |
| `DispatcherOutcomes.SendErrorIsRecorded` | src/oran-channel/dispatcher.cpp:184-186 | a failed send confirms nothing and leaves its error |
| `DispatcherOutcomes.ResumeTakesUp` | src/oran-channel/dispatcher.cpp:316-326 | a delivery can be resumed exactly when it is idle, generated and not complete, from a part not before the first unconfirmed one |
| `DispatcherOutcomes.ResumeGoesOn` | src/oran-channel/dispatcher.cpp:327-336 | a permitted resume goes on from its part and keeps what was confirmed |
| `DispatcherOutcomes.AcknowledgementCompletes` | src/oran-channel/dispatcher.cpp:360-371 | exactly a recorded failure of an idle conversation is completed and queued for eviction |
| `DispatcherOutcomes.DeliveryIsComplete` | src/oran-channel/dispatcher.cpp:171-192 | over every run a delivery that ends and in which nothing was skipped has confirmed each part of its own turn's answer once and in order, and replies with their number |
| `DispatcherOutcomes.EverySendSucceeds` | src/oran-channel/dispatcher.cpp:178-192 | a sendable answer whose sends all succeed is delivered: after `m` receipts exactly the first `m` parts are confirmed, after the last it is complete |
| `ConversationKey.EventKeyInjective` | src/oran-channel/dispatcher.cpp:21-23 | different (conversation, event) pairs never share a key |
| `ConversationKey.KeyInjective` | src/oran-channel/protocol.cpp:7-17 | different conversations never share a key |
| `ToolScheduler.EveryBatchIsBounded` | src/oran-agent/scheduler.cpp:116-210 | for every play of a batch at most `max_parallel_tools` calls are in flight, and success has every call's own result in batch order |
| `ToolScheduler.ActInv` | src/oran-agent/scheduler.cpp:134-234 | every action keeps admitted, live, queued and reported calls apart and complete |
| `ToolScheduler.ActProgress` | src/oran-agent/scheduler.cpp:134-234 | calls are admitted in order, each at most once; results and reports are never taken back |
| `ToolScheduler.ResultsComeFromTheirCall` | src/oran-agent/scheduler.cpp:213-234 | a result changes only when its own call returns it |
| `ToolScheduler.AllReported` | src/oran-agent/scheduler.cpp:143-173 | when all calls are reported every result is there and nothing is in flight |
| `ToolScheduler.NothingStartsOnCancellation` | src/oran-agent/scheduler.cpp:145-159 | the step that sees the parent's cancellation starts no call |
| `ToolScheduler.QueueFits` | src/oran-agent/scheduler.cpp:213-234 | the completion channel never needs more room than the batch has calls |
| `ToolScheduler.WaitIdleIsExact` | src/oran-agent/scheduler.cpp:102-113 | over every sequence of batch starts, steps and waits: `wait_idle` ends exactly when no call it waits for is live in any batch, and whoever sleeps has such a call to wait for, so the last return has woken everybody |
| `ToolScheduler.StepKeepsInv` | src/oran-agent/scheduler.cpp:213-234 | the increments in `start_call` and the decrements in the completion handler keep the counts per context equal to the calls in flight across all batches |
| `ToolScheduler.RunKeepsInv` | src/oran-agent/scheduler.cpp:116-234 | over every sequence of starts, steps and waits all batches and counts are in order |
| `ToolScheduler.IdleMeansNoCallInFlight` | src/oran-agent/scheduler.cpp:102-113 | exact counts make the idle test imply that no call is live |
| `ToolScheduler.NoCallInFlightMeansIdle` | src/oran-agent/scheduler.cpp:102-113 | and conversely |
| `ToolScheduler.ClearUnstarted` | src/oran-agent/scheduler.cpp:177-181 | the loop empties exactly the calls that never started and accounts for them |
| `ToolScheduler.CollectRows` | src/oran-agent/scheduler.cpp:163-171 | the loop builds the rows in batch order |
| `ToolScheduler.NameLaggards` | src/oran-agent/scheduler.cpp:201-208 | the loop names exactly the calls not accounted for |
| `ToolScheduler.Scheduler.RunBatch` | src/oran-agent/scheduler.cpp:116-138 | admission of a batch: empty, cancelled, or started call by call with as many workers as allowed |
| `ToolScheduler.Scheduler.FinishCall` | src/oran-agent/scheduler.cpp:216-232 | the completion handler stores the result, decrements and erases the count, wakes the waiters, reports the index |
| `ToolScheduler.Scheduler.ReceiveOne` | src/oran-agent/scheduler.cpp:144-171 | the body of the receiving loop with its admission of the next call |
| `ToolScheduler.Scheduler.AwaitBatch` | src/oran-agent/scheduler.cpp:138-209 | the receive and drain loops are a run of these steps whatever returns meanwhile and perform exactly the coroutine `Await`; success returns the rows, cancellation names the laggards |
| `ToolScheduler.Scheduler.PollIdle` | src/oran-agent/scheduler.cpp:102-113 | one round of the wait: over exactly when nothing is live, else asleep |
| `ToolSchedulerOutcomes.BatchStarts` | src/oran-agent/scheduler.cpp:98-136 | exactly when a batch starts, and that then the first calls, as many as may run at once, are in flight and nothing else has happened |
| `ToolSchedulerOutcomes.ReceiveGoesOn` | src/oran-agent/scheduler.cpp:142-171 | receiving accounts for the oldest completion and starts the next call if one is left; the last completion ends the batch with every call's own result in batch order |
| `ToolSchedulerOutcomes.CancellationCuts` | src/oran-agent/scheduler.cpp:145-183 | cancellation starts nothing more, accounts for what never started, and leaves what is in flight |
| `ToolSchedulerOutcomes.GiveUpNamesLaggards` | src/oran-agent/scheduler.cpp:197-209 | an abandoned batch names exactly the calls not accounted for |
| `ToolSchedulerOutcomes.SuspendedIsBounded` | src/oran-agent/scheduler.cpp:138-209 | a coroutine still suspended has moved fewer times than the batch has calls plus two, so it returns whatever the order of returns, cancellation and timeouts |
| `ToolSchedulerOutcomes.ReceivingIsNeverStuck` | src/oran-agent/scheduler.cpp:138-173 | a batch that receives has a completion waiting or a call in flight |
| `ToolSchedulerOutcomes.UncancelledSucceeds` | src/oran-agent/scheduler.cpp:138-173 | without cancellation a batch returns exactly after as many completions as calls were left, with one row per call in batch order holding its id, name and result |
| `TaskGroup.ChildrenAreConserved` | src/oran-async/task_group.cpp:79-102 | spawned children are active, retained, dropped or already reported, and both lists are bounded |
| `TaskGroup.ReportsAreOrdered` | src/oran-async/task_group.cpp:184-226 | reports are strictly ordered by spawn sequence, with lagging rows exactly the active children |
| `TaskGroup.JoinerIsNeverStranded` | src/oran-async/task_group.cpp:346-362 | once the last child has finished and signalled, a blocked joiner finds the wake-up and returns every row |
| `TaskGroup.StepKeepsInv` | src/oran-async/task_group.cpp:227-242 | every event keeps children accounted for and no wake-up lost |
| `TaskGroup.Impl.Join` | src/oran-async/task_group.cpp:346-363 | `join` returns only when every child has finished, with ordered rows and none lagging, whatever wakes or cancels it: exactly when the waiting loop `Awaits` finds no child left, with all retained rows and the number of those dropped |
| `TaskGroup.Impl.JoinWithTimeout` | src/oran-async/task_group.cpp:365-417 | at the deadline it returns ordered rows in which exactly the children still active are lagging; before it, it returns as `join` does |
| `TaskGroup.Impl.AwaitChildren` | src/oran-async/task_group.cpp:355-361 | the loop of both joins is a run of join events and ends only without children or, if bounded, at the deadline |
| `TaskGroup.MergeRows` | src/oran-async/task_group.cpp:202-224 | the merge loop computes the ordered merge |
| `TaskGroup.Impl.SpawnChild` | src/oran-async/task_group.cpp:79-102 | `spawn` with its refusals |
| `TaskGroup.Impl.FinishChild` | src/oran-async/task_group.cpp:227-242 | `finish`: a child leaves once, the oldest row is dropped when the list is full |
| `TaskGroup.Impl.DrainCompleted` | src/oran-async/task_group.cpp:184-200 | returns and forgets the retained rows in spawn order |
| `TaskGroup.Impl.TimedJoinReport` | src/oran-async/task_group.cpp:202-225 | retained and lagging rows in spawn order |
| `TaskGroupOutcomes.SpawnAddsChild` | src/oran-async/task_group.cpp:79-102 | a named task of an open group with room becomes its youngest child; every other spawn is refused with its error |
| `TaskGroupOutcomes.FinishKeepsOutcome` | src/oran-async/task_group.cpp:227-242 | a child that finishes leaves, its own outcome is the newest retained, and in a full list the oldest is dropped and counted |
| `TaskGroupOutcomes.OutcomeIsKept` | src/oran-async/task_group.cpp:184-242 | over every run the outcome of a finished child is retained until it is drained, reported, or pushed out of a full list |
| `TaskGroupOutcomes.CheckDecides` | src/oran-async/task_group.cpp:355-362 | a joiner waits exactly if a child is left, and otherwise reports everything retained |
| `TaskGroupOutcomes.DeadlineReports` | src/oran-async/task_group.cpp:409-417 | at the deadline the children left are stopped, stay active, and have a lagging row each among the retained ones |
| `TaskGroupOutcomes.FinishedIsGone` | src/oran-async/task_group.cpp:227-242 | a child that finishes while the joiner is suspended is gone when it looks again |
| `TaskGroupOutcomes.OneWait` | src/oran-async/task_group.cpp:355-361 | one wait: a token is taken and the joiner looks again, a cancelled parent stops the children and it looks again, otherwise it stays suspended |
| `TaskGroupOutcomes.WaitsAddUp` | src/oran-async/task_group.cpp:355-361 | a joiner that looked again goes on with what comes next as if it had just begun |
| `TaskGroupOutcomes.SuspendedHasReason` | src/oran-async/task_group.cpp:346-362 | a join left suspended has a child that has not finished, or one that has yet to signal |
| `StatementCache.EveryRunIsSafe` | src/oran-storage/statement_cache.cpp:112-252 | over every interleaving the list and the index are a bijection of size at most `capacity`, no statement is in two leases, idle entries have no bindings |
| `StatementCache.StepKeepsInv` | src/oran-storage/statement_cache.cpp:112-252 | acquire, release, use and clear keep the invariant, including failed resets |
| `StatementCache.AcquireGrants` | src/oran-storage/statement_cache.cpp:123-180 | a granted lease is new, for the requested SQL, with cleared bindings, on a statement nobody holds |
| `StatementCache.AcquireRefuses` | src/oran-storage/statement_cache.cpp:112-158 | exactly when `acquire` fails, and that no lease is lost then |
| `StatementCache.OnlyLeastRecentIsEvicted` | src/oran-storage/statement_cache.cpp:160-180 | eviction happens only when full, and takes the least recently used entry that is not leased |
| `StatementCache.Cache.AcquireStatement` | src/oran-storage/statement_cache.cpp:112-180 | the method performs the acquire step |
| `StatementCache.Cache.ReleaseLease` | src/oran-storage/statement_cache.cpp:227-252 | the method performs the release step: the lease ends, and its statement is available again, forgotten after a failed reset or clear, or left to nobody if it is an orphan |
| `StatementCache.Cache.ClearAll` | src/oran-storage/statement_cache.cpp:182-197 | the method performs the clear step, orphaning leased entries |
| `StatementCacheOutcomes.ReleaseEndsOneLease` | src/oran-storage/statement_cache.cpp:227-252 | a release ends its lease; no other lease, statement, index entry or count differs |
| `StatementCacheOutcomes.CleanReleaseReturns` | src/oran-storage/statement_cache.cpp:227-252 | a clean release leaves a cached statement in list and index, neither leased nor bound |
| `StatementCacheOutcomes.FailedReleaseForgets` | src/oran-storage/statement_cache.cpp:240-248 | after a failed reset or clear the SQL is no longer indexed and the statement not listed |
| `StatementCacheOutcomes.OrphanReleaseChangesNothing` | src/oran-storage/statement_cache.cpp:236-239 | the release of an orphan only ends its lease |
| `StatementCacheOutcomes.IdleIsHit` | src/oran-storage/statement_cache.cpp:123-147 | acquiring the SQL of an idle statement lends out that statement, moves it to the front and counts a hit |
| `StatementCacheOutcomes.UncleanHitForgets` | src/oran-storage/statement_cache.cpp:134-143 | an idle statement that cannot be reset or cleared is dropped and nothing is lent |
| `StatementCacheOutcomes.UncachedIsPrepared` | src/oran-storage/statement_cache.cpp:149-180 | SQL that is not cached is prepared and counted as a miss; it is cached if there is room or an idle statement makes way, and is an orphan otherwise |
| `StatementCacheOutcomes.EveryReleaseReturns` | src/oran-storage/statement_cache.cpp:112-252 | over every run a clean release is what the next acquisition of the same SQL gets, unless the statement is an orphan |
| `StatementCacheOutcomes.ClearOrphansLeases` | src/oran-storage/statement_cache.cpp:182-197 | clearing empties list, index and counts; every lease goes on with its own statement, an orphan from then on |
| `Permission.GlobMatch` | src/oran-permission/rule_set.cpp:76-104 | the backtracking loop ends and agrees with the recursive meaning of `*` for all patterns and texts |
| `Permission.LaterStarSuffices` | src/oran-permission/rule_set.cpp:85-98 | a later star makes backtracking to an earlier one unnecessary |
| `Permission.EvaluateRequirement` | src/oran-permission/rule_set.cpp:48-72 | the first deny, else the first allow, else the first ask rule that applies, with that rule's limits; else permissive mode allows, default mode asks and the others deny |
| `Permission.Evaluate` | src/oran-permission/rule_set.cpp:134-152 | the early exit on deny does not change the combined decision |
| `Permission.CombinedIsStrictest` | src/oran-permission/rule_set.cpp:110-152 | the verdict is the most restrictive over the capabilities; when it asks, its limits are the smallest of those that ask |
| `Permission.OrderIrrelevant` | src/oran-permission/rule_set.cpp:134-152 | the order and repetition of capabilities do not matter |
| `Permission.MoreCapabilitiesTighten` | src/oran-permission/rule_set.cpp:134-152 | one more capability never loosens a non-empty requirement |
| `Permission.FirstCapabilityTightensIff` | src/oran-permission/rule_set.cpp:134-152 | naming the first capability keeps the verdict as strict exactly unless a named condition on the rules holds |
| `Permission.DecideLoosens` | src/oran-permission/rule_set.cpp:48-72 | that condition is decided from the rules before anything is evaluated |
| `Permission.FirstCapabilityMayLoosen` | src/oran-permission/rule_set.cpp:134-152 | for the tool `FileRead` in strict mode and one rule that allows `File*` with `read_file`, naming that capability turns deny into allow |
| `Permission.DenyRuleTightens` | src/oran-permission/rule_set.cpp:48-72 | inserting a deny rule anywhere never loosens a verdict |
| `Utf8.ValidIffEncoding` | src/oran-core/str.cpp:15-65 | accepted byte strings are exactly the encodings of section 3 of RFC 3629 |
| `Utf8.DecodeEncode` | src/oran-core/str.cpp:15-65 | encoded scalars are valid and decode to themselves |
| `Utf8.EncodeDecode` | src/oran-core/str.cpp:15-65 | valid text is the encoding of what it decodes to |
| `Utf8.IsValidUtf8` | src/oran-core/str.cpp:67-93 | the loop decides validity |
| `Utf8.CountCodePoints` | src/oran-core/str.cpp:95-120 | the number of scalars, or none for invalid text |
| `Utf8.TruncateToCodePoint` | src/oran-core/str.cpp:122-146 | a prefix within the limit that cuts between code points and is as long as possible |
| `Utf8.SplitText` | src/oran-channel/protocol.cpp:19-31 | succeeds exactly for a limit of four or more and valid text; the parts are valid, within the limit, as long as possible and concatenate to the text |
| `Utf8.Utf16Size` | apps/telegram/format.cpp:13-20 | the size computed from lead bytes |
| `Utf8.UnitsByByteIsUtf16` | apps/telegram/format.cpp:13-20 | that size is the number of UTF-16 units |
| `Formatting.NormalizeEntities` | apps/telegram/format.cpp:24-64 | exactly the code units lose their other styles, code keeps its own, the result is sorted and within the text |
| `Formatting.SubtractCode` | apps/telegram/format.cpp:38-58 | the pieces of an entity cover exactly its units outside the code ranges |
| `Formatting.CollectCode` | apps/telegram/format.cpp:28-37 | the ranges cover exactly the code units, in order and apart |
| `Formatting.SortEntities` | apps/telegram/format.cpp:59-63 | sorted, and a permutation |
| `Formatting.RebaseEntities` | apps/telegram/format.cpp:181-195 | in a slice every unit has the styles it had in the whole text |
| `Formatting.SplitFormatted` | apps/telegram/format.cpp:175-197 | the parts concatenate to the text and every unit keeps its styles |
| `Formatting.PrepareReply` | apps/telegram/format.cpp:24-197 | normalising, splitting and rebasing together show every unit with the styles it must have, by entities that cover something and lie within their part |
| `MemoryIndex.MakeIndex` | src/oran-memory/recall_index.cpp:33-79 | a page stays within its byte budget including footers, takes at least one candidate, and its rows are the fitting ones among those it consumed |
| `MemoryIndex.BrowseAll` | src/oran-memory/longterm_index.cpp:57-102 | following `next_offset` from zero ends and accounts for every record once, shown or omitted |
| `MemoryIndex.PageAdvances` | src/oran-memory/longterm_index.cpp:57-102 | consecutive pages cover consecutive records without gap or overlap |

## Left out

- HTTP and curl clients, channel transports, webhooks, onboarding, the approval broker and its cryptography: foreign calls and I/O.
- JSON parsing, provider request and response mapping, configuration: the journal is modelled over JSON values, not text.
- SQLite repositories, SQL text and migrations: a store is a sequence, SQLite's answers are inputs.
- Descriptor-level file mutation: a failed journal write leaves the old or the new state, and the host stops.
- Markdown traversal and the QQ splitter; formatting starts from an entity list with disjoint code ranges.
- Typing and reaction activity, presentation drafts, hooks, audit rows, traces and usage totals: none changes a modelled outcome.
- Wall-clock time: deadlines, grace windows and retention happen at any moment, which covers every schedule.
- Exceptional re-entry of a job's monitor and allocation failures: monitor completion is one step.
- The destructor of the background service, which closes as shutdown does but does not wait.
- Messages between team members, prompts, feedback and evidence of team assignments, labels, the tool checks of a specialist: a specialist's refusal is an input.
- BackgroundTasks.Service.Complete: the stored result and the task's report are the text after truncation to their byte limits, and the truncation flags are not modelled, because no other state depends on them.
- BackgroundTasks.Service.PollShutdown: one test of the counter only; the channel between tests is modelled in `ShutdownWait`.
- `team_command` runs a request and the pump in one piece; the model has them as two events, which allows more interleavings.
- Session creation of a child, prompt and label checks of `start`: they refuse before anything changes.
- Dispatcher message validation (sizes and identity fields) and the cut of replies into parts: a message carries whether it is acceptable, a turn ends with its parts.
- Memory index lines (cue, flattening, id) are inputs with their bytes; page arithmetic is exact.
- The texts of the summary instruction, of its payload and of the inbox preamble are parameters, so every bound holds for whatever they say.
- How tool errors are rendered is a parameter; the final text of a turn is left out.
- Moves of statement caches and leases between owners; a lease that was moved from is not modelled.
- `std::size_t` overflow: counts and sizes are unbounded, except the 64-bit cursor of the journal and the index offset.

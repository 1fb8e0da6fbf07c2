/** The polling host and its write-ahead journal (apps/telegram/host.cpp, apps/telegram/state.cpp):
    every effect is bracketed by journal writes, a crash or an uncertain write can happen anywhere,
    and an operator resolves what a crash left behind. One step is one effect. */
module TelegramHost {
  import opened Core
  import opened Journal

  /** How a durable write ends. A failed write may or may not have replaced the file. */
  datatype Write = Saved | FailedOld | FailedNew

  /** What the running host does next; its memory of the journal goes with it. */
  datatype Pc =
    | Starting
    | Polling
    | Dispatching
    | Answering(answer: string)
    | Delivering(parts: nat)
    | Sending(parts: nat)
    | Awaiting(parts: nat)

  datatype Host = Stopped | Running(state: State, pc: Pc)

  datatype Archive = ForUpdate(id: int) | ForTask(task: string)

  /** `disk` is the state whose document is saved; `turns` lists the updates whose turn ran, in
      order; `issued` counts the sends made for the pending record; `finished` are the background runs
      this host has delivered since it started, as far as its dispatcher may still know. */
  datatype World = World(
    disk: Option<State>,
    handled: map<Archive, State>,
    host: Host,
    turns: seq<int>,
    issued: nat,
    finished: set<string>)

  datatype Event =
    | Boot(user: string, workspace: string, freshId: Result<TurnId>)
    | Identify(bot: string, write: Write)
    | PollUpdate(update: Json, admitted: bool, write: Write)
    | PollTask(task: string, write: Write)
    | Repeat(write: Write)
    | RunTurn(outcome: Result<string>)
    | SaveAnswer(session: Option<TurnId>, parts: nat, write: Write)
    | MarkInflight(write: Write)
    | IssueSend
    | Receipt(accepted: bool, write: Write)
    | Complete(write: Write)
    | Crash
    | Acknowledge(id: int, archive: Write, write: Write)

  // ---------------------------------------------------------------- steps

  function OnDisk(before: Option<State>, s: State, write: Write): Option<State> {
    if write.FailedOld? then before else Some(s)
  }

  /** Writes the state; the host goes on only after a certain write. */
  function Persist(w: World, s: State, pc: Pc, write: Write): World {
    w.(disk := OnDisk(w.disk, s, write), host := if write.Saved? then Running(s, pc) else Stopped)
  }

  function Halt(w: World): World {
    w.(host := Stopped)
  }

  function PendingId(s: State): (id: int) {
    if s.pending.Some? && UpdateId(s.pending.value.update).Some? then UpdateId(s.pending.value.update).value else -1
  }

  /** The record that is saved before anything is done for it. */
  function Record(update: Json, task: string): Pending {
    Pending(update, None, 0, false, task)
  }

  /** The state after a delivered record: an update moves the cursor past itself. */
  function Resolved(s: State): State {
    if s.pending.Some? && s.pending.value.taskId == "" then s.(pending := None, nextUpdate := PendingId(s) + 1)
    else s.(pending := None)
  }

  /** The background run of the pending record, if it is one. */
  function FinishedTask(s: State): set<string> {
    if s.pending.Some? && s.pending.value.taskId != "" then {s.pending.value.taskId} else {}
  }

  /** The record to be dispatched is for a background run that was delivered before: the dispatcher
      answers it as a duplicate, without a turn. */
  predicate Repeats(w: World) {
    && w.host.Running? && w.host.pc.Dispatching? && w.host.state.pending.Some?
    && w.host.state.pending.value.taskId != "" && w.host.state.pending.value.taskId in w.finished
  }

  function ArchiveName(s: State): Archive
    requires s.pending.Some?
  {
    if s.pending.value.taskId == "" then ForUpdate(PendingId(s)) else ForTask(s.pending.value.taskId)
  }

  function BootStep(w: World, user: string, workspace: string, freshId: Result<TurnId>): World {
    var journal := if w.disk.Some? then Some(Encode(w.disk.value)) else None;
    var loaded := Load(journal, user, workspace, freshId);
    if w.host.Stopped? && loaded.Ok? then w.(host := Running(loaded.value, Starting), finished := {}) else w
  }

  /** The operator archives the pending record under the host's lock, then resolves it. */
  function AcknowledgeStep(w: World, update: int, archive: Write, write: Write): World {
    if !w.host.Stopped? || w.disk.None? then w
    else AcknowledgeLoaded(w, Decode(Encode(w.disk.value)), update, archive, write)
  }

  function AcknowledgeLoaded(w: World, loaded: Result<State>, update: int, archive: Write, write: Write): World {
    if loaded.Err? || loaded.value.pending.None? || PendingId(loaded.value) != update then w
    else
      var s := loaded.value;
      var archived := if archive.FailedOld? then w else w.(handled := w.handled[ArchiveName(s) := s]);
      if !archive.Saved? then archived else archived.(disk := OnDisk(w.disk, Resolved(s), write))
  }

  function Step(w: World, e: Event): World {
    match e
    case Crash => Halt(w)
    case Boot(user, workspace, freshId) => BootStep(w, user, workspace, freshId)
    case Acknowledge(update, archive, write) => AcknowledgeStep(w, update, archive, write)
    case _ => if w.host.Stopped? then w else HostStep(w, e, w.host.state, w.host.pc)
  }

  function HostStep(w: World, e: Event, s: State, pc: Pc): World {
    match (e, pc)
    case (Identify(bot, write), Starting) =>
      if s.bot != "" && s.bot != bot then Halt(w) else Persist(w, s.(bot := bot), Polling, write)
    case (PollUpdate(update, admitted, write), Polling) =>
      var id := UpdateId(update);
      if id.None? || id.value < s.nextUpdate || id.value == MAX_INT64 then Halt(w)
      else if !admitted then Persist(w, s.(nextUpdate := id.value + 1), Polling, write)
      else Persist(w.(issued := 0), s.(pending := Some(Record(update, ""))), Dispatching, write)
    case (PollTask(task, write), Polling) =>
      if task == "" then w
      else
        var update := JObject(map["update_id" := JInt(s.nextUpdate)]);
        Persist(w.(issued := 0), s.(pending := Some(Record(update, task))), Dispatching, write)
    case (Repeat(write), Dispatching) =>
      if Repeats(w) then Persist(w, Resolved(s), Polling, write) else w
    case (RunTurn(outcome), Dispatching) =>
      var ran := if s.pending.Some? && s.pending.value.taskId == "" then w.(turns := w.turns + [PendingId(s)]) else w;
      if outcome.Err? then Halt(ran) else ran.(host := Running(s, Answering(outcome.value)))
    case (SaveAnswer(session, parts, write), Answering(answer)) =>
      if s.pending.None? then Halt(w)
      else
        var p := s.pending.value.(answer := Some(answer));
        Persist(w, s.(session := if session.Some? then session.value else s.session, pending := Some(p)),
                Delivering(parts), write)
    case (MarkInflight(write), Delivering(parts)) =>
      if s.pending.None? then Halt(w)
      else if s.pending.value.confirmed >= parts then w
      else Persist(w, s.(pending := Some(s.pending.value.(inflight := true))), Sending(parts), write)
    case (IssueSend, Sending(parts)) => w.(issued := w.issued + 1, host := Running(s, Awaiting(parts)))
    case (Receipt(accepted, write), Awaiting(parts)) =>
      if !accepted || s.pending.None? then Halt(w)
      else
        var p := s.pending.value;
        Persist(w, s.(pending := Some(p.(confirmed := p.confirmed + 1, inflight := false))), Delivering(parts), write)
    case (Complete(write), Delivering(parts)) =>
      if s.pending.None? || s.pending.value.confirmed != parts then w
      else Persist(w.(finished := w.finished + FinishedTask(s)), Resolved(s), Polling, write)
    case _ => w
  }

  function Init(): World {
    World(None, map[], Stopped, [], 0, {})
  }

  function Run(w: World, events: seq<Event>): World
    decreases |events|
  {
    if events == [] then w else Run(Step(w, events[0]), events[1..])
  }

  // ---------------------------------------------------------------- invariant

  predicate Distinct(s: seq<int>) {
    forall i, j :: 0 <= i < j < |s| ==> s[i] != s[j]
  }

  predicate IsUpdateRecord(s: State) {
    s.pending.Some? && s.pending.value.taskId == ""
  }

  /** The journal brackets reality: without a send in flight exactly the confirmed sends were made,
      with one in flight there may be one more; and nothing is sent before its answer is saved. */
  predicate Brackets(s: State, issued: nat) {
    s.pending.Some? ==>
      && var p := s.pending.value;
      && (if p.inflight then p.confirmed <= issued <= p.confirmed + 1 else issued == p.confirmed)
      && (issued > 0 || p.inflight ==> p.answer.Some?)
  }

  /** Every update whose turn ran is behind the saved cursor or is the saved pending record. */
  predicate Remembered(disk: Option<State>, turns: seq<int>) {
    forall u :: u in turns ==>
      disk.Some? && (u < disk.value.nextUpdate || (IsUpdateRecord(disk.value) && u == PendingId(disk.value)))
  }

  /** A pending update record names an update at or after the cursor. */
  predicate RecordAhead(s: State) {
    && 0 <= s.nextUpdate <= MAX_INT64
    && (s.pending.Some? ==> UpdateId(s.pending.value.update).Some? && PendingId(s) >= s.nextUpdate)
    && (IsUpdateRecord(s) ==> PendingId(s) < MAX_INT64)
  }

  /** What the running host's memory says about disk, turns and sends at each point. */
  predicate InStep(w: World, s: State, pc: Pc) {
    match pc
    case Starting => s.pending.None? && (if w.disk.Some? then w.disk.value == s else s.nextUpdate == 0)
    case Polling => w.disk == Some(s) && s.pending.None?
    case Dispatching =>
      && w.disk == Some(s) && s.pending.Some? && w.issued == 0
      && s.pending.value == Record(s.pending.value.update, s.pending.value.taskId)
      && (IsUpdateRecord(s) ==> PendingId(s) !in w.turns)
    case Answering(_) =>
      && w.disk == Some(s) && s.pending.Some? && w.issued == 0
      && s.pending.value == Record(s.pending.value.update, s.pending.value.taskId)
    case Delivering(parts) =>
      && w.disk == Some(s) && s.pending.Some? && s.pending.value.answer.Some?
      && !s.pending.value.inflight && s.pending.value.confirmed == w.issued
    case Sending(parts) =>
      && w.disk == Some(s) && s.pending.Some? && s.pending.value.answer.Some?
      && s.pending.value.inflight && s.pending.value.confirmed == w.issued
    case Awaiting(parts) =>
      && w.disk == Some(s) && s.pending.Some? && s.pending.value.answer.Some?
      && s.pending.value.inflight && s.pending.value.confirmed + 1 == w.issued
  }

  predicate Inv(w: World) {
    && Distinct(w.turns)
    && Remembered(w.disk, w.turns)
    && (w.disk.Some? ==> RecordAhead(w.disk.value) && Brackets(w.disk.value, w.issued))
    && (w.host.Running? ==> InStep(w, w.host.state, w.host.pc))
  }

  // ---------------------------------------------------------------- every step keeps it

  lemma AppendDistinct(turns: seq<int>, u: int)
    requires Distinct(turns) && u !in turns
    ensures Distinct(turns + [u])
  {
  }

  lemma BootKeepsInv(w: World, user: string, workspace: string, freshId: Result<TurnId>)
    requires Inv(w)
    ensures Inv(BootStep(w, user, workspace, freshId))
  {
    if w.disk.Some? {
      RoundTrip(w.disk.value);
    }
  }

  lemma AcknowledgeKeepsInv(w: World, update: int, archive: Write, write: Write)
    requires Inv(w)
    ensures Inv(AcknowledgeStep(w, update, archive, write))
  {
    if w.disk.Some? {
      RoundTrip(w.disk.value);
    }
  }

  lemma PollKeepsInv(w: World, e: Event, s: State)
    requires Inv(w) && w.host == Running(s, Polling)
    ensures Inv(HostStep(w, e, s, Polling))
  {
    forall u | u in w.turns ensures u < s.nextUpdate {
    }
    if e.PollTask? {
      var update := JObject(map["update_id" := JInt(s.nextUpdate)]);
      assert Field(update, "update_id") == Some(JInt(s.nextUpdate));
    }
  }

  lemma RunTurnKeepsInv(w: World, outcome: Result<string>, s: State)
    requires Inv(w) && w.host == Running(s, Dispatching)
    ensures Inv(HostStep(w, RunTurn(outcome), s, Dispatching))
  {
    if IsUpdateRecord(s) {
      AppendDistinct(w.turns, PendingId(s));
    }
  }

  lemma StepKeepsInv(w: World, e: Event)
    requires Inv(w)
    ensures Inv(Step(w, e))
  {
    match e
    case Boot(user, workspace, freshId) => BootKeepsInv(w, user, workspace, freshId);
    case Acknowledge(update, archive, write) => AcknowledgeKeepsInv(w, update, archive, write);
    case Crash =>
    case _ =>
      if w.host.Running? {
        HostStepKeepsInv(w, e, w.host.state, w.host.pc);
      }
  }

  lemma HostStepKeepsInv(w: World, e: Event, s: State, pc: Pc)
    requires Inv(w) && w.host == Running(s, pc)
    ensures Inv(HostStep(w, e, s, pc))
  {
    if pc.Polling? {
      PollKeepsInv(w, e, s);
    } else if pc.Dispatching? && e.RunTurn? {
      RunTurnKeepsInv(w, e.outcome, s);
    }
  }

  lemma {:induction false} RunKeepsInv(w: World, events: seq<Event>)
    requires Inv(w)
    ensures Inv(Run(w, events))
    decreases |events|
  {
    if events != [] {
      StepKeepsInv(w, events[0]);
      RunKeepsInv(Step(w, events[0]), events[1..]);
    }
  }

  // ---------------------------------------------------------------- what a journal promises

  /** Across any polls, crashes, uncertain writes, restarts and acknowledgements: each update's
      turn runs at most once, and at every crash point the saved record brackets the sends. */
  lemma TurnsRunAtMostOnce(events: seq<Event>)
    ensures var w := Run(Init(), events);
      && Distinct(w.turns)
      && (w.disk.Some? ==> Brackets(w.disk.value, w.issued))
  {
    RunKeepsInv(Init(), events);
  }

  /** One step never moves the saved cursor back. */
  lemma CursorNeverGoesBack(w: World, e: Event)
    requires Inv(w) && w.disk.Some?
    ensures Step(w, e).disk.Some? && Step(w, e).disk.value.nextUpdate >= w.disk.value.nextUpdate
  {
    match e
    case Crash =>
    case Boot(_, _, _) =>
    case Acknowledge(update, archive, write) => OperatorCursorNeverGoesBack(w, update, archive, write);
    case _ =>
      if w.host.Running? {
        HostCursorNeverGoesBack(w, e);
      }
  }

  lemma OperatorCursorNeverGoesBack(w: World, update: int, archive: Write, write: Write)
    requires Inv(w) && w.disk.Some?
    ensures var d := AcknowledgeStep(w, update, archive, write).disk;
      d.Some? && d.value.nextUpdate >= w.disk.value.nextUpdate
  {
    RoundTrip(w.disk.value);
  }

  lemma HostCursorNeverGoesBack(w: World, e: Event)
    requires Inv(w) && w.disk.Some? && w.host.Running?
    ensures var d := HostStep(w, e, w.host.state, w.host.pc).disk;
      d.Some? && d.value.nextUpdate >= w.disk.value.nextUpdate
  {
  }

  lemma {:induction false} CursorNeverGoesBackOverRuns(w: World, events: seq<Event>)
    requires Inv(w) && w.disk.Some?
    ensures Run(w, events).disk.Some? && Run(w, events).disk.value.nextUpdate >= w.disk.value.nextUpdate
    decreases |events|
  {
    if events != [] {
      StepKeepsInv(w, events[0]);
      CursorNeverGoesBack(w, events[0]);
      CursorNeverGoesBackOverRuns(Step(w, events[0]), events[1..]);
    }
  }

  /** Two records are for the same update or task. */
  predicate SameRecord(p: Pending, q: Pending) {
    p.update == q.update && p.taskId == q.taskId
  }

  /** All parts of the saved record were sent and confirmed. */
  predicate Delivered(w: World) {
    && w.disk.Some? && w.disk.value.pending.Some?
    && w.host.Running? && w.host.pc.Delivering?
    && w.disk.value.pending.value.answer.Some?
    && w.issued == w.disk.value.pending.value.confirmed == w.host.pc.parts
  }

  /** A saved pending record stays saved until its delivery is complete, its background run turns out
      to have been delivered before, or the operator has archived it; it is never replaced by another
      record. */
  lemma PendingIsNeverDropped(w: World, e: Event)
    requires Inv(w) && w.disk.Some? && w.disk.value.pending.Some?
    ensures Accounted(w, Step(w, e))
  {
    match e
    case Crash =>
    case Boot(_, _, _) =>
    case Acknowledge(update, archive, write) => OperatorDropsNothing(w, update, archive, write);
    case _ =>
      if w.host.Running? {
        HostDropsNothing(w, e);
      }
  }

  /** The record pending on disk in `w` is still there in `v`, or delivered now or before, or archived. */
  predicate Accounted(w: World, v: World)
    requires w.disk.Some? && w.disk.value.pending.Some?
  {
    && v.disk.Some?
    && (v.disk.value.pending.Some? ==> SameRecord(v.disk.value.pending.value, w.disk.value.pending.value))
    && (v.disk.value.pending.None? ==>
      Delivered(w) || Repeats(w)
      || (ArchiveName(w.disk.value) in v.handled && v.handled[ArchiveName(w.disk.value)] == w.disk.value))
  }

  /** A background run counts as delivered only once all its parts were. */
  lemma FinishedWasDelivered(w: World, e: Event, task: string)
    requires Inv(w) && task in Step(w, e).finished && task !in w.finished
    ensures Delivered(w) && w.disk.value.pending.value.taskId == task
  {
  }

  lemma HostDropsNothing(w: World, e: Event)
    requires Inv(w) && w.disk.Some? && w.disk.value.pending.Some? && w.host.Running?
    ensures Accounted(w, HostStep(w, e, w.host.state, w.host.pc))
  {
  }

  lemma OperatorDropsNothing(w: World, update: int, archive: Write, write: Write)
    requires w.disk.Some? && w.disk.value.pending.Some?
    ensures Accounted(w, AcknowledgeStep(w, update, archive, write))
  {
    RoundTrip(w.disk.value);
  }

  /** While a record is pending on disk a restarted host does not run: only the operator's
      acknowledgement frees it. */
  lemma PendingBlocksRestart(w: World, user: string, workspace: string, freshId: Result<TurnId>)
    requires w.host.Stopped? && w.disk.Some? && w.disk.value.pending.Some?
    ensures Step(w, Boot(user, workspace, freshId)) == w
  {
    RoundTrip(w.disk.value);
  }

  /** An acknowledgement that was written skips exactly the acknowledged update. */
  lemma AcknowledgementSkipsOne(w: World, update: int)
    requires Inv(w) && w.host.Stopped? && w.disk.Some? && Storable(w.disk.value) && IsUpdateRecord(w.disk.value)
    requires PendingId(w.disk.value) == update
    ensures AcknowledgeStep(w, update, Saved, Saved).disk ==
      Some(w.disk.value.(pending := None, nextUpdate := update + 1))
  {
    RoundTrip(w.disk.value);
    AcknowledgedLoaded(w, w.disk.value, update);
  }

  lemma AcknowledgedLoaded(w: World, s: State, update: int)
    requires IsUpdateRecord(s) && PendingId(s) == update
    ensures AcknowledgeLoaded(w, Ok(s), update, Saved, Saved).disk ==
      Some(s.(pending := None, nextUpdate := update + 1))
  {
  }

  // ---------------------------------------------------------------- the host as a program

  /** What the environment does around one send, and around one polled record. */
  datatype PartScript = PartScript(mark: Write, accepted: bool, confirm: Write)

  datatype Polled =
    | Nothing
    | Update(update: Json, admitted: bool)
    | Task(task: string)

  datatype Script = Script(
    polled: Polled,
    record: Write,
    known: bool,
    outcome: Result<string>,
    session: Option<TurnId>,
    parts: nat,
    answer: Write,
    part: nat -> PartScript,
    done: Write)

  /** The part is sent and both writes around it succeed. */
  predicate GoesOut(part: PartScript) {
    part.mark.Saved? && part.accepted && part.confirm.Saved?
  }

  /** No write, turn or send of this round fails. */
  ghost predicate Smooth(script: Script) {
    && script.record.Saved? && script.outcome.Ok? && script.answer.Saved? && script.done.Saved?
    && forall n: nat :: n < script.parts ==> GoesOut(script.part(n))
  }

  /** The state with its first `n` parts confirmed and none in flight. */
  function Sent(s: State, n: nat): State
    requires s.pending.Some?
  {
    var p := s.pending.value;
    State(s.bot, s.user, s.workspace, s.session, s.nextUpdate, Some(Pending(p.update, p.answer, n, false, p.taskId)))
  }

  /** The host is back at polling, with this session and cursor saved and nothing pending. */
  predicate Idles(v: World, s: State, session: TurnId, next: int) {
    && v.host == Running(State(s.bot, s.user, s.workspace, session, next, None), Polling)
    && v.disk == Some(State(s.bot, s.user, s.workspace, session, next, None))
  }

  /** The update can be taken at this cursor. */
  predicate InOrder(update: Json, cursor: int) {
    UpdateId(update).Some? && cursor <= UpdateId(update).value < MAX_INT64
  }

  /** What a smooth round comes to: an admitted update gets one turn and one send per part, any other
      update is skipped, and both move the cursor just past it; a background run is sent, unless it was
      before, and leaves the cursor. */
  ghost predicate ServesRound(w: World, v: World, s: State, script: Script) {
    var session := if script.session.Some? then script.session.value else s.session;
    match script.polled
    case Nothing => v == w
    case Update(update, admitted) =>
      InOrder(update, s.nextUpdate) ==>
        var id := UpdateId(update).value;
        && v.handled == w.handled && v.finished == w.finished
        && (admitted ==> Idles(v, s, session, id + 1) && v.turns == w.turns + [id] && v.issued == script.parts)
        && (!admitted ==> Idles(v, s, s.session, id + 1) && v.turns == w.turns && v.issued == w.issued)
    case Task(task) =>
      && v.handled == w.handled && v.turns == w.turns
      && if task == "" then v == w
         else if script.known && task in w.finished then
           Idles(v, s, s.session, s.nextUpdate) && v.issued == 0 && v.finished == w.finished
         else
           Idles(v, s, session, s.nextUpdate) && v.issued == script.parts && v.finished == w.finished + {task}
  }

  /** The cursor after these rounds, and the updates that were admitted in them. */
  function CursorAfter(scripts: seq<Script>, cursor: int): int {
    if scripts == [] then cursor
    else
      var before, polled := CursorAfter(scripts[..|scripts| - 1], cursor), scripts[|scripts| - 1].polled;
      if polled.Update? && UpdateId(polled.update).Some? then UpdateId(polled.update).value + 1 else before
  }

  function AdmittedIds(scripts: seq<Script>): seq<int> {
    if scripts == [] then []
    else
      var before, polled := AdmittedIds(scripts[..|scripts| - 1]), scripts[|scripts| - 1].polled;
      if polled.Update? && polled.admitted && UpdateId(polled.update).Some? then before + [UpdateId(polled.update).value]
      else before
  }

  /** No round fails, and every update comes at or after the cursor that it finds. */
  ghost predicate AllSmooth(scripts: seq<Script>, cursor: int) {
    scripts == [] ||
    (var before, last := scripts[..|scripts| - 1], scripts[|scripts| - 1];
     && AllSmooth(before, cursor) && Smooth(last)
     && (last.polled.Update? ==> InOrder(last.polled.update, CursorAfter(before, cursor))))
  }

  /** The host still runs, has run the turn of each admitted update in order, and is behind the last. */
  ghost predicate Caught(turns: seq<int>, cursor: int, scripts: seq<Script>, v: World) {
    && v.host.Running? && v.host.state.nextUpdate == CursorAfter(scripts, cursor)
    && v.turns == turns + AdmittedIds(scripts)
  }

  /** A record that nothing was done for yet. */
  predicate HasRecord(s: State) {
    s.pending.Some? && s.pending.value.confirmed == 0 && !s.pending.value.inflight && s.pending.value.answer.None?
  }

  /** What polling leaves when its write succeeds. */
  predicate Takes(w: World, v: World, s: State, polled: Polled) {
    match polled
    case Nothing => v == w
    case Update(update, admitted) =>
      InOrder(update, s.nextUpdate) ==>
        && v.handled == w.handled && v.finished == w.finished && v.turns == w.turns
        && if admitted then Recorded(v, s, update, "")
           else Idles(v, s, s.session, UpdateId(update).value + 1) && v.issued == w.issued
    case Task(task) =>
      if task == "" then v == w
      else
        && v.handled == w.handled && v.finished == w.finished && v.turns == w.turns
        && Recorded(v, s, JObject(map["update_id" := JInt(s.nextUpdate)]), task)
  }

  /** The host is about to dispatch this new record, which is all that was added to what is saved. */
  predicate Recorded(v: World, s: State, update: Json, task: string) {
    var recorded := State(s.bot, s.user, s.workspace, s.session, s.nextUpdate,
                          Some(Pending(update, None, 0, false, task)));
    v.host == Running(recorded, Dispatching) && v.disk == Some(recorded) && v.issued == 0
  }

  /** What handling a record comes to when nothing fails. */
  predicate WorksOff(w: World, v: World, s: State, script: Script)
    requires s.pending.Some?
  {
    var session := if script.session.Some? then script.session.value else s.session;
    var task := s.pending.value.taskId;
    && v.handled == w.handled
    && if task == "" then
         && Idles(v, s, session, PendingId(s) + 1) && v.turns == w.turns + [PendingId(s)]
         && v.issued == w.issued + script.parts && v.finished == w.finished
       else if script.known && task in w.finished then
         && Idles(v, s, s.session, s.nextUpdate) && v.turns == w.turns
         && v.issued == w.issued && v.finished == w.finished
       else
         && Idles(v, s, session, s.nextUpdate) && v.turns == w.turns
         && v.issued == w.issued + script.parts && v.finished == w.finished + {task}
  }

  lemma {:induction false} RunConcat(w: World, a: seq<Event>, b: seq<Event>)
    ensures Run(w, a + b) == Run(Run(w, a), b)
    decreases |a|
  {
    if a == [] {
      assert a + b == b;
    } else {
      assert (a + b)[1..] == a[1..] + b;
      RunConcat(Step(w, a[0]), a[1..], b);
    }
  }

  lemma RunOne(w: World, e: Event)
    ensures Run(w, [e]) == Step(w, e)
  {
  }

  lemma RunThen(w: World, a: seq<Event>, e: Event)
    ensures Run(w, a + [e]) == Step(Run(w, a), e)
  {
    RunConcat(w, a, [e]);
    RunOne(Run(w, a), e);
  }

  class Process {
    var disk: Option<State>
    var handled: map<Archive, State>
    var running: bool
    var state: State
    var pc: Pc
    var turns: seq<int>
    var issued: nat
    var finished: set<string>

    ghost function View(): World
      reads this
    {
      World(disk, handled, if running then Running(state, pc) else Stopped, turns, issued, finished)
    }

    constructor (initial: State)
      ensures View() == Init()
    {
      disk, handled, running, state, pc, turns, issued := None, map[], false, initial, Starting, [], 0;
      finished := {};
    }

    /** Replaces the journal; any failure stops the host. */
    method Save(s: State, next: Pc, write: Write)
      requires running
      modifies this`disk, this`running, this`state, this`pc
      ensures View() == Persist(old(View()), s, next, write)
    {
      if !write.FailedOld? {
        disk := Some(s);
      }
      running := write.Saved?;
      state, pc := s, next;
    }

    /** One part: journal the intent, send, journal the confirmation. */
    method DeliverPart(parts: nat, script: PartScript) returns (ghost events: seq<Event>)
      requires running && pc == Delivering(parts)
      requires state.pending.Some? && state.pending.value.confirmed < parts
      modifies this
      ensures View() == Run(old(View()), events)
      ensures running ==> pc == Delivering(parts) && state.pending.Some?
      ensures running ==> state.pending.value.confirmed == old(state).pending.value.confirmed + 1
      ensures running ==> issued == old(issued) + 1 && disk == Some(state)
      ensures running ==> state == Sent(old(state), old(state).pending.value.confirmed + 1)
      ensures handled == old(handled) && turns == old(turns) && finished == old(finished)
      ensures GoesOut(script) ==> running
    {
      ghost var before := View();
      events := [MarkInflight(script.mark)];
      RunOne(before, events[0]);
      Save(state.(pending := Some(state.pending.value.(inflight := true))), Sending(parts), script.mark);
      if !running {
        return;
      }
      RunThen(before, events, IssueSend);
      events := events + [IssueSend];
      issued := issued + 1;
      pc := Awaiting(parts);
      RunThen(before, events, Receipt(script.accepted, script.confirm));
      events := events + [Receipt(script.accepted, script.confirm)];
      if !script.accepted {
        running := false;
        return;
      }
      var p := state.pending.value;
      Save(state.(pending := Some(p.(confirmed := p.confirmed + 1, inflight := false))), Delivering(parts),
           script.confirm);
    }

    /** All parts in order, then the record is resolved. */
    method DeliverAll(parts: nat, script: Script) returns (ghost events: seq<Event>)
      requires running && pc == Delivering(parts)
      requires state.pending.Some? && state.pending.value.confirmed == 0 && !state.pending.value.inflight
      modifies this
      ensures View() == Run(old(View()), events)
      ensures running ==> pc == Polling
      ensures running ==> disk == Some(state) && issued == old(issued) + parts
      ensures running ==>
        var p := old(state).pending.value;
        && state == old(state).(pending := None,
                                nextUpdate := if p.taskId == "" then PendingId(old(state)) + 1 else old(state).nextUpdate)
        && finished == old(finished) + (if p.taskId == "" then {} else {p.taskId})
      ensures handled == old(handled) && turns == old(turns)
      ensures parts == script.parts && Smooth(script) ==> running
    {
      ghost var before := View();
      events := [];
      while running && state.pending.value.confirmed < parts
        invariant View() == Run(before, events)
        invariant running ==> pc == Delivering(parts) && state.pending.Some?
        invariant running ==> state.pending.value.confirmed <= parts
        invariant running ==> state == Sent(old(state), state.pending.value.confirmed)
        invariant running ==> issued == old(issued) + state.pending.value.confirmed
        invariant handled == old(handled) && turns == old(turns) && finished == old(finished)
        invariant parts == script.parts && Smooth(script) ==> running
        decreases running, if running then parts - state.pending.value.confirmed else 0
      {
        ghost var more;
        more := DeliverPart(parts, script.part(state.pending.value.confirmed));
        RunConcat(before, events, more);
        events := events + more;
      }
      if running {
        RunThen(before, events, Complete(script.done));
        events := events + [Complete(script.done)];
        finished := finished + FinishedTask(state);
        Save(Resolved(state), Polling, script.done);
      }
    }

    /** Runs the turn of a saved record and saves its answer before anything is sent. */
    method Answer(script: Script) returns (ghost events: seq<Event>)
      requires running && pc == Dispatching && state.pending.Some? && state.pending.value.confirmed == 0
      modifies this
      ensures View() == Run(old(View()), events)
      ensures running ==> pc == Delivering(script.parts) && state.pending.Some? && state.pending.value.confirmed == 0
      ensures running ==>
        && script.outcome.Ok?
        && state == old(state).(
             session := if script.session.Some? then script.session.value else old(state).session,
             pending := Some(old(state).pending.value.(answer := Some(script.outcome.value))))
      ensures handled == old(handled) && issued == old(issued) && finished == old(finished)
      ensures turns == old(turns) + (if old(state).pending.value.taskId == "" then [PendingId(old(state))] else [])
      ensures script.outcome.Ok? && script.answer.Saved? ==> running
    {
      ghost var before := View();
      events := [RunTurn(script.outcome)];
      RunOne(before, events[0]);
      if state.pending.value.taskId == "" {
        turns := turns + [PendingId(state)];
      }
      if script.outcome.Err? {
        running := false;
        return;
      }
      pc := Answering(script.outcome.value);
      RunThen(before, events, SaveAnswer(script.session, script.parts, script.answer));
      events := events + [SaveAnswer(script.session, script.parts, script.answer)];
      var p := state.pending.value.(answer := Some(script.outcome.value));
      Save(state.(session := if script.session.Some? then script.session.value else state.session, pending := Some(p)),
           Delivering(script.parts), script.answer);
    }

    /** Polls: an admitted update or a background run becomes the saved record. */
    method Take(script: Script) returns (ghost events: seq<Event>)
      requires running && pc == Polling && state.pending.None?
      modifies this
      ensures View() == Run(old(View()), events)
      ensures running ==> disk == Some(state) || View() == old(View())
      ensures running ==> (pc == Polling && state.pending.None?) || (pc == Dispatching && HasRecord(state))
      ensures script.record.Saved? ==> Takes(old(View()), View(), old(state), script.polled)
    {
      ghost var before := View();
      events := [];
      match script.polled {
        case Nothing =>
        case Update(update, admitted) =>
          events := [PollUpdate(update, admitted, script.record)];
          RunOne(before, events[0]);
          var id := UpdateId(update);
          if id.None? || id.value < state.nextUpdate || id.value == MAX_INT64 {
            running := false;
          } else if !admitted {
            Save(state.(nextUpdate := id.value + 1), Polling, script.record);
          } else {
            issued := 0;
            Save(state.(pending := Some(Record(update, ""))), Dispatching, script.record);
          }
        case Task(task) =>
          if task != "" {
            events := [PollTask(task, script.record)];
            RunOne(before, events[0]);
            issued := 0;
            var update := JObject(map["update_id" := JInt(state.nextUpdate)]);
            Save(state.(pending := Some(Record(update, task))), Dispatching, script.record);
          }
      }
    }

    /** Handles the saved record: a background run that was delivered before is only resolved. */
    method WorkOff(script: Script) returns (ghost events: seq<Event>)
      requires running && pc == Dispatching && HasRecord(state)
      modifies this
      ensures View() == Run(old(View()), events)
      ensures running ==> pc == Polling && state.pending.None?
      ensures Smooth(script) ==> WorksOff(old(View()), View(), old(state), script)
    {
      ghost var before := View();
      if script.known && FinishedTask(state) <= finished && FinishedTask(state) != {} {
        events := [Repeat(script.done)];
        RunOne(before, events[0]);
        Save(Resolved(state), Polling, script.done);
        return;
      }
      events := Answer(script);
      if running {
        ghost var rest := DeliverAll(script.parts, script);
        RunConcat(before, events, rest);
        events := events + rest;
      }
    }

    /** One round of the poll loop. */
    method Poll(script: Script) returns (ghost events: seq<Event>)
      requires running && pc == Polling && state.pending.None?
      modifies this
      ensures View() == Run(old(View()), events)
      ensures running ==> pc == Polling && state.pending.None?
      ensures Smooth(script) ==> ServesRound(old(View()), View(), old(state), script)
    {
      ghost var before := View();
      events := Take(script);
      if running && pc == Dispatching {
        ghost var more := WorkOff(script);
        RunConcat(before, events, more);
        events := events + more;
      }
    }

    /** A session of the host over any finite number of polls: it does nothing that is not a step
        of the journal protocol, so every promise above holds of it. */
    method Serve(scripts: seq<Script>) returns (ghost events: seq<Event>)
      requires Inv(View()) && running && pc == Polling
      modifies this
      ensures View() == Run(old(View()), events) && Inv(View())
      ensures AllSmooth(scripts, old(state).nextUpdate) ==>
        && running && state.nextUpdate == CursorAfter(scripts, old(state).nextUpdate)
        && turns == old(turns) + AdmittedIds(scripts)
    {
      ghost var before := View();
      ghost var cursor := state.nextUpdate;
      events := [];
      for i := 0 to |scripts|
        invariant View() == Run(before, events)
        invariant running ==> pc == Polling
        invariant AllSmooth(scripts[..i], cursor) ==> Caught(old(turns), cursor, scripts[..i], View())
      {
        assert scripts[..i + 1][..i] == scripts[..i];
        if running {
          RunKeepsInv(before, events);
          ghost var more := Poll(scripts[i]);
          RunConcat(before, events, more);
          events := events + more;
        }
      }
      assert scripts[..|scripts|] == scripts;
      RunKeepsInv(before, events);
    }
  }
}

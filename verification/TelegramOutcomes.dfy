/** What the Telegram host does for what it polls when nothing fails (apps/telegram/host.cpp): what each
    step leaves on disk, and whole rounds from the poll to the cursor behind it. */
module TelegramOutcomes {
  import opened Core
  import opened Journal
  import opened TelegramHost

  /** The host runs on, in state `s` and at point `pc`, with exactly this state saved. */
  predicate GoesOn(w: World, s: State, pc: Pc) {
    w.host == Running(s, pc) && w.disk == Some(s)
  }

  /** Everything that is not the saved state or the host is as before. */
  predicate KeepsRest(w: World, v: World) {
    v.handled == w.handled && v.turns == w.turns && v.issued == w.issued && v.finished == w.finished
  }

  /** The host has stopped; the disk may be `s` or as before. */
  predicate StopsAround(w: World, v: World, s: State) {
    v.host == Stopped && (v.disk == w.disk || v.disk == Some(s))
  }

  // ---------------------------------------------------------------- starting

  /** A host starts from exactly what was saved, provided it can be read, belongs to this user and
      workspace and holds no record; without a journal it starts at cursor zero. */
  lemma BootReadsBack(w: World, user: string, workspace: string, freshId: Result<TurnId>)
    requires w.host.Stopped?
    ensures var v := Step(w, Boot(user, workspace, freshId));
      && v.disk == w.disk && v.handled == w.handled && v.turns == w.turns && v.issued == w.issued
      && (w.disk.None? && freshId.Ok? ==> v.host == Running(State("", user, workspace, freshId.value, 0, None), Starting))
      && (w.disk.None? && freshId.Err? ==> v == w)
      && (w.disk.Some? ==>
            var s := w.disk.value;
            if Storable(s) && s.user == user && s.workspace == workspace && s.pending.None? then
              v.host == Running(s, Starting) && v.finished == {}
            else
              v == w)
  {
    if w.disk.Some? {
      RoundTrip(w.disk.value);
    }
  }

  /** The first start binds the bot, later ones only go on with the same bot. */
  lemma IdentityIsBound(w: World, s: State, bot: string)
    requires w.host == Running(s, Starting)
    ensures var v := Step(w, Identify(bot, Saved));
      if s.bot == "" || s.bot == bot then
        && GoesOn(v, State(bot, s.user, s.workspace, s.session, s.nextUpdate, s.pending), Polling) && KeepsRest(w, v)
      else
        v == World(w.disk, w.handled, Stopped, w.turns, w.issued, w.finished)
  {
  }

  // ---------------------------------------------------------------- polling

  /** An admitted update at or after the cursor becomes the saved record before anything is done for
      it; the cursor has not moved. */
  lemma AdmittedIsRecorded(w: World, s: State, update: Json, id: int, write: Write)
    requires w.host == Running(s, Polling)
    requires UpdateId(update) == Some(id) && s.nextUpdate <= id < MAX_INT64
    ensures var v := Step(w, PollUpdate(update, true, write));
      var saved := State(s.bot, s.user, s.workspace, s.session, s.nextUpdate, Some(Pending(update, None, 0, false, "")));
      && v.turns == w.turns && v.handled == w.handled && v.finished == w.finished && v.issued == 0
      && (write.Saved? ==> GoesOn(v, saved, Dispatching))
      && (!write.Saved? ==> StopsAround(w, v, saved))
  {
  }

  /** An update that is not admitted is only counted: no record, no turn, no send. */
  lemma UnadmittedIsSkipped(w: World, s: State, update: Json, id: int, write: Write)
    requires w.host == Running(s, Polling)
    requires UpdateId(update) == Some(id) && s.nextUpdate <= id < MAX_INT64
    ensures var v := Step(w, PollUpdate(update, false, write));
      var skipped := State(s.bot, s.user, s.workspace, s.session, id + 1, s.pending);
      && KeepsRest(w, v)
      && (write.Saved? ==> GoesOn(v, skipped, Polling))
      && (!write.Saved? ==> StopsAround(w, v, skipped))
  {
  }

  /** An update without an id, behind the cursor or with the largest number stops the host. */
  lemma DisorderStops(w: World, s: State, update: Json, admitted: bool, write: Write)
    requires w.host == Running(s, Polling)
    requires UpdateId(update).None? || UpdateId(update).value < s.nextUpdate || UpdateId(update).value == MAX_INT64
    ensures Step(w, PollUpdate(update, admitted, write)) ==
      World(w.disk, w.handled, Stopped, w.turns, w.issued, w.finished)
  {
  }

  /** A background run gets a record of its own that leaves the cursor where it is. */
  lemma TaskIsRecorded(w: World, s: State, task: string)
    requires w.host == Running(s, Polling) && task != ""
    ensures var v := Step(w, PollTask(task, Saved));
      var update := JObject(map["update_id" := JInt(s.nextUpdate)]);
      && v.turns == w.turns && v.handled == w.handled && v.finished == w.finished && v.issued == 0
      && GoesOn(v, State(s.bot, s.user, s.workspace, s.session, s.nextUpdate, Some(Pending(update, None, 0, false, task))),
                Dispatching)
  {
  }

  // ---------------------------------------------------------------- the answer

  /** The record is saved and nothing has been done for it yet. */
  predicate AtRecord(w: World, s: State) {
    GoesOn(w, s, Dispatching) && s.pending.Some?
  }

  /** A turn of an update is counted when it runs; its error stops the host with the record saved. */
  lemma TurnRuns(w: World, s: State, outcome: Result<string>)
    requires AtRecord(w, s)
    ensures var v := Step(w, RunTurn(outcome));
      && v.disk == w.disk && v.handled == w.handled && v.issued == w.issued && v.finished == w.finished
      && v.turns == w.turns + (if s.pending.value.taskId == "" then [PendingId(s)] else [])
      && v.host == (if outcome.Ok? then Running(s, Answering(outcome.value)) else Stopped)
  {
  }

  /** The state with its answer saved, in the session the turn chose. */
  function WithAnswer(s: State, answer: string, session: Option<TurnId>): State
    requires s.pending.Some?
  {
    var p := s.pending.value;
    State(s.bot, s.user, s.workspace, if session.Some? then session.value else s.session, s.nextUpdate,
          Some(Pending(p.update, Some(answer), p.confirmed, p.inflight, p.taskId)))
  }

  lemma AnswerIsSaved(w: World, s: State, answer: string, session: Option<TurnId>, parts: nat)
    requires w.host == Running(s, Answering(answer)) && s.pending.Some?
    ensures var v := Step(w, SaveAnswer(session, parts, Saved));
      GoesOn(v, WithAnswer(s, answer, session), Delivering(parts)) && KeepsRest(w, v)
  {
  }

  // ---------------------------------------------------------------- sending

  /** The state in which `n` parts are confirmed and perhaps one is in flight. */
  function At(s: State, n: nat, inflight: bool): State
    requires s.pending.Some?
  {
    var p := s.pending.value;
    State(s.bot, s.user, s.workspace, s.session, s.nextUpdate, Some(Pending(p.update, p.answer, n, inflight, p.taskId)))
  }

  /** One part: marked on disk, sent, and confirmed on disk, in that order. */
  lemma PartGoesOut(w: World, s: State, n: nat, parts: nat)
    requires s.pending.Some? && GoesOn(w, At(s, n, false), Delivering(parts)) && n < parts
    ensures var marked := Step(w, MarkInflight(Saved));
      GoesOn(marked, At(s, n, true), Sending(parts)) && KeepsRest(w, marked)
    ensures var sent := Step(Step(w, MarkInflight(Saved)), IssueSend);
      GoesOn(sent, At(s, n, true), Awaiting(parts)) && sent.issued == w.issued + 1 && sent.turns == w.turns
      && sent.handled == w.handled && sent.finished == w.finished
    ensures var v := Step(Step(Step(w, MarkInflight(Saved)), IssueSend), Receipt(true, Saved));
      GoesOn(v, At(s, n + 1, false), Delivering(parts)) && v.issued == w.issued + 1 && v.turns == w.turns
      && v.handled == w.handled && v.finished == w.finished
  {
  }

  /** A send without a receipt stops the host with the part in flight on disk. */
  lemma RefusedSendStops(w: World, s: State, n: nat, parts: nat, write: Write)
    requires s.pending.Some? && GoesOn(w, At(s, n, true), Awaiting(parts))
    ensures var v := Step(w, Receipt(false, write));
      v.host == Stopped && v.disk == Some(At(s, n, true)) && KeepsRest(w, v)
  {
  }

  /** Once all parts are confirmed the record goes; an update moves the cursor just past itself, a
      background run leaves it and counts as finished. */
  lemma DeliveryResolves(w: World, s: State, parts: nat)
    requires s.pending.Some? && GoesOn(w, At(s, parts, false), Delivering(parts))
    ensures var v := Step(w, Complete(Saved));
      var task := s.pending.value.taskId;
      var next := if task == "" then PendingId(s) + 1 else s.nextUpdate;
      && GoesOn(v, State(s.bot, s.user, s.workspace, s.session, next, None), Polling)
      && v.turns == w.turns && v.issued == w.issued && v.handled == w.handled
      && v.finished == w.finished + (if task == "" then {} else {task})
  {
  }

  /** A background run that was delivered before is resolved without a turn or a send. */
  lemma RepeatResolves(w: World, s: State)
    requires AtRecord(w, s) && s.pending.value.taskId != "" && s.pending.value.taskId in w.finished
    ensures var v := Step(w, Repeat(Saved));
      GoesOn(v, State(s.bot, s.user, s.workspace, s.session, s.nextUpdate, None), Polling) && KeepsRest(w, v)
  {
  }

  // ---------------------------------------------------------------- whole rounds

  /** Marking, sending and confirming `n` parts. */
  function Sends(n: nat): seq<Event> {
    if n == 0 then [] else Sends(n - 1) + [MarkInflight(Saved)] + [IssueSend] + [Receipt(true, Saved)]
  }

  lemma {:induction false} PartsGoOut(w: World, s: State, n: nat, parts: nat)
    requires s.pending.Some? && GoesOn(w, At(s, 0, false), Delivering(parts)) && n <= parts
    ensures var v := Run(w, Sends(n));
      && GoesOn(v, At(s, n, false), Delivering(parts)) && v.issued == w.issued + n && v.turns == w.turns
      && v.handled == w.handled && v.finished == w.finished
  {
    if n > 0 {
      PartsGoOut(w, s, n - 1, parts);
      RunThen(w, Sends(n - 1), MarkInflight(Saved));
      RunThen(w, Sends(n - 1) + [MarkInflight(Saved)], IssueSend);
      RunThen(w, Sends(n - 1) + [MarkInflight(Saved)] + [IssueSend], Receipt(true, Saved));
      PartGoesOut(Run(w, Sends(n - 1)), s, n - 1, parts);
    }
  }

  /** The turn of a saved record, and its answer saved. */
  function Answers(answer: string, session: Option<TurnId>, parts: nat): seq<Event> {
    [RunTurn(Ok(answer)), SaveAnswer(session, parts, Saved)]
  }

  lemma AnswerComesFirst(w: World, s: State, answer: string, session: Option<TurnId>, parts: nat)
    requires AtRecord(w, s)
    ensures var v := Run(w, Answers(answer, session, parts));
      && GoesOn(v, WithAnswer(s, answer, session), Delivering(parts))
      && v.issued == w.issued && v.handled == w.handled && v.finished == w.finished
      && v.turns == w.turns + (if s.pending.value.taskId == "" then [PendingId(s)] else [])
  {
    var events := Answers(answer, session, parts);
    assert events == [events[0]] + [events[1]];
    RunOne(w, events[0]);
    RunThen(w, [events[0]], events[1]);
    TurnRuns(w, s, Ok(answer));
    AnswerIsSaved(Step(w, events[0]), s, answer, session, parts);
  }

  /** A saved record is answered, sent part by part and resolved. */
  function Serves(answer: string, session: Option<TurnId>, parts: nat): seq<Event> {
    Answers(answer, session, parts) + Sends(parts) + [Complete(Saved)]
  }

  lemma RecordIsServed(w: World, s: State, answer: string, session: Option<TurnId>, parts: nat)
    requires AtRecord(w, s) && s.pending.value.confirmed == 0 && !s.pending.value.inflight
    ensures var v := Run(w, Serves(answer, session, parts));
      var task := s.pending.value.taskId;
      var next := if task == "" then PendingId(s) + 1 else s.nextUpdate;
      var current := if session.Some? then session.value else s.session;
      && GoesOn(v, State(s.bot, s.user, s.workspace, current, next, None), Polling)
      && v.turns == w.turns + (if task == "" then [PendingId(s)] else [])
      && v.issued == w.issued + parts && v.handled == w.handled
      && v.finished == w.finished + (if task == "" then {} else {task})
  {
    var answers, sends := Answers(answer, session, parts), Sends(parts);
    var answered := WithAnswer(s, answer, session);
    AnswerComesFirst(w, s, answer, session, parts);
    RunConcat(w, answers, sends);
    assert At(answered, 0, false) == answered;
    PartsGoOut(Run(w, answers), answered, parts, parts);
    RunThen(w, answers + sends, Complete(Saved));
    DeliveryResolves(Run(w, answers + sends), answered, parts);
  }

  /** A round without failures: an admitted update gets exactly one turn and one send for each part of
      its answer, and the cursor ends just past it with nothing pending. */
  lemma UpdateIsServed(w: World, s: State, update: Json, id: int, answer: string, session: Option<TurnId>, parts: nat)
    requires w.host == Running(s, Polling)
    requires UpdateId(update) == Some(id) && s.nextUpdate <= id < MAX_INT64
    ensures var v := Run(w, [PollUpdate(update, true, Saved)] + Serves(answer, session, parts));
      && GoesOn(v, State(s.bot, s.user, s.workspace, if session.Some? then session.value else s.session, id + 1, None),
                Polling)
      && v.turns == w.turns + [id] && v.issued == parts && v.finished == w.finished
  {
    AdmittedIsRecorded(w, s, update, id, Saved);
    var recorded := Step(w, PollUpdate(update, true, Saved));
    RunOne(w, PollUpdate(update, true, Saved));
    RunConcat(w, [PollUpdate(update, true, Saved)], Serves(answer, session, parts));
    RecordIsServed(recorded, recorded.host.state, answer, session, parts);
  }

  /** Before the first part of an update's answer is sent, the answer is on disk. */
  lemma AnswerIsOnDiskBeforeSending(w: World, s: State, update: Json, id: int, answer: string,
                                    session: Option<TurnId>, parts: nat)
    requires w.host == Running(s, Polling)
    requires UpdateId(update) == Some(id) && s.nextUpdate <= id < MAX_INT64
    ensures var v := Run(w, [PollUpdate(update, true, Saved)] + Answers(answer, session, parts));
      && v.issued == 0 && v.disk.Some? && v.disk.value.nextUpdate == s.nextUpdate
      && v.disk.value.pending == Some(Pending(update, Some(answer), 0, false, ""))
  {
    AdmittedIsRecorded(w, s, update, id, Saved);
    var recorded := Step(w, PollUpdate(update, true, Saved));
    RunOne(w, PollUpdate(update, true, Saved));
    RunConcat(w, [PollUpdate(update, true, Saved)], Answers(answer, session, parts));
    AnswerComesFirst(recorded, recorded.host.state, answer, session, parts);
  }

  /** A background run gets no turn of its own, is sent in full, and leaves the cursor alone. */
  lemma TaskIsServed(w: World, s: State, task: string, answer: string, session: Option<TurnId>, parts: nat)
    requires w.host == Running(s, Polling) && task != ""
    ensures var v := Run(w, [PollTask(task, Saved)] + Serves(answer, session, parts));
      && GoesOn(v, State(s.bot, s.user, s.workspace, if session.Some? then session.value else s.session, s.nextUpdate,
                         None), Polling)
      && v.turns == w.turns && v.issued == parts && v.finished == w.finished + {task}
  {
    TaskIsRecorded(w, s, task);
    var recorded := Step(w, PollTask(task, Saved));
    RunOne(w, PollTask(task, Saved));
    RunConcat(w, [PollTask(task, Saved)], Serves(answer, session, parts));
    RecordIsServed(recorded, recorded.host.state, answer, session, parts);
  }

  // ---------------------------------------------------------------- the operator

  /** The acknowledgement names the record that a stopped host has left and that can be read. */
  predicate Acknowledges(w: World, update: int) {
    && w.host.Stopped? && w.disk.Some? && Storable(w.disk.value)
    && w.disk.value.pending.Some? && PendingId(w.disk.value) == update
  }

  /** The record of `s` is archived as it was and resolved like a delivery; nothing else changes. */
  predicate Archived(w: World, v: World, s: State, update: int)
    requires s.pending.Some?
  {
    var task := s.pending.value.taskId;
    && v.handled == w.handled[(if task == "" then ForUpdate(update) else ForTask(task)) := s]
    && v.disk == Some(State(s.bot, s.user, s.workspace, s.session, if task == "" then update + 1 else s.nextUpdate, None))
    && v.host == w.host && v.turns == w.turns && v.issued == w.issued && v.finished == w.finished
  }

  lemma LoadedIsArchived(w: World, s: State, update: int)
    requires s.pending.Some? && PendingId(s) == update
    ensures Archived(w, AcknowledgeLoaded(w, Ok(s), update, Saved, Saved), s, update)
  {
  }

  lemma AcknowledgementArchives(w: World, update: int)
    requires Acknowledges(w, update)
    ensures Archived(w, Step(w, Acknowledge(update, Saved, Saved)), w.disk.value, update)
  {
    RoundTrip(w.disk.value);
    LoadedIsArchived(w, w.disk.value, update);
    assert Step(w, Acknowledge(update, Saved, Saved)) == AcknowledgeLoaded(w, Ok(w.disk.value), update, Saved, Saved);
  }

  lemma OtherAcknowledgementsChangeNothing(w: World, update: int, archive: Write, write: Write)
    requires !Acknowledges(w, update)
    ensures Step(w, Acknowledge(update, archive, write)) == w
  {
    if w.disk.Some? {
      RoundTrip(w.disk.value);
    }
  }
}

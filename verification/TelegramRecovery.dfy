/** What a journal can still do for the Telegram host after crashes: which saved states can be read
    back, and what becomes of a pending record over whole runs (apps/telegram/host.cpp,
    apps/telegram/state.cpp). */
module TelegramRecovery {
  import opened Core
  import opened Journal
  import opened TelegramHost

  // ---------------------------------------------------------------- a pending record over runs

  /** The saved record is for the same update or task as `p`. */
  predicate Holds(w: World, p: Pending) {
    w.disk.Some? && w.disk.value.pending.Some? && SameRecord(w.disk.value.pending.value, p)
  }

  /** The step releases the record rightly: all its parts were confirmed, or it is for a background run
      that was delivered before, or it is archived. */
  predicate Releases(w: World, e: Event, p: Pending) {
    && Holds(w, p)
    && (Delivered(w) || Repeats(w) ||
      (ArchiveName(w.disk.value) in Step(w, e).handled && Step(w, e).handled[ArchiveName(w.disk.value)] == w.disk.value))
  }

  /** From a saved record on, over every run: it is still saved at the end, or it was saved up to an
      event that released it rightly. */
  lemma {:induction false} PendingIsKeptOverRuns(w: World, events: seq<Event>, p: Pending)
    requires Inv(w) && Holds(w, p)
    ensures Holds(Run(w, events), p) || exists n: nat :: n < |events| && Releases(Run(w, events[..n]), events[n], p)
    decreases |events|
  {
    if events != [] {
      var v, rest := Step(w, events[0]), events[1..];
      PendingIsNeverDropped(w, events[0]);
      StepKeepsInv(w, events[0]);
      if Holds(v, p) {
        PendingIsKeptOverRuns(v, rest, p);
        if !Holds(Run(v, rest), p) {
          var n: nat :| n < |rest| && Releases(Run(v, rest[..n]), rest[n], p);
          assert events[..n + 1] == [events[0]] + rest[..n] && events[..n + 1][1..] == rest[..n];
          assert Run(w, events[..n + 1]) == Run(v, rest[..n]) && events[n + 1] == rest[n];
        }
      } else {
        assert events[..0] == [] && Releases(Run(w, events[..0]), events[0], p);
      }
    }
  }

  // ---------------------------------------------------------------- which saved states can be read

  /** A background record that carries the largest cursor as its id. */
  predicate AtEdge(s: State) {
    s.pending.Some? && s.pending.value.taskId != "" && s.nextUpdate == MAX_INT64
  }

  /** What the sources of ids and answers promise: identities are not zero, background runs are named
      by turn ids, part counts fit 64 bits. */
  predicate WellFormed(e: Event) {
    match e
    case Boot(_, _, freshId) => freshId.Ok? ==> !IsZero(freshId.value)
    case PollTask(task, _) => task != "" ==> IsTaskId(task)
    case SaveAnswer(session, parts, _) => (session.Some? ==> !IsZero(session.value)) && parts <= MAX_INT64
    case _ => true
  }

  /** A state as the host writes it. */
  predicate Written(s: State) {
    && !IsZero(s.session) && 0 <= s.nextUpdate <= MAX_INT64
    && (s.pending.Some? ==>
      var p, id := s.pending.value, UpdateId(s.pending.value.update);
      && p.confirmed <= MAX_INT64 && id.Some?
      && (if p.taskId == "" then s.nextUpdate <= id.value < MAX_INT64 else IsTaskId(p.taskId) && id.value == s.nextUpdate))
  }

  /** A state the host has written can be read back unless it is at the edge. */
  lemma WrittenIsStorableIff(s: State)
    requires Written(s)
    ensures Storable(s) <==> !AtEdge(s)
  {
  }

  /** The part the host is at, within a count that fits. */
  predicate Counting(s: State, pc: Pc) {
    match pc
    case Delivering(parts) => parts <= MAX_INT64 && (s.pending.Some? ==> s.pending.value.confirmed <= parts)
    case Sending(parts) => parts <= MAX_INT64 && (s.pending.Some? ==> s.pending.value.confirmed < parts)
    case Awaiting(parts) => parts <= MAX_INT64 && (s.pending.Some? ==> s.pending.value.confirmed < parts)
    case _ => true
  }

  predicate Sound(w: World) {
    && Inv(w)
    && (w.disk.Some? ==> Written(w.disk.value))
    && (w.host.Running? ==> Written(w.host.state) && Counting(w.host.state, w.host.pc))
  }

  lemma HostKeepsSound(w: World, e: Event, s: State, pc: Pc)
    requires Sound(w) && WellFormed(e) && w.host == Running(s, pc)
    ensures var v := HostStep(w, e, s, pc);
      && (v.disk.Some? ==> Written(v.disk.value))
      && (v.host.Running? ==> Written(v.host.state) && Counting(v.host.state, v.host.pc))
  {
    if e.PollTask? && pc.Polling? {
      var update := JObject(map["update_id" := JInt(s.nextUpdate)]);
      assert Field(update, "update_id") == Some(JInt(s.nextUpdate));
    }
  }

  lemma BootKeepsSound(w: World, user: string, workspace: string, freshId: Result<TurnId>)
    requires Sound(w) && (freshId.Ok? ==> !IsZero(freshId.value))
    ensures var v := BootStep(w, user, workspace, freshId);
      v.disk == w.disk && (v.host.Running? ==> Written(v.host.state) && Counting(v.host.state, v.host.pc))
  {
    if w.disk.Some? {
      RoundTrip(w.disk.value);
    }
  }

  lemma OperatorKeepsSound(w: World, update: int, archive: Write, write: Write)
    requires Sound(w)
    ensures var v := AcknowledgeStep(w, update, archive, write);
      v.host == w.host && (v.disk.Some? ==> Written(v.disk.value))
  {
    if w.disk.Some? {
      RoundTrip(w.disk.value);
    }
  }

  lemma StepKeepsSound(w: World, e: Event)
    requires Sound(w) && WellFormed(e)
    ensures Sound(Step(w, e))
  {
    StepKeepsInv(w, e);
    match e
    case Boot(user, workspace, freshId) => BootKeepsSound(w, user, workspace, freshId);
    case Acknowledge(update, archive, write) => OperatorKeepsSound(w, update, archive, write);
    case Crash =>
    case _ =>
      if w.host.Running? {
        HostKeepsSound(w, e, w.host.state, w.host.pc);
      }
  }

  predicate AllWellFormed(events: seq<Event>) {
    forall k :: 0 <= k < |events| ==> WellFormed(events[k])
  }

  lemma {:induction false} RunKeepsSound(w: World, events: seq<Event>)
    requires Sound(w) && AllWellFormed(events)
    ensures Sound(Run(w, events))
    decreases |events|
  {
    if events != [] {
      StepKeepsSound(w, events[0]);
      RunKeepsSound(Step(w, events[0]), events[1..]);
    }
  }

  /** Over every run from the start: what is on disk can be read back exactly unless it is a
      background record at the largest cursor, and then it cannot be read at all. */
  lemma ReachableIsReadableIff(events: seq<Event>)
    requires AllWellFormed(events)
    ensures var d := Run(Init(), events).disk;
      d.Some? ==> Decode(Encode(d.value)) == if AtEdge(d.value) then Err(Parsing) else Ok(d.value)
  {
    RunKeepsSound(Init(), events);
    var d := Run(Init(), events).disk;
    if d.Some? {
      WrittenIsStorableIff(d.value);
      RoundTrip(d.value);
    }
  }

  /** So an update that a crash left pending can always be acknowledged, and that skips just it. */
  lemma PendingUpdateCanBeAcknowledged(events: seq<Event>)
    requires AllWellFormed(events)
    requires var w := Run(Init(), events); w.host.Stopped? && w.disk.Some? && IsUpdateRecord(w.disk.value)
    ensures var w := Run(Init(), events);
      AcknowledgeStep(w, PendingId(w.disk.value), Saved, Saved).disk ==
        Some(w.disk.value.(pending := None, nextUpdate := PendingId(w.disk.value) + 1))
  {
    RunKeepsSound(Init(), events);
    var w := Run(Init(), events);
    WrittenIsStorableIff(w.disk.value);
    AcknowledgementSkipsOne(w, PendingId(w.disk.value));
  }

  // ---------------------------------------------------------------- the edge

  /** A stopped host with a background record at the largest cursor stays as it is, whatever happens:
      it does not start again, and no operator can acknowledge the record. */
  lemma {:induction false} EdgeIsFinal(w: World, events: seq<Event>)
    requires w.host.Stopped? && w.disk.Some? && Written(w.disk.value) && AtEdge(w.disk.value)
    ensures Run(w, events) == w
    decreases |events|
  {
    if events != [] {
      EdgeStays(w, events[0]);
      EdgeIsFinal(w, events[1..]);
    }
  }

  lemma EdgeStays(w: World, e: Event)
    requires w.host.Stopped? && w.disk.Some? && Written(w.disk.value) && AtEdge(w.disk.value)
    ensures Step(w, e) == w
  {
    WrittenIsStorableIff(w.disk.value);
    RoundTrip(w.disk.value);
  }

  function UpdateWith(id: int): Json {
    JObject(map["update_id" := JInt(id)])
  }

  /** A run to the edge: the last update below the largest id is not admitted, which moves the cursor
      there; a background run is recorded; the host crashes. */
  function EdgeRun(session: TurnId, task: string): seq<Event> {
    [Boot("user", "workspace", Ok(session)), Identify("bot", Saved),
     PollUpdate(UpdateWith(MAX_INT64 - 1), false, Saved), PollTask(task, Saved), Crash]
  }

  /** The edge can be reached: there the saved document is refused, for ever. */
  lemma EdgeIsReachable(session: TurnId, task: string, events: seq<Event>)
    requires !IsZero(session) && IsTaskId(task)
    ensures var w := Run(Init(), EdgeRun(session, task));
      && AllWellFormed(EdgeRun(session, task)) && w.host.Stopped?
      && w.disk == Some(State("bot", "user", "workspace", session, MAX_INT64, Some(Record(UpdateWith(MAX_INT64), task))))
      && Decode(Encode(w.disk.value)) == Err(Parsing)
      && Run(w, events) == w
  {
    var blank := State("", "user", "workspace", session, 0, None);
    var named := blank.(bot := "bot");
    var edge := named.(nextUpdate := MAX_INT64);
    var stuck := edge.(pending := Some(Record(UpdateWith(MAX_INT64), task)));
    var es := EdgeRun(session, task);
    assert Field(UpdateWith(MAX_INT64 - 1), "update_id") == Some(JInt(MAX_INT64 - 1));
    assert Field(UpdateWith(MAX_INT64), "update_id") == Some(JInt(MAX_INT64));
    var w1 := World(None, map[], Running(blank, Starting), [], 0, {});
    var w2 := World(Some(named), map[], Running(named, Polling), [], 0, {});
    var w3 := World(Some(edge), map[], Running(edge, Polling), [], 0, {});
    var w4 := World(Some(stuck), map[], Running(stuck, Dispatching), [], 0, {});
    assert Step(Init(), es[0]) == w1 && Step(w1, es[1]) == w2 && Step(w2, es[2]) == w3 && Step(w3, es[3]) == w4;
    FiveSteps(Init(), es);
    assert AllWellFormed(es);
    var w := World(Some(stuck), map[], Stopped, [], 0, {});
    assert Step(w4, es[4]) == w && task != "" && Written(stuck);
    WrittenIsStorableIff(stuck);
    RoundTrip(stuck);
    EdgeIsFinal(w, events);
  }

  lemma FiveSteps(w: World, es: seq<Event>)
    requires |es| == 5
    ensures Run(w, es) == Step(Step(Step(Step(Step(w, es[0]), es[1]), es[2]), es[3]), es[4])
  {
    assert Run(w, es) == Run(Step(w, es[0]), es[1..]);
    var w1 := Step(w, es[0]);
    assert Run(w1, es[1..]) == Run(Step(w1, es[1]), es[2..]) by { assert es[1..][1..] == es[2..]; }
    var w2 := Step(w1, es[1]);
    assert Run(w2, es[2..]) == Run(Step(w2, es[2]), es[3..]) by { assert es[2..][1..] == es[3..]; }
    var w3 := Step(w2, es[2]);
    assert Run(w3, es[3..]) == Run(Step(w3, es[3]), es[4..]) by { assert es[3..][1..] == es[4..]; }
    var w4 := Step(w3, es[3]);
    assert Run(w4, es[4..]) == Step(w4, es[4]) by { assert es[4..] == [es[4]]; RunOne(w4, es[4]); }
  }
}

/** The channel dispatcher (src/oran-channel/dispatcher.cpp): a bounded cache of deliveries that
    drops duplicates, runs each admitted turn once and sends its reply part by part. Calls for
    different conversations interleave at every suspension; a call holds its conversation. */
module Dispatcher {
  import opened Core
  import opened ConversationKey

  type Key = string

  /** A decoded message: the key of its conversation, the key of its event, and whether the
      adapter found its identity and size acceptable. */
  datatype Message = Message(conversation: Key, event: Key, valid: bool)

  /** One delivery. `confirmed` lists the parts whose receipt arrived, in order. */
  datatype Entry = Entry(
    message: Message,
    parts: seq<string>,
    nextPart: nat,
    partsSent: nat,
    generated: bool,
    complete: bool,
    error: Option<ErrorKind>,
    confirmed: seq<nat>)

  /** Where a call that holds its conversation is suspended. */
  datatype Flight =
    | Authorizing(message: Message)
    | RunningTurn(key: Key)
    | SendingPart(key: Key, resumed: bool)
    | Resuming(key: Key, next: nat)

  datatype State = State(capacity: nat, entries: map<Key, Entry>, completed: seq<Key>, busy: map<Key, Flight>)

  datatype Reply = Suspended | Refused(kind: ErrorKind) | Delivered(partsSent: nat, duplicate: bool) | Noted

  function NewEntry(m: Message): Entry {
    Entry(m, [], 0, 0, false, false, None, [])
  }

  // ---------------------------------------------------------------- steps

  function Free(s: State, c: Key): State {
    s.(busy := s.busy - {c})
  }

  function Update(s: State, k: Key, e: Entry): State {
    s.(entries := s.entries[k := e])
  }

  /** Ends a call with an error that stays with its entry. */
  function Fail(s: State, c: Key, k: Key, kind: ErrorKind): State
    requires k in s.entries
  {
    Free(Update(s, k, s.entries[k].(error := Some(kind))), c)
  }

  function BeginHandle(s: State, m: Message): (State, Reply) {
    var c := m.conversation;
    if !m.valid then (s, Refused(InvalidArgument))
    else if c in s.busy then (s, Refused(Conflict))
    else if |s.busy| >= s.capacity then (s, Refused(MailboxOverflowed))
    else (s.(busy := s.busy[c := Authorizing(m)]), Suspended)
  }

  /** After the permission hook: a known event is answered from the cache, a new one is admitted,
      evicting the oldest completed entry when the cache is full, and its turn starts. */
  function Admit(s: State, c: Key, allowed: bool): (State, Reply) {
    if c !in s.busy || !s.busy[c].Authorizing? then (s, Noted)
    else
      var m := s.busy[c].message;
      var k := m.event;
      if !allowed then (Free(s, c), Refused(PermissionDenied))
      else if k in s.entries then
        var e := s.entries[k];
        (Free(s, c), if e.error.Some? then Refused(e.error.value) else Delivered(e.partsSent, true))
      else if |s.entries| >= s.capacity && s.completed == [] then (Free(s, c), Refused(MailboxOverflowed))
      else
        var t := if |s.entries| >= s.capacity then Evict(s) else s;
        (Update(t, k, NewEntry(m)).(busy := t.busy[c := RunningTurn(k)]), Suspended)
  }

  function Evict(s: State): State
    requires s.completed != []
  {
    s.(entries := s.entries - {s.completed[0]}, completed := s.completed[1..])
  }

  /** Starts or continues sending; `renders` says whether the host can render what is left. */
  function Deliver(s: State, c: Key, k: Key, renders: Result<()>, resumed: bool): (State, Reply)
    requires k in s.entries
  {
    var e := s.entries[k];
    if e.nextPart < |e.parts| && renders.Err? then (Fail(s, c, k, renders.kind), Refused(renders.kind))
    else if e.nextPart < |e.parts| then (s.(busy := s.busy[c := SendingPart(k, resumed)]), Suspended)
    else
      (Free(Update(s, k, e.(complete := true, error := None)).(completed := s.completed + [k]), c),
       Delivered(e.partsSent, false))
  }

  /** How a turn ends: with an error, with an answer that cannot be sent, or with parts to send. */
  datatype TurnOutcome = TurnFailed(kind: ErrorKind) | Unsendable(kind: ErrorKind) | Parts(parts: seq<string>)

  /** The turn ends, possibly while the call is being cancelled. */
  function TurnDone(s: State, c: Key, answer: TurnOutcome, cancelled: bool, renders: Result<()>): (State, Reply) {
    if c !in s.busy || !s.busy[c].RunningTurn? || s.busy[c].key !in s.entries then (s, Noted)
    else
      var k := s.busy[c].key;
      if !answer.Parts? then
        var kind := if answer.TurnFailed? && cancelled then Cancelled else answer.kind;
        (Fail(s, c, k, kind), Refused(kind))
      else
        var t := Update(s, k, s.entries[k].(parts := answer.parts, generated := true));
        if cancelled then (Fail(t, c, k, Cancelled), Refused(Cancelled)) else Deliver(t, c, k, renders, false)
  }

  /** The receipt of the next part arrived. */
  function Confirmed(e: Entry): Entry {
    e.(partsSent := e.partsSent + 1, nextPart := e.nextPart + 1, confirmed := e.confirmed + [e.nextPart])
  }

  /** A send ends: with a receipt, with an error, or with an exception. */
  datatype SendOutcome = Receipt | SendFailed(kind: ErrorKind) | SendRaised

  function SendDone(s: State, c: Key, outcome: SendOutcome, renders: Result<()>): (State, Reply) {
    if c !in s.busy || !s.busy[c].SendingPart? || s.busy[c].key !in s.entries then (s, Noted)
    else
      var k, resumed := s.busy[c].key, s.busy[c].resumed;
      var e := s.entries[k];
      match outcome
      case SendFailed(kind) => (Fail(s, c, k, kind), Refused(kind))
      case SendRaised =>
        (if resumed then Free(s, c) else Fail(s, c, k, Internal), Refused(Internal))
      case Receipt =>
        Deliver(Update(s, k, Confirmed(e)), c, k, renders, resumed)
  }

  /** Host recovery: go on from a part at or after the first unconfirmed one. */
  function BeginResume(s: State, m: Message, next: nat): (State, Reply) {
    var c, k := m.conversation, m.event;
    if c in s.busy then (s, Refused(Conflict))
    else if k !in s.entries || !s.entries[k].generated || s.entries[k].complete then (s, Refused(NotFound))
    else if next < s.entries[k].nextPart || next > |s.entries[k].parts| then (s, Refused(InvalidArgument))
    else (s.(busy := s.busy[c := Resuming(k, next)]), Suspended)
  }

  function ResumeAdmit(s: State, c: Key, allowed: bool, renders: Result<()>): (State, Reply) {
    if c !in s.busy || !s.busy[c].Resuming? || s.busy[c].key !in s.entries then (s, Noted)
    else if !allowed then (Free(s, c), Refused(PermissionDenied))
    else
      var k, next := s.busy[c].key, s.busy[c].next;
      Deliver(Update(s, k, s.entries[k].(nextPart := next, partsSent := next)), c, k, renders, true)
  }

  /** The host has durably handled a failure: it may now be forgotten. */
  function Acknowledge(s: State, m: Message): (State, Reply) {
    var c, k := m.conversation, m.event;
    if c in s.busy then (s, Refused(Conflict))
    else if k !in s.entries || s.entries[k].error.None? then (s, Refused(NotFound))
    else if s.entries[k].complete then (s, Noted)
    else (Update(s, k, s.entries[k].(complete := true)).(completed := s.completed + [k]), Noted)
  }

  datatype Event =
    | HandleEvent(message: Message)
    | AdmitEvent(conversation: Key, allowed: bool)
    | TurnEvent(conversation: Key, answer: TurnOutcome, cancelled: bool, renders: Result<()>)
    | SendEvent(conversation: Key, outcome: SendOutcome, renders: Result<()>)
    | ResumeEvent(message: Message, next: nat)
    | ResumeAdmitEvent(conversation: Key, allowed: bool, renders: Result<()>)
    | AcknowledgeEvent(message: Message)

  function Step(s: State, e: Event): (State, Reply) {
    match e
    case HandleEvent(m) => BeginHandle(s, m)
    case AdmitEvent(c, allowed) => Admit(s, c, allowed)
    case TurnEvent(c, answer, cancelled, renders) => TurnDone(s, c, answer, cancelled, renders)
    case SendEvent(c, outcome, renders) => SendDone(s, c, outcome, renders)
    case ResumeEvent(m, next) => BeginResume(s, m, next)
    case ResumeAdmitEvent(c, allowed, renders) => ResumeAdmit(s, c, allowed, renders)
    case AcknowledgeEvent(m) => Acknowledge(s, m)
  }

  // ---------------------------------------------------------------- invariant

  predicate Distinct(s: seq<Key>) {
    forall i, j :: 0 <= i < j < |s| ==> s[i] != s[j]
  }

  predicate Increasing(s: seq<nat>) {
    forall i, j :: 0 <= i < j < |s| ==> s[i] < s[j]
  }

  /** The queue lists each completed entry exactly once. */
  ghost predicate Queued(s: State) {
    && Distinct(s.completed)
    && (forall k :: k in s.completed <==> k in s.entries && s.entries[k].complete)
  }

  predicate GoodEntry(e: Entry) {
    && e.nextPart <= |e.parts| && (!e.generated ==> e.parts == [])
    && Increasing(e.confirmed) && (forall i :: 0 <= i < |e.confirmed| ==> e.confirmed[i] < e.nextPart)
  }

  /** `conversationOf` is the conversation an event key belongs to. */
  predicate Keyed(m: Message, conversationOf: Key -> Key) {
    m.conversation == conversationOf(m.event)
  }

  ghost predicate GoodEntries(s: State, conversationOf: Key -> Key) {
    forall k :: k in s.entries ==>
      GoodEntry(s.entries[k]) && s.entries[k].message.event == k && Keyed(s.entries[k].message, conversationOf)
  }

  /** A call works on an unfinished entry of the conversation it holds. */
  predicate GoodFlight(s: State, c: Key, f: Flight) {
    match f
    case Authorizing(m) => m.conversation == c
    case RunningTurn(k) =>
      && k in s.entries && s.entries[k].message.conversation == c && !s.entries[k].complete
      && s.entries[k].nextPart == 0 && s.entries[k].confirmed == []
    case SendingPart(k, _) =>
      && k in s.entries && s.entries[k].message.conversation == c && !s.entries[k].complete
      && s.entries[k].generated && s.entries[k].nextPart < |s.entries[k].parts|
    case Resuming(k, next) =>
      && k in s.entries && s.entries[k].message.conversation == c && !s.entries[k].complete
      && s.entries[k].generated && s.entries[k].nextPart <= next <= |s.entries[k].parts|
  }

  ghost predicate GoodFlights(s: State) {
    forall c :: c in s.busy ==> GoodFlight(s, c, s.busy[c])
  }

  ghost predicate KeyedFlights(s: State, conversationOf: Key -> Key) {
    forall c :: c in s.busy && s.busy[c].Authorizing? ==> Keyed(s.busy[c].message, conversationOf)
  }

  /** The call that holds conversation `c` works on entry `k`. */
  predicate WorksOn(s: State, c: Key, k: Key) {
    c in s.busy && !s.busy[c].Authorizing? && s.busy[c].key == k
  }

  /** An entry that is neither finished nor being worked on is a recorded failure. */
  ghost predicate Settled(s: State) {
    forall k :: k in s.entries && !s.entries[k].complete && s.entries[k].error.None? ==>
      WorksOn(s, s.entries[k].message.conversation, k)
  }

  ghost predicate Inv(s: State, conversationOf: Key -> Key) {
    && 0 < s.capacity && |s.entries| <= s.capacity
    && Queued(s) && GoodEntries(s, conversationOf) && GoodFlights(s) && KeyedFlights(s, conversationOf) && Settled(s)
  }

  // ---------------------------------------------------------------- every step keeps it

  lemma UpdateKeepsSize(s: State, k: Key, e: Entry)
    requires k in s.entries
    ensures |Update(s, k, e).entries| == |s.entries|
  {
    assert Update(s, k, e).entries.Keys == s.entries.Keys;
    assert |s.entries| == |s.entries.Keys|;
  }

  lemma UpdateQueued(s: State, k: Key, e: Entry)
    requires Queued(s) && k in s.entries && !s.entries[k].complete && !e.complete
    ensures Queued(Update(s, k, e))
  {
  }

  lemma UpdateEntries(s: State, k: Key, e: Entry, f: Key -> Key)
    requires GoodEntries(s, f) && k in s.entries && e.message == s.entries[k].message && GoodEntry(e)
    ensures GoodEntries(Update(s, k, e), f)
  {
  }

  /** Changing the entry a call works on leaves the calls of other conversations alone. */
  lemma UpdateFlights(s: State, c: Key, k: Key, e: Entry)
    requires GoodFlights(s) && WorksOn(s, c, k)
    requires k in s.entries && e.message == s.entries[k].message && GoodFlight(Update(s, k, e), c, s.busy[c])
    ensures GoodFlights(Update(s, k, e))
  {
    forall d | d in s.busy && d != c ensures GoodFlight(Update(s, k, e), d, s.busy[d]) {
      assert GoodFlight(s, d, s.busy[d]) && GoodFlight(s, c, s.busy[c]);
    }
  }

  lemma UpdateSettled(s: State, c: Key, k: Key, e: Entry)
    requires Settled(s) && WorksOn(s, c, k)
    requires k in s.entries && e.message == s.entries[k].message && e.message.conversation == c
    ensures Settled(Update(s, k, e))
  {
    var t := Update(s, k, e);
    forall j | j in t.entries && !t.entries[j].complete && t.entries[j].error.None?
      ensures WorksOn(t, t.entries[j].message.conversation, j)
    {
      if j != k {
        assert WorksOn(s, s.entries[j].message.conversation, j);
      }
    }
  }

  /** A call changes the unfinished entry it works on. */
  lemma UpdateKeepsInv(s: State, c: Key, k: Key, e: Entry, f: Key -> Key)
    requires Inv(s, f) && WorksOn(s, c, k)
    requires e.message == s.entries[k].message && !e.complete && GoodEntry(e)
    requires GoodFlight(Update(s, k, e), c, s.busy[c])
    ensures Inv(Update(s, k, e), f) && WorksOn(Update(s, k, e), c, k)
  {
    assert GoodFlight(s, c, s.busy[c]);
    UpdateKeepsSize(s, k, e);
    UpdateQueued(s, k, e);
    UpdateEntries(s, k, e, f);
    UpdateFlights(s, c, k, e);
    UpdateSettled(s, c, k, e);
  }

  lemma FreeKeepsInv(s: State, c: Key, f: Key -> Key)
    requires Inv(s, f)
    requires forall k :: k in s.entries && WorksOn(s, c, k) ==> s.entries[k].complete || s.entries[k].error.Some?
    ensures Inv(Free(s, c), f)
  {
  }

  lemma FailKeepsInv(s: State, c: Key, k: Key, kind: ErrorKind, f: Key -> Key)
    requires Inv(s, f) && WorksOn(s, c, k)
    ensures Inv(Fail(s, c, k, kind), f)
  {
    UpdateKeepsInv(s, c, k, s.entries[k].(error := Some(kind)), f);
    FreeKeepsInv(Update(s, k, s.entries[k].(error := Some(kind))), c, f);
  }

  /** Completing an entry that no call works on. */
  function Completed(s: State, k: Key, error: Option<ErrorKind>): State
    requires k in s.entries
  {
    Update(s, k, s.entries[k].(complete := true, error := error)).(completed := s.completed + [k])
  }

  lemma CompleteKeepsQueue(s: State, k: Key, error: Option<ErrorKind>)
    requires Queued(s) && k in s.entries && !s.entries[k].complete
    ensures Queued(Completed(s, k, error))
  {
    assert k !in s.completed;
  }

  lemma CompleteKeepsInv(s: State, k: Key, error: Option<ErrorKind>, f: Key -> Key)
    requires Inv(s, f) && k in s.entries && !s.entries[k].complete
    requires forall c :: c in s.busy ==> !WorksOn(s, c, k)
    ensures Inv(Completed(s, k, error), f)
  {
    CompleteKeepsQueue(s, k, error);
    UpdateKeepsSize(s, k, s.entries[k].(complete := true, error := error));
  }

  /** Completing the entry of the call that ends: as if it had failed first. */
  lemma CompleteAndFree(s: State, c: Key, k: Key, f: Key -> Key)
    requires Inv(s, f) && WorksOn(s, c, k)
    ensures Inv(Free(Completed(s, k, None), c), f)
  {
    var failed := Fail(s, c, k, Internal);
    FailKeepsInv(s, c, k, Internal, f);
    NobodyElseWorksOn(s, c, k);
    CompleteKeepsInv(failed, k, None, f);
    CompleteAfterFail(s, c, k);
  }

  lemma NobodyElseWorksOn(s: State, c: Key, k: Key)
    requires GoodFlights(s) && WorksOn(s, c, k)
    ensures forall d :: d in s.busy && d != c ==> !WorksOn(s, d, k)
  {
    assert GoodFlight(s, c, s.busy[c]);
    forall d | d in s.busy && d != c ensures !WorksOn(s, d, k) {
      assert GoodFlight(s, d, s.busy[d]);
    }
  }

  lemma CompleteAfterFail(s: State, c: Key, k: Key)
    requires k in s.entries
    ensures Completed(Fail(s, c, k, Internal), k, None) == Free(Completed(s, k, None), c)
  {
    var done := s.entries[k].(complete := true, error := None);
    assert s.entries[k := s.entries[k].(error := Some(Internal))][k := done] == s.entries[k := done];
  }

  lemma SendNextKeepsInv(s: State, c: Key, k: Key, resumed: bool, f: Key -> Key)
    requires Inv(s, f) && WorksOn(s, c, k) && s.entries[k].generated && s.entries[k].nextPart < |s.entries[k].parts|
    ensures Inv(s.(busy := s.busy[c := SendingPart(k, resumed)]), f)
  {
  }

  lemma DeliverKeepsInv(s: State, c: Key, k: Key, renders: Result<()>, resumed: bool, f: Key -> Key)
    requires Inv(s, f) && WorksOn(s, c, k) && s.entries[k].generated
    ensures Inv(Deliver(s, c, k, renders, resumed).0, f)
  {
    var e := s.entries[k];
    if e.nextPart < |e.parts| {
      if renders.Err? {
        FailKeepsInv(s, c, k, renders.kind, f);
      } else {
        SendNextKeepsInv(s, c, k, resumed, f);
      }
    } else {
      CompleteAndFree(s, c, k, f);
    }
  }

  /** The same state with the call marked as sending, whatever it was doing before. */
  lemma HandOver(s: State, c: Key, k: Key, flight: Flight, f: Key -> Key)
    requires Inv(s, f) && WorksOn(s, c, k) && !flight.Authorizing? && flight.key == k && GoodFlight(s, c, flight)
    ensures Inv(s.(busy := s.busy[c := flight]), f)
  {
  }

  /** What sending does next does not depend on how the call got there. */
  lemma DeliverIgnoresFlight(s: State, c: Key, k: Key, flight: Flight, renders: Result<()>, resumed: bool)
    requires k in s.entries && c in s.busy
    ensures Deliver(s.(busy := s.busy[c := flight]), c, k, renders, resumed) == Deliver(s, c, k, renders, resumed)
  {
    assert s.busy[c := flight] - {c} == s.busy - {c};
    assert s.busy[c := flight][c := SendingPart(k, resumed)] == s.busy[c := SendingPart(k, resumed)];
  }

  lemma TurnDoneKeepsInv(s: State, c: Key, answer: TurnOutcome, cancelled: bool, renders: Result<()>, f: Key -> Key)
    requires Inv(s, f) && c in s.busy && s.busy[c].RunningTurn?
    ensures Inv(TurnDone(s, c, answer, cancelled, renders).0, f)
  {
    var k := s.busy[c].key;
    if !answer.Parts? {
      FailKeepsInv(s, c, k, if answer.TurnFailed? && cancelled then Cancelled else answer.kind, f);
    } else {
      var e := s.entries[k].(parts := answer.parts, generated := true);
      UpdateKeepsInv(s, c, k, e, f);
      if cancelled {
        FailKeepsInv(Update(s, k, e), c, k, Cancelled, f);
      } else {
        DeliverKeepsInv(Update(s, k, e), c, k, renders, false, f);
      }
    }
  }

  lemma ReceiptKeepsInv(s: State, c: Key, renders: Result<()>, f: Key -> Key)
    requires Inv(s, f) && c in s.busy && s.busy[c].SendingPart?
    ensures Inv(SendDone(s, c, Receipt, renders).0, f)
  {
    var k, resumed := s.busy[c].key, s.busy[c].resumed;
    assert GoodFlight(s, c, s.busy[c]) && GoodEntry(s.entries[k]);
    var e := Confirmed(s.entries[k]);
    var flight := Resuming(k, e.nextPart);
    var t := s.(busy := s.busy[c := flight]);
    HandOver(s, c, k, flight, f);
    ConfirmedIsGood(s.entries[k]);
    UpdateKeepsInv(t, c, k, e, f);
    DeliverKeepsInv(Update(t, k, e), c, k, renders, resumed, f);
    DeliverIgnoresFlight(Update(s, k, e), c, k, flight, renders, resumed);
    assert Update(s, k, e).(busy := s.busy[c := flight]) == Update(t, k, e);
  }

  lemma ConfirmedIsGood(e: Entry)
    requires GoodEntry(e) && e.nextPart < |e.parts|
    ensures GoodEntry(Confirmed(e))
  {
  }

  /** The failure of an earlier call is still recorded while the delivery is resumed. */
  lemma RaisedKeepsInv(s: State, c: Key, f: Key -> Key)
    requires Inv(s, f) && c in s.busy && s.busy[c].SendingPart?
    requires s.busy[c].resumed ==> s.entries[s.busy[c].key].error.Some?
    ensures Inv(SendDone(s, c, SendRaised, Ok(())).0, f)
  {
    if s.busy[c].resumed {
      FreeKeepsInv(s, c, f);
    } else {
      FailKeepsInv(s, c, s.busy[c].key, Internal, f);
    }
  }

  lemma ResumeAdmitKeepsInv(s: State, c: Key, allowed: bool, renders: Result<()>, f: Key -> Key)
    requires Inv(s, f) && c in s.busy && s.busy[c].Resuming?
    requires s.entries[s.busy[c].key].error.Some?
    ensures Inv(ResumeAdmit(s, c, allowed, renders).0, f)
  {
    var k, next := s.busy[c].key, s.busy[c].next;
    if !allowed {
      FreeKeepsInv(s, c, f);
    } else {
      var e := s.entries[k].(nextPart := next, partsSent := next);
      UpdateKeepsInv(s, c, k, e, f);
      DeliverKeepsInv(Update(s, k, e), c, k, renders, true, f);
    }
  }

  lemma EvictKeepsInv(s: State, f: Key -> Key)
    requires Inv(s, f) && s.completed != []
    ensures Inv(Evict(s), f) && |Evict(s).entries| == |s.entries| - 1
  {
    var k, rest := s.completed[0], s.completed[1..];
    assert k in s.completed;
    assert forall i :: 0 <= i < |rest| ==> rest[i] == s.completed[i + 1];
    assert forall j :: j in s.completed <==> j == k || j in rest;
    assert Evict(s).entries.Keys == s.entries.Keys - {k};
    assert |s.entries| == |s.entries.Keys| && |Evict(s).entries| == |Evict(s).entries.Keys|;
  }

  function Inserted(s: State, c: Key, m: Message): State {
    Update(s, m.event, NewEntry(m)).(busy := s.busy[c := RunningTurn(m.event)])
  }

  lemma InsertedFlights(s: State, c: Key, m: Message)
    requires GoodFlights(s) && m.event !in s.entries && m.conversation == c
    ensures GoodFlights(Inserted(s, c, m))
  {
    forall d | d in s.busy && d != c ensures GoodFlight(Inserted(s, c, m), d, s.busy[d]) {
      assert GoodFlight(s, d, s.busy[d]);
    }
  }

  lemma InsertedSettled(s: State, c: Key, m: Message)
    requires Settled(s) && m.event !in s.entries && m.conversation == c && c in s.busy && s.busy[c].Authorizing?
    ensures Settled(Inserted(s, c, m))
  {
    var t := Inserted(s, c, m);
    forall j | j in t.entries && !t.entries[j].complete && t.entries[j].error.None?
      ensures WorksOn(t, t.entries[j].message.conversation, j)
    {
      if j != m.event {
        assert WorksOn(s, s.entries[j].message.conversation, j);
      }
    }
  }

  lemma InsertedSize(s: State, c: Key, m: Message)
    requires m.event !in s.entries
    ensures |Inserted(s, c, m).entries| == |s.entries| + 1
  {
    var t := Inserted(s, c, m);
    assert t.entries.Keys == s.entries.Keys + {m.event};
    assert |s.entries| == |s.entries.Keys| && |t.entries| == |t.entries.Keys|;
  }

  lemma InsertKeepsInv(s: State, c: Key, m: Message, f: Key -> Key)
    requires Inv(s, f) && c in s.busy && s.busy[c] == Authorizing(m) && m.event !in s.entries
    requires |s.entries| < s.capacity
    ensures Inv(Inserted(s, c, m), f)
  {
    assert GoodFlight(s, c, s.busy[c]) && Keyed(m, f);
    InsertedFlights(s, c, m);
    InsertedSettled(s, c, m);
    InsertedSize(s, c, m);
  }

  lemma AdmitKeepsInv(s: State, c: Key, allowed: bool, f: Key -> Key)
    requires Inv(s, f) && c in s.busy && s.busy[c].Authorizing?
    ensures Inv(Admit(s, c, allowed).0, f)
  {
    var m := s.busy[c].message;
    if !allowed || m.event in s.entries || (|s.entries| >= s.capacity && s.completed == []) {
      FreeKeepsInv(s, c, f);
    } else if |s.entries| >= s.capacity {
      EvictKeepsInv(s, f);
      InsertKeepsInv(Evict(s), c, m, f);
    } else {
      InsertKeepsInv(s, c, m, f);
    }
  }

  lemma BeginKeepsInv(s: State, c: Key, flight: Flight, f: Key -> Key)
    requires Inv(s, f) && c !in s.busy && GoodFlight(s, c, flight)
    requires flight.Authorizing? ==> Keyed(flight.message, f)
    ensures Inv(s.(busy := s.busy[c := flight]), f)
  {
  }

  /** A running turn has no answer yet; while a delivery is resumed the failure that stopped it is
      still recorded. */
  predicate Consistent(s: State, c: Key) {
    && (c in s.busy && s.busy[c].RunningTurn? ==> s.busy[c].key in s.entries && !s.entries[s.busy[c].key].generated)
    && (c in s.busy && (s.busy[c].Resuming? || (s.busy[c].SendingPart? && s.busy[c].resumed)) ==>
      s.busy[c].key in s.entries && s.entries[s.busy[c].key].error.Some?)
  }

  ghost predicate FlightsConsistent(s: State) {
    forall c :: c in s.busy ==> Consistent(s, c)
  }

  ghost predicate FullInv(s: State, f: Key -> Key) {
    Inv(s, f) && FlightsConsistent(s)
  }

  /** Only the entry of the call that moves changes, and its own flight is in order. */
  lemma ConsistentExcept(s: State, t: State, c: Key, k: Key)
    requires GoodFlights(s) && FlightsConsistent(s) && WorksOn(s, c, k)
    requires forall d :: d in t.busy && d != c ==> d in s.busy && t.busy[d] == s.busy[d]
    requires forall j :: j in s.entries && j != k ==> j in t.entries && t.entries[j] == s.entries[j]
    requires Consistent(t, c)
    ensures FlightsConsistent(t)
  {
    NobodyElseWorksOn(s, c, k);
    forall d | d in t.busy ensures Consistent(t, d) {
      if d != c {
        assert Consistent(s, d) && !WorksOn(s, d, k);
      }
    }
  }

  lemma TurnDoneFlightsConsistent(s: State, c: Key, answer: TurnOutcome, cancelled: bool, renders: Result<()>)
    requires GoodFlights(s) && FlightsConsistent(s) && c in s.busy && s.busy[c].RunningTurn? && s.busy[c].key in s.entries
    ensures FlightsConsistent(TurnDone(s, c, answer, cancelled, renders).0)
  {
    ConsistentExcept(s, TurnDone(s, c, answer, cancelled, renders).0, c, s.busy[c].key);
  }

  lemma SendDoneFlightsConsistent(s: State, c: Key, outcome: SendOutcome, renders: Result<()>)
    requires GoodFlights(s) && FlightsConsistent(s) && c in s.busy && s.busy[c].SendingPart? && s.busy[c].key in s.entries
    ensures FlightsConsistent(SendDone(s, c, outcome, renders).0)
  {
    assert Consistent(s, c);
    ConsistentExcept(s, SendDone(s, c, outcome, renders).0, c, s.busy[c].key);
  }

  lemma ResumeAdmitFlightsConsistent(s: State, c: Key, allowed: bool, renders: Result<()>)
    requires GoodFlights(s) && FlightsConsistent(s) && c in s.busy && s.busy[c].Resuming? && s.busy[c].key in s.entries
    ensures FlightsConsistent(ResumeAdmit(s, c, allowed, renders).0)
  {
    assert Consistent(s, c);
    ConsistentExcept(s, ResumeAdmit(s, c, allowed, renders).0, c, s.busy[c].key);
  }

  lemma AdmitFlightsConsistent(s: State, c: Key, allowed: bool)
    requires Queued(s) && GoodFlights(s) && FlightsConsistent(s) && c in s.busy && s.busy[c].Authorizing?
    ensures FlightsConsistent(Admit(s, c, allowed).0)
  {
    var t := Admit(s, c, allowed).0;
    forall d | d in t.busy ensures Consistent(t, d) {
      assert Consistent(s, d) && GoodFlight(s, d, s.busy[d]);
      if s.completed != [] {
        assert s.completed[0] in s.completed;
      }
    }
  }

  lemma BeginHandleKeepsInv(s: State, m: Message, f: Key -> Key)
    requires FullInv(s, f) && Keyed(m, f)
    ensures FullInv(BeginHandle(s, m).0, f)
  {
    if m.conversation !in s.busy {
      BeginKeepsInv(s, m.conversation, Authorizing(m), f);
    }
  }

  /** Nobody works on an entry of a conversation that no call holds. */
  lemma IdleConversation(s: State, m: Message, f: Key -> Key)
    requires Inv(s, f) && Keyed(m, f) && m.conversation !in s.busy && m.event in s.entries
    ensures s.entries[m.event].message.conversation == m.conversation
    ensures forall c :: c in s.busy ==> !WorksOn(s, c, m.event)
  {
    forall c | c in s.busy ensures !WorksOn(s, c, m.event) {
      assert GoodFlight(s, c, s.busy[c]);
    }
  }

  lemma BeginResumeKeepsInv(s: State, m: Message, next: nat, f: Key -> Key)
    requires FullInv(s, f) && Keyed(m, f)
    ensures FullInv(BeginResume(s, m, next).0, f)
  {
    var (t, reply) := BeginResume(s, m, next);
    if reply.Suspended? {
      IdleConversation(s, m, f);
      BeginKeepsInv(s, m.conversation, Resuming(m.event, next), f);
      assert s.entries[m.event].error.Some?;
      assert forall d :: d in s.busy ==> Consistent(s, d);
    }
  }

  lemma AcknowledgeKeepsInv(s: State, m: Message, f: Key -> Key)
    requires FullInv(s, f) && Keyed(m, f)
    ensures FullInv(Acknowledge(s, m).0, f)
  {
    var (t, reply) := Acknowledge(s, m);
    if reply.Noted? && !s.entries[m.event].complete {
      IdleConversation(s, m, f);
      CompleteKeepsInv(s, m.event, s.entries[m.event].error, f);
      assert t == Completed(s, m.event, s.entries[m.event].error);
      forall d | d in t.busy ensures Consistent(t, d) {
        assert Consistent(s, d);
      }
    }
  }

  predicate KeyedEvent(e: Event, f: Key -> Key) {
    e.HandleEvent? || e.ResumeEvent? || e.AcknowledgeEvent? ==> Keyed(e.message, f)
  }

  lemma SendDoneKeepsInv(s: State, c: Key, outcome: SendOutcome, renders: Result<()>, f: Key -> Key)
    requires FullInv(s, f) && c in s.busy && s.busy[c].SendingPart?
    ensures Inv(SendDone(s, c, outcome, renders).0, f)
  {
    assert Consistent(s, c);
    match outcome
    case Receipt => ReceiptKeepsInv(s, c, renders, f);
    case SendRaised => RaisedKeepsInv(s, c, f);
    case SendFailed(kind) => FailKeepsInv(s, c, s.busy[c].key, kind, f);
  }

  /** Every event, whatever the host, the turn and the transport do, keeps the invariant. */
  lemma StepKeepsInv(s: State, e: Event, f: Key -> Key)
    requires FullInv(s, f) && KeyedEvent(e, f)
    ensures FullInv(Step(s, e).0, f)
  {
    match e
    case HandleEvent(m) => BeginHandleKeepsInv(s, m, f);
    case AdmitEvent(c, allowed) =>
      if c in s.busy && s.busy[c].Authorizing? {
        AdmitKeepsInv(s, c, allowed, f);
        AdmitFlightsConsistent(s, c, allowed);
      }
    case TurnEvent(c, answer, cancelled, renders) =>
      if c in s.busy && s.busy[c].RunningTurn? {
        TurnDoneKeepsInv(s, c, answer, cancelled, renders, f);
        TurnDoneFlightsConsistent(s, c, answer, cancelled, renders);
      }
    case SendEvent(c, outcome, renders) =>
      if c in s.busy && s.busy[c].SendingPart? {
        SendDoneKeepsInv(s, c, outcome, renders, f);
        SendDoneFlightsConsistent(s, c, outcome, renders);
      }
    case ResumeEvent(m, next) => BeginResumeKeepsInv(s, m, next, f);
    case ResumeAdmitEvent(c, allowed, renders) =>
      if c in s.busy && s.busy[c].Resuming? {
        assert Consistent(s, c);
        ResumeAdmitKeepsInv(s, c, allowed, renders, f);
        ResumeAdmitFlightsConsistent(s, c, allowed, renders);
      }
    case AcknowledgeEvent(m) => AcknowledgeKeepsInv(s, m, f);
  }

  // ---------------------------------------------------------------- what one step may do to an entry

  /** The message stays, the answer once generated stays, no part is confirmed twice or out of order. */
  predicate Progress(a: Entry, b: Entry) {
    && b.message == a.message && (a.complete ==> b == a)
    && (a.generated ==> b.generated && b.parts == a.parts)
    && a.nextPart <= b.nextPart && a.confirmed <= b.confirmed
    && (forall i :: |a.confirmed| <= i < |b.confirmed| ==> a.nextPart <= b.confirmed[i])
  }

  /** An incomplete entry of a call, before and after one of its steps. */
  predicate Forward(a: Entry, b: Entry) {
    && Progress(a, b)
    && (a.error.Some? ==> if b.complete then b.nextPart == |b.parts| && b.generated && b.error.None? else b.error.Some?)
  }

  lemma DeliverForward(s: State, c: Key, k: Key, renders: Result<()>, resumed: bool)
    requires k in s.entries && !s.entries[k].complete && s.entries[k].generated
    requires s.entries[k].nextPart <= |s.entries[k].parts|
    ensures var t := Deliver(s, c, k, renders, resumed).0; k in t.entries && Forward(s.entries[k], t.entries[k])
    ensures var t := Deliver(s, c, k, renders, resumed).0;
      forall j :: j in s.entries && j != k ==> j in t.entries && t.entries[j] == s.entries[j]
  {
  }

  lemma TurnForward(s: State, c: Key, answer: TurnOutcome, cancelled: bool, renders: Result<()>)
    requires c in s.busy && s.busy[c].RunningTurn? && GoodFlight(s, c, s.busy[c])
    requires GoodEntry(s.entries[s.busy[c].key])
    requires !s.entries[s.busy[c].key].generated
    ensures var t, k := TurnDone(s, c, answer, cancelled, renders).0, s.busy[c].key;
      k in t.entries && Forward(s.entries[k], t.entries[k])
    ensures var t, k := TurnDone(s, c, answer, cancelled, renders).0, s.busy[c].key;
      forall j :: j in s.entries && j != k ==> j in t.entries && t.entries[j] == s.entries[j]
  {
    var k := s.busy[c].key;
    if answer.Parts? && !cancelled {
      var u := Update(s, k, s.entries[k].(parts := answer.parts, generated := true));
      DeliverForward(u, c, k, renders, false);
    }
  }

  lemma SendForward(s: State, c: Key, outcome: SendOutcome, renders: Result<()>)
    requires c in s.busy && s.busy[c].SendingPart? && GoodFlight(s, c, s.busy[c])
    requires Consistent(s, c)
    ensures var t, k := SendDone(s, c, outcome, renders).0, s.busy[c].key;
      k in t.entries && Forward(s.entries[k], t.entries[k])
    ensures var t, k := SendDone(s, c, outcome, renders).0, s.busy[c].key;
      forall j :: j in s.entries && j != k ==> j in t.entries && t.entries[j] == s.entries[j]
  {
    var k := s.busy[c].key;
    if outcome.Receipt? {
      DeliverForward(Update(s, k, Confirmed(s.entries[k])), c, k, renders, s.busy[c].resumed);
    }
  }

  lemma ResumeForward(s: State, c: Key, allowed: bool, renders: Result<()>)
    requires c in s.busy && s.busy[c].Resuming? && GoodFlight(s, c, s.busy[c])
    ensures var t, k := ResumeAdmit(s, c, allowed, renders).0, s.busy[c].key;
      k in t.entries && Forward(s.entries[k], t.entries[k])
    ensures var t, k := ResumeAdmit(s, c, allowed, renders).0, s.busy[c].key;
      forall j :: j in s.entries && j != k ==> j in t.entries && t.entries[j] == s.entries[j]
  {
    var k, next := s.busy[c].key, s.busy[c].next;
    if allowed {
      DeliverForward(Update(s, k, s.entries[k].(nextPart := next, partsSent := next)), c, k, renders, true);
    }
  }

  /** A step of a call moves its own entry forward and leaves the others alone. */
  lemma CallForward(s: State, e: Event, f: Key -> Key)
    requires FullInv(s, f) && (e.TurnEvent? || e.SendEvent? || e.ResumeAdmitEvent?)
    ensures forall j :: j in s.entries ==> j in Step(s, e).0.entries
    ensures forall j :: j in s.entries ==>
      (Step(s, e).0.entries[j] == s.entries[j] || (!s.entries[j].complete && Forward(s.entries[j], Step(s, e).0.entries[j])))
  {
    if e.conversation in s.busy {
      assert GoodFlight(s, e.conversation, s.busy[e.conversation]) && Consistent(s, e.conversation);
    }
    match e
    case TurnEvent(c, answer, cancelled, renders) =>
      if c in s.busy && s.busy[c].RunningTurn? {
        TurnForward(s, c, answer, cancelled, renders);
      }
    case SendEvent(c, outcome, renders) =>
      if c in s.busy && s.busy[c].SendingPart? {
        SendForward(s, c, outcome, renders);
      }
    case ResumeAdmitEvent(c, allowed, renders) =>
      if c in s.busy && s.busy[c].Resuming? {
        ResumeForward(s, c, allowed, renders);
      }
    case _ =>
  }

  lemma StepIsProgress(s: State, e: Event, f: Key -> Key, k: Key)
    requires FullInv(s, f) && k in s.entries && k in Step(s, e).0.entries
    ensures Progress(s.entries[k], Step(s, e).0.entries[k])
  {
    if e.TurnEvent? || e.SendEvent? || e.ResumeAdmitEvent? {
      CallForward(s, e, f);
    }
  }

  /** Only a completed entry is ever forgotten: a failure stays until it is acknowledged or resumed. */
  lemma OnlyCompletedIsEvicted(s: State, e: Event, f: Key -> Key, k: Key)
    requires FullInv(s, f) && k in s.entries && k !in Step(s, e).0.entries
    ensures s.entries[k].complete && s.completed != [] && k == s.completed[0]
    ensures e.AdmitEvent? && |s.entries| == s.capacity
  {
    if e.TurnEvent? || e.SendEvent? || e.ResumeAdmitEvent? {
      CallForward(s, e, f);
    } else if s.completed != [] {
      assert s.completed[0] in s.completed;
    }
  }

  /** A failure nobody acknowledges: after the step it is still there, still recorded as incomplete,
      unless a resumed delivery has just confirmed its last part. */
  lemma FailureStays(s: State, e: Event, f: Key -> Key, k: Key)
    requires FullInv(s, f) && KeyedEvent(e, f)
    requires k in s.entries && !s.entries[k].complete && s.entries[k].error.Some?
    requires !(e.AcknowledgeEvent? && e.message.event == k)
    ensures k in Step(s, e).0.entries
    ensures var b := Step(s, e).0.entries[k];
      if b.complete then b.nextPart == |b.parts| && b.generated && b.error.None? else b.error.Some?
  {
    if e.TurnEvent? || e.SendEvent? || e.ResumeAdmitEvent? {
      CallForward(s, e, f);
    } else if k !in Step(s, e).0.entries {
      OnlyCompletedIsEvicted(s, e, f, k);
    }
  }

  /** The call of conversation `c` has the turn of `k` in progress. */
  predicate InTurn(s: State, c: Key, k: Key) {
    c in s.busy && s.busy[c] == RunningTurn(k)
  }

  /** This step starts the turn of `k`. */
  predicate Starts(s: State, e: Event, k: Key) {
    e.AdmitEvent? && InTurn(Step(s, e).0, e.conversation, k) && !InTurn(s, e.conversation, k)
  }

  lemma OnlyAdmissionStarts(s: State, e: Event, c: Key, k: Key)
    requires InTurn(Step(s, e).0, c, k) && !InTurn(s, c, k)
    ensures Starts(s, e, k) && e.conversation == c && k !in s.entries && k in Step(s, e).0.entries
  {
  }

  // ---------------------------------------------------------------- runs

  /** The message of event `id` in conversation `c`. */
  function Incoming(c: Conversation, id: string, valid: bool): Message {
    Message(ConversationKey.Key(c), EventKey(c, id), valid)
  }

  ghost predicate Decoded(m: Message) {
    exists c: Conversation, id: string :: m == Incoming(c, id, m.valid)
  }

  /** The conversation whose events have this key. */
  ghost function ConversationOf(k: Key): Key {
    if exists c: Conversation, id: string :: EventKey(c, id) == k then
      var c: Conversation, id: string :| EventKey(c, id) == k;
      ConversationKey.Key(c)
    else ""
  }

  /** Event keys determine their conversation, so a call that holds the conversation of a message
      excludes every other call for that event. */
  lemma DecodedIsKeyed(m: Message)
    requires Decoded(m)
    ensures Keyed(m, ConversationOf)
  {
    var c: Conversation, id: string :| m == Incoming(c, id, m.valid);
    assert EventKey(c, id) == m.event;
    var d: Conversation, other: string :| EventKey(d, other) == m.event && ConversationOf(m.event) == ConversationKey.Key(d);
    EventKeyInjective(c, id, d, other);
  }

  /** `f` gives each decoded event its conversation. */
  ghost predicate Keying(f: Key -> Key) {
    forall m: Message {:trigger Decoded(m)} :: Decoded(m) ==> Keyed(m, f)
  }

  lemma KeyingExists() returns (f: Key -> Key)
    ensures Keying(f)
  {
    f := ConversationOf;
    forall m: Message | Decoded(m) ensures Keyed(m, f) {
      DecodedIsKeyed(m);
    }
  }

  ghost predicate DecodedEvent(e: Event) {
    e.HandleEvent? || e.ResumeEvent? || e.AcknowledgeEvent? ==> Decoded(e.message)
  }

  lemma SafeStep(s: State, e: Event, f: Key -> Key)
    requires FullInv(s, f) && Keying(f) && DecodedEvent(e)
    ensures FullInv(Step(s, e).0, f)
  {
    StepKeepsInv(s, e, f);
  }

  ghost predicate Run(run: seq<State>, events: seq<Event>) {
    && |run| == |events| + 1
    && (forall i :: 0 <= i < |events| ==> DecodedEvent(events[i]))
    && (forall i :: 0 <= i < |events| ==> run[i + 1] == Step(run[i], events[i]).0)
  }

  function Init(capacity: nat): State {
    State(capacity, map[], [], map[])
  }

  lemma {:induction false} RunKeepsInv(run: seq<State>, events: seq<Event>, f: Key -> Key, n: nat)
    requires Run(run, events) && Keying(f) && FullInv(run[0], f) && n < |run|
    ensures FullInv(run[n], f) && run[n].capacity == run[0].capacity
  {
    if n > 0 {
      RunKeepsInv(run, events, f, n - 1);
      SafeStep(run[n - 1], events[n - 1], f);
      StepKeepsCapacity(run[n - 1], events[n - 1]);
    }
  }

  lemma StepKeepsCapacity(s: State, e: Event)
    ensures Step(s, e).0.capacity == s.capacity
  {
  }

  /** From the start, over every sequence of events: the cache stays within its capacity, the queue
      lists each completed entry once, every entry confirms its parts in increasing order, and an
      entry that is neither complete nor failed is the one its conversation's call works on. */
  lemma EveryRunIsSafe(run: seq<State>, events: seq<Event>, capacity: nat, n: nat)
    requires 0 < capacity && Run(run, events) && run[0] == Init(capacity) && n < |run|
    ensures |run[n].entries| <= capacity && Queued(run[n]) && Settled(run[n])
    ensures forall k :: k in run[n].entries ==> Increasing(run[n].entries[k].confirmed)
  {
    var f := KeyingExists();
    RunKeepsInv(run, events, f, n);
  }

  /** Entry `k`, complete by then, is forgotten in step `n`. */
  predicate Forgotten(run: seq<State>, n: nat, k: Key) {
    n + 1 < |run| && k in run[n].entries && run[n].entries[k].complete && k !in run[n + 1].entries
  }

  /** In step `n` entry `k` stays, or is forgotten once complete. */
  predicate StaysOrForgotten(run: seq<State>, n: nat, k: Key) {
    n + 1 < |run| && (k in run[n].entries && k !in run[n + 1].entries ==> Forgotten(run, n, k))
  }

  lemma {:induction false} LeavesOnce(run: seq<State>, i: nat, j: nat, k: Key)
    requires i <= j < |run| && k in run[i].entries && k !in run[j].entries
    requires forall n :: i <= n < j ==> StaysOrForgotten(run, n, k)
    ensures exists n :: i <= n < j && Forgotten(run, n, k)
    decreases j - i
  {
    assert StaysOrForgotten(run, i, k);
    if k in run[i + 1].entries {
      LeavesOnce(run, i + 1, j, k);
    } else {
      assert Forgotten(run, i, k);
    }
  }

  lemma RunStepForgets(run: seq<State>, events: seq<Event>, n: nat, k: Key)
    requires Run(run, events) && run[0].capacity > 0 && run[0] == Init(run[0].capacity) && n < |events|
    ensures StaysOrForgotten(run, n, k)
  {
    var f := KeyingExists();
    RunKeepsInv(run, events, f, n);
    if k in run[n].entries && k !in run[n + 1].entries {
      OnlyCompletedIsEvicted(run[n], events[n], f, k);
    }
  }

  /** The turn of an event starts again only after its entry was completed, by full delivery or by
      acknowledgement of its failure, and then forgotten: while it is retained it runs once. */
  lemma TurnRunsOnceWhileRetained(run: seq<State>, events: seq<Event>, i: nat, j: nat, k: Key)
    requires Run(run, events) && run[0].capacity > 0 && run[0] == Init(run[0].capacity)
    requires i < j < |events| && Starts(run[i], events[i], k) && Starts(run[j], events[j], k)
    ensures exists n :: i < n < j && Forgotten(run, n, k)
  {
    OnlyAdmissionStarts(run[i], events[i], events[i].conversation, k);
    OnlyAdmissionStarts(run[j], events[j], events[j].conversation, k);
    forall n | i < n < j ensures StaysOrForgotten(run, n, k) {
      RunStepForgets(run, events, n, k);
    }
    LeavesOnce(run, i + 1, j, k);
  }

  lemma ProgressTransitive(a: Entry, b: Entry, c: Entry)
    requires Progress(a, b) && Progress(b, c)
    ensures Progress(a, c)
  {
    assert forall i :: |a.confirmed| <= i < |b.confirmed| ==> c.confirmed[i] == b.confirmed[i];
  }

  /** Entry `k` only moved forward in step `n`. */
  predicate Advanced(run: seq<State>, n: nat, k: Key) {
    n + 1 < |run| && k in run[n].entries && k in run[n + 1].entries && Progress(run[n].entries[k], run[n + 1].entries[k])
  }

  lemma {:induction false} AdvancesAddUp(run: seq<State>, i: nat, j: nat, k: Key)
    requires i <= j < |run| && k in run[i].entries && k in run[j].entries
    requires forall n :: i <= n < j ==> Advanced(run, n, k)
    ensures Progress(run[i].entries[k], run[j].entries[k])
    decreases j
  {
    if i < j {
      assert Advanced(run, j - 1, k);
      AdvancesAddUp(run, i, j - 1, k);
      ProgressTransitive(run[i].entries[k], run[j - 1].entries[k], run[j].entries[k]);
    }
  }

  lemma RunStepIsProgress(run: seq<State>, events: seq<Event>, n: nat, k: Key)
    requires Run(run, events) && run[0].capacity > 0 && run[0] == Init(run[0].capacity) && n < |events|
    requires k in run[n].entries && k in run[n + 1].entries
    ensures Advanced(run, n, k)
  {
    var f := KeyingExists();
    RunKeepsInv(run, events, f, n);
    StepIsProgress(run[n], events[n], f, k);
  }

  /** Over handling and any number of resumes, an entry that is retained only moves forward. */
  lemma EntriesOnlyAdvance(run: seq<State>, events: seq<Event>, i: nat, j: nat, k: Key)
    requires Run(run, events) && run[0].capacity > 0 && run[0] == Init(run[0].capacity) && i <= j < |run|
    requires forall n :: i <= n <= j ==> k in run[n].entries
    ensures Progress(run[i].entries[k], run[j].entries[k])
  {
    forall n | i <= n < j ensures Advanced(run, n, k) {
      RunStepIsProgress(run, events, n, k);
    }
    AdvancesAddUp(run, i, j, k);
  }

  /** A recorded failure that nobody acknowledges and whose delivery is never resumed to its end is
      retained for ever, however many other events arrive. */
  lemma {:induction false} FailureIsRetained(run: seq<State>, events: seq<Event>, i: nat, j: nat, k: Key)
    requires Run(run, events) && run[0].capacity > 0 && run[0] == Init(run[0].capacity) && i <= j < |run|
    requires k in run[i].entries && !run[i].entries[k].complete && run[i].entries[k].error.Some?
    requires forall n :: i <= n < j ==> !(events[n].AcknowledgeEvent? && events[n].message.event == k)
    ensures exists n :: i <= n <= j && k in run[n].entries && HasFailure(run[n].entries[k], n == j)
    decreases j
  {
    if i == j {
      assert HasFailure(run[j].entries[k], true);
    } else {
      FailureIsRetained(run, events, i, j - 1, k);
      var n :| i <= n <= j - 1 && k in run[n].entries && HasFailure(run[n].entries[k], n == j - 1);
      if n == j - 1 && !run[n].entries[k].complete {
        var f := KeyingExists();
        RunKeepsInv(run, events, f, n);
        FailureStays(run[n], events[n], f, k);
        assert HasFailure(run[j].entries[k], true);
      } else {
        assert HasFailure(run[n].entries[k], false);
      }
    }
  }

  /** Either the failure is still recorded (at the end), or every part has been delivered. */
  predicate HasFailure(e: Entry, last: bool) {
    if e.complete then e.generated && e.nextPart == |e.parts| && e.error.None? else last && e.error.Some?
  }

  // ---------------------------------------------------------------- the dispatcher

  class Dispatcher {
    const capacity: nat
    ghost const conversationOf: Key -> Key
    var entries: map<Key, Entry>
    var completed: seq<Key>
    var busy: map<Key, Flight>

    ghost function View(): State
      reads this
    {
      State(capacity, entries, completed, busy)
    }

    ghost predicate Valid()
      reads this
    {
      FullInv(View(), conversationOf) && Keying(conversationOf)
    }

    constructor (capacity: nat)
      requires 0 < capacity
      ensures Valid() && View() == Init(capacity)
    {
      this.capacity := capacity;
      entries, completed, busy := map[], [], map[];
      ghost var f := KeyingExists();
      conversationOf := f;
    }

    /** The destructor of the conversation lease. */
    method Unlock(c: Key)
      modifies this`busy
      ensures View() == Free(old(View()), c)
    {
      busy := busy - {c};
    }

    /** Keeps the error with the entry and ends the call. */
    method EndWithError(c: Key, k: Key, kind: ErrorKind)
      requires k in entries
      modifies this
      ensures View() == Fail(old(View()), c, k, kind)
    {
      entries := entries[k := entries[k].(error := Some(kind))];
      Unlock(c);
    }

    /** `handle` up to the permission hook. */
    method Handle(m: Message) returns (reply: Reply)
      requires Valid() && Decoded(m)
      modifies this
      ensures Valid() && (View(), reply) == old(BeginHandle(View(), m))
    {
      SafeStep(View(), HandleEvent(m), conversationOf);
      var c := m.conversation;
      if !m.valid {
        return Refused(InvalidArgument);
      }
      if c in busy {
        return Refused(Conflict);
      }
      if |busy| >= capacity {
        return Refused(MailboxOverflowed);
      }
      busy := busy[c := Authorizing(m)];
      reply := Suspended;
    }

    /** `handle` after the permission hook, up to the start of the turn. */
    method AfterPermission(c: Key, allowed: bool) returns (reply: Reply)
      requires Valid() && c in busy && busy[c].Authorizing?
      modifies this
      ensures Valid() && (View(), reply) == old(Admit(View(), c, allowed))
    {
      SafeStep(View(), AdmitEvent(c, allowed), conversationOf);
      var m := busy[c].message;
      var k := m.event;
      if !allowed {
        Unlock(c);
        return Refused(PermissionDenied);
      }
      if k in entries {
        var e := entries[k];
        Unlock(c);
        return if e.error.Some? then Refused(e.error.value) else Delivered(e.partsSent, true);
      }
      if |entries| >= capacity {
        if completed == [] {
          Unlock(c);
          return Refused(MailboxOverflowed);
        }
        entries, completed := entries - {completed[0]}, completed[1..];
      }
      entries := entries[k := NewEntry(m)];
      busy := busy[c := RunningTurn(k)];
      reply := Suspended;
    }

    /** Sends the next part, or finishes the delivery when none is left. */
    method DeliverNext(c: Key, k: Key, renders: Result<()>, resumed: bool) returns (reply: Reply)
      requires k in entries
      modifies this
      ensures (View(), reply) == old(Deliver(View(), c, k, renders, resumed))
    {
      var e := entries[k];
      if e.nextPart < |e.parts| {
        if renders.Err? {
          EndWithError(c, k, renders.kind);
          return Refused(renders.kind);
        }
        busy := busy[c := SendingPart(k, resumed)];
        return Suspended;
      }
      entries := entries[k := e.(complete := true, error := None)];
      completed := completed + [k];
      Unlock(c);
      reply := Delivered(e.partsSent, false);
    }

    /** The turn's answer is stored before anything is sent. */
    method AfterTurn(c: Key, answer: TurnOutcome, cancelled: bool, renders: Result<()>) returns (reply: Reply)
      requires Valid() && c in busy && busy[c].RunningTurn?
      modifies this
      ensures Valid()
      ensures (View(), reply) == old(TurnDone(View(), c, answer, cancelled, renders))
    {
      SafeStep(View(), TurnEvent(c, answer, cancelled, renders), conversationOf);
      var k := busy[c].key;
      if !answer.Parts? {
        var kind := if answer.TurnFailed? && cancelled then Cancelled else answer.kind;
        EndWithError(c, k, kind);
        return Refused(kind);
      }
      entries := entries[k := entries[k].(parts := answer.parts, generated := true)];
      if cancelled {
        EndWithError(c, k, Cancelled);
        return Refused(Cancelled);
      }
      reply := DeliverNext(c, k, renders, false);
    }

    method AfterSend(c: Key, outcome: SendOutcome, renders: Result<()>) returns (reply: Reply)
      requires Valid() && c in busy && busy[c].SendingPart?
      modifies this
      ensures Valid()
      ensures (View(), reply) == old(SendDone(View(), c, outcome, renders))
    {
      SafeStep(View(), SendEvent(c, outcome, renders), conversationOf);
      var k, resumed := busy[c].key, busy[c].resumed;
      match outcome
      case SendFailed(kind) =>
        EndWithError(c, k, kind);
        reply := Refused(kind);
      case SendRaised =>
        if resumed {
          Unlock(c);
        } else {
          EndWithError(c, k, Internal);
        }
        reply := Refused(Internal);
      case Receipt =>
        entries := entries[k := Confirmed(entries[k])];
        reply := DeliverNext(c, k, renders, resumed);
    }

    /** `resume` up to the permission hook. */
    method Resume(m: Message, next: nat) returns (reply: Reply)
      requires Valid() && Decoded(m)
      modifies this
      ensures Valid() && (View(), reply) == old(BeginResume(View(), m, next))
    {
      ghost var s := View();
      SafeStep(s, ResumeEvent(m, next), conversationOf);
      reply := LockForResume(m, next);
      assert View() == Step(s, ResumeEvent(m, next)).0;
    }

    method LockForResume(m: Message, next: nat) returns (reply: Reply)
      modifies this`busy
      ensures (View(), reply) == old(BeginResume(View(), m, next))
    {
      var c, k := m.conversation, m.event;
      if c in busy {
        return Refused(Conflict);
      }
      if k !in entries || !entries[k].generated || entries[k].complete {
        return Refused(NotFound);
      }
      if next < entries[k].nextPart || next > |entries[k].parts| {
        return Refused(InvalidArgument);
      }
      busy := busy[c := Resuming(k, next)];
      reply := Suspended;
    }

    method AfterResumePermission(c: Key, allowed: bool, renders: Result<()>) returns (reply: Reply)
      requires Valid() && c in busy && busy[c].Resuming?
      modifies this
      ensures Valid()
      ensures (View(), reply) == old(ResumeAdmit(View(), c, allowed, renders))
    {
      ghost var s := View();
      SafeStep(s, ResumeAdmitEvent(c, allowed, renders), conversationOf);
      reply := ContinueFrom(c, allowed, renders);
      assert View() == Step(s, ResumeAdmitEvent(c, allowed, renders)).0;
    }

    method ContinueFrom(c: Key, allowed: bool, renders: Result<()>) returns (reply: Reply)
      requires c in busy && busy[c].Resuming? && busy[c].key in entries
      modifies this
      ensures (View(), reply) == old(ResumeAdmit(View(), c, allowed, renders))
    {
      var k, next := busy[c].key, busy[c].next;
      if !allowed {
        Unlock(c);
        return Refused(PermissionDenied);
      }
      entries := entries[k := entries[k].(nextPart := next, partsSent := next)];
      reply := DeliverNext(c, k, renders, true);
    }

    method AcknowledgeFailure(m: Message) returns (reply: Reply)
      requires Valid() && Decoded(m)
      modifies this
      ensures Valid() && (View(), reply) == old(Acknowledge(View(), m))
    {
      ghost var s := View();
      SafeStep(s, AcknowledgeEvent(m), conversationOf);
      reply := MarkHandled(m);
      assert View() == Step(s, AcknowledgeEvent(m)).0;
    }

    method MarkHandled(m: Message) returns (reply: Reply)
      modifies this
      ensures (View(), reply) == old(Acknowledge(View(), m))
    {
      var c, k := m.conversation, m.event;
      if c in busy {
        return Refused(Conflict);
      }
      if k !in entries || entries[k].error.None? {
        return Refused(NotFound);
      }
      if !entries[k].complete {
        entries := entries[k := entries[k].(complete := true)];
        completed := completed + [k];
      }
      reply := Noted;
    }
  }
}

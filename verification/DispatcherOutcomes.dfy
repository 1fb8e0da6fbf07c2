/** What each call of the dispatcher comes to (src/oran-channel/dispatcher.cpp), field by field: which
    messages are admitted, what a turn's answer becomes, how a delivery goes on and ends. */
module DispatcherOutcomes {
  import opened Core
  import opened Dispatcher

  /** Nothing but the entry `k` and the call of conversation `c` differs. */
  predicate OnlyTouches(s: State, t: State, c: Key, k: Key) {
    && t.capacity == s.capacity
    && (forall j :: j in s.entries && j != k ==> j in t.entries && t.entries[j] == s.entries[j])
    && (forall j :: j in t.entries && j != k ==> j in s.entries)
    && (forall d :: d in s.busy && d != c ==> d in t.busy && t.busy[d] == s.busy[d])
    && (forall d :: d in t.busy && d != c ==> d in s.busy)
  }

  /** The call has ended and left the cache as it was. */
  predicate EndsQuietly(s: State, t: State, c: Key) {
    t.capacity == s.capacity && t.entries == s.entries && t.completed == s.completed && t.busy == s.busy - {c}
  }

  /** The call has ended with an error that is recorded with its entry, which is otherwise unchanged. */
  predicate EndsFailed(s: State, t: State, c: Key, k: Key, kind: ErrorKind) {
    && OnlyTouches(s, t, c, k) && c !in t.busy && t.completed == s.completed
    && k in s.entries && k in t.entries
    && t.entries[k] == s.entries[k].(error := t.entries[k].error) && t.entries[k].error == Some(kind)
  }

  // ---------------------------------------------------------------- handling

  /** A message is taken up exactly if it is valid, its conversation is idle and a place is free. */
  lemma HandleTakesUp(s: State, m: Message)
    ensures var (t, reply) := Step(s, HandleEvent(m));
      && (reply.Suspended? <==> m.valid && m.conversation !in s.busy && |s.busy| < s.capacity)
      && (reply.Suspended? ==>
            && t.entries == s.entries && t.completed == s.completed && t.capacity == s.capacity
            && t.busy == s.busy[m.conversation := Authorizing(m)])
      && (!reply.Suspended? ==> t == s)
    ensures var reply := Step(s, HandleEvent(m)).1;
      && (!m.valid ==> reply == Refused(InvalidArgument))
      && (m.valid && m.conversation in s.busy ==> reply == Refused(Conflict))
      && (m.valid && m.conversation !in s.busy && |s.busy| >= s.capacity ==> reply == Refused(MailboxOverflowed))
  {
  }

  /** A message that was not permitted leaves no trace. */
  lemma DeniedLeavesNoTrace(s: State, c: Key)
    requires c in s.busy && s.busy[c].Authorizing?
    ensures Step(s, AdmitEvent(c, false)).1 == Refused(PermissionDenied)
    ensures EndsQuietly(s, Step(s, AdmitEvent(c, false)).0, c)
  {
  }

  /** A known event is answered with what is known about it, and nothing runs again. */
  lemma DuplicateIsAnswered(s: State, c: Key)
    requires c in s.busy && s.busy[c].Authorizing? && s.busy[c].message.event in s.entries
    ensures EndsQuietly(s, Step(s, AdmitEvent(c, true)).0, c)
    ensures var e := s.entries[s.busy[c].message.event];
      var reply := Step(s, AdmitEvent(c, true)).1;
      && (e.error.Some? ==> reply == Refused(e.error.value))
      && (e.error.None? ==> reply == Delivered(e.partsSent, true))
  {
  }

  /** A permitted new event gets an empty entry and its turn starts, exactly if there is a place in
      the cache or an entry is complete; only the oldest complete entry makes way, and only then. */
  lemma NewEventStarts(s: State, c: Key)
    requires c in s.busy && s.busy[c].Authorizing? && s.busy[c].message.event !in s.entries
    requires forall k :: k in s.completed ==> k in s.entries
    ensures var (t, reply) := Step(s, AdmitEvent(c, true));
      var room := |s.entries| < s.capacity;
      && (reply.Suspended? <==> room || s.completed != [])
      && (!reply.Suspended? ==> reply == Refused(MailboxOverflowed) && EndsQuietly(s, t, c))
    ensures var (t, reply) := Step(s, AdmitEvent(c, true));
      reply.Suspended? ==> Started(s, t, c, s.busy[c].message)
  {
    if s.completed != [] {
      assert s.completed[0] in s.completed;
    }
  }

  /** The turn of `m` runs on a fresh entry. */
  predicate Started(s: State, t: State, c: Key, m: Message) {
    var full := |s.entries| >= s.capacity;
    && t.capacity == s.capacity
    && t.busy == s.busy[c := RunningTurn(m.event)]
    && m.event in t.entries && t.entries[m.event] == Entry(m, [], 0, 0, false, false, None, [])
    && (full ==> s.completed != [] && t.completed == s.completed[1..] && s.completed[0] !in t.entries)
    && (!full ==> t.completed == s.completed)
    && (forall k :: k in t.entries && k != m.event ==> k in s.entries && t.entries[k] == s.entries[k])
    && (forall k :: k in s.entries && !(full && k == s.completed[0]) ==> k in t.entries)
  }

  // ---------------------------------------------------------------- the turn

  /** The call is about to send the next part of entry `k`. */
  predicate Sends(s: State, t: State, c: Key, k: Key, resumed: bool) {
    && OnlyTouches(s, t, c, k) && t.completed == s.completed
    && c in t.busy && t.busy[c] == SendingPart(k, resumed)
    && k in t.entries && !t.entries[k].complete
  }

  /** The call has delivered entry `k`, which may now be forgotten. */
  predicate Delivers(s: State, t: State, c: Key, k: Key) {
    && OnlyTouches(s, t, c, k) && c !in t.busy
    && k in t.entries && t.entries[k].complete && t.entries[k].error.None? && t.completed == s.completed + [k]
  }

  /** The answer of a turn is stored with its entry, whatever becomes of it; then its first part is
      sent, or nothing is left to send, or the call ends with an error. */
  lemma AnswerIsStored(s: State, c: Key, ps: seq<string>, cancelled: bool, renders: Result<()>)
    requires c in s.busy && s.busy[c].RunningTurn? && s.busy[c].key in s.entries
    requires !s.entries[s.busy[c].key].complete && s.entries[s.busy[c].key].nextPart == 0
    ensures var (t, reply) := Step(s, TurnEvent(c, Parts(ps), cancelled, renders));
      var k := s.busy[c].key;
      && k in t.entries && t.entries[k].generated && t.entries[k].parts == ps
      && t.entries[k].nextPart == 0 && t.entries[k].confirmed == s.entries[k].confirmed
      && t.entries[k].partsSent == s.entries[k].partsSent && t.entries[k].message == s.entries[k].message
    ensures var (t, reply) := Step(s, TurnEvent(c, Parts(ps), cancelled, renders));
      AnswerGoesOut(s, t, c, ps, cancelled, renders, reply)
  {
  }

  predicate AnswerGoesOut(s: State, t: State, c: Key, ps: seq<string>, cancelled: bool, renders: Result<()>,
                          reply: Reply)
    requires c in s.busy && s.busy[c].RunningTurn? && s.busy[c].key in s.entries
  {
    var k := s.busy[c].key;
    var error := if cancelled then Some(Cancelled) else if ps != [] && renders.Err? then Some(renders.kind) else None;
    if error.Some? then
      && reply == Refused(error.value) && OnlyTouches(s, t, c, k) && c !in t.busy && t.completed == s.completed
      && k in t.entries && t.entries[k].error == error && !t.entries[k].complete
    else if ps != [] then
      reply == Suspended && Sends(s, t, c, k, false)
    else
      reply == Delivered(s.entries[k].partsSent, false) && Delivers(s, t, c, k)
  }

  /** A turn without an answer to send leaves its error; a cancelled call that failed counts as
      cancelled. */
  lemma TurnErrorIsRecorded(s: State, c: Key, answer: TurnOutcome, cancelled: bool, renders: Result<()>)
    requires c in s.busy && s.busy[c].RunningTurn? && s.busy[c].key in s.entries && !answer.Parts?
    ensures var (t, reply) := Step(s, TurnEvent(c, answer, cancelled, renders));
      var kind := if cancelled && answer.TurnFailed? then Cancelled else answer.kind;
      reply == Refused(kind) && EndsFailed(s, t, c, s.busy[c].key, kind)
  {
  }

  // ---------------------------------------------------------------- sending

  /** A receipt confirms exactly the next part; then the one after it is sent, or the delivery is
      over and says how many parts went out, or what is left cannot be rendered. */
  lemma ReceiptConfirmsOne(s: State, c: Key, renders: Result<()>)
    requires c in s.busy && s.busy[c].SendingPart? && s.busy[c].key in s.entries
    requires GoodFlight(s, c, s.busy[c])
    ensures var (t, reply) := Step(s, SendEvent(c, Receipt, renders));
      var k := s.busy[c].key;
      && k in t.entries
      && t.entries[k].confirmed == s.entries[k].confirmed + [s.entries[k].nextPart]
      && t.entries[k].nextPart == s.entries[k].nextPart + 1 && t.entries[k].partsSent == s.entries[k].partsSent + 1
      && t.entries[k].parts == s.entries[k].parts && t.entries[k].message == s.entries[k].message
    ensures var (t, reply) := Step(s, SendEvent(c, Receipt, renders));
      var k := s.busy[c].key;
      var left := s.entries[k].nextPart + 1 < |s.entries[k].parts|;
      && (left && renders.Ok? ==> reply == Suspended && Sends(s, t, c, k, s.busy[c].resumed))
      && (left && renders.Err? ==> reply == Refused(renders.kind) && c !in t.busy && t.entries[k].error == Some(renders.kind)
                                   && !t.entries[k].complete && OnlyTouches(s, t, c, k))
      && (!left ==> reply == Delivered(s.entries[k].partsSent + 1, false) && Delivers(s, t, c, k))
  {
  }

  /** A failed send confirms nothing and leaves its error. */
  lemma SendErrorIsRecorded(s: State, c: Key, kind: ErrorKind, renders: Result<()>)
    requires c in s.busy && s.busy[c].SendingPart? && s.busy[c].key in s.entries
    ensures var (t, reply) := Step(s, SendEvent(c, SendFailed(kind), renders));
      reply == Refused(kind) && EndsFailed(s, t, c, s.busy[c].key, kind)
  {
  }

  /** An exception while handling leaves an internal error; one while resuming leaves the failure
      that was there. */
  lemma ExceptionIsRecorded(s: State, c: Key, renders: Result<()>)
    requires c in s.busy && s.busy[c].SendingPart? && s.busy[c].key in s.entries
    ensures var (t, reply) := Step(s, SendEvent(c, SendRaised, renders));
      && reply == Refused(Internal)
      && (s.busy[c].resumed ==> EndsQuietly(s, t, c))
      && (!s.busy[c].resumed ==> EndsFailed(s, t, c, s.busy[c].key, Internal))
  {
  }

  // ---------------------------------------------------------------- recovery

  /** A delivery can be resumed exactly when it is idle, has an answer and is not complete, from any
      part that is not confirmed yet. */
  lemma ResumeTakesUp(s: State, m: Message, next: nat)
    ensures var (t, reply) := Step(s, ResumeEvent(m, next));
      var idle, k := m.conversation !in s.busy, m.event;
      var pending := k in s.entries && s.entries[k].generated && !s.entries[k].complete;
      && (reply.Suspended? <==> idle && pending && s.entries[k].nextPart <= next <= |s.entries[k].parts|)
      && (reply.Suspended? ==>
            && t.entries == s.entries && t.completed == s.completed && t.capacity == s.capacity
            && t.busy == s.busy[m.conversation := Resuming(k, next)])
      && (!reply.Suspended? ==>
            && t == s
            && reply == Refused(if !idle then Conflict else if !pending then NotFound else InvalidArgument))
  {
  }

  /** A permitted resume goes on from its part: what lies before counts as sent, and the parts and
      what was confirmed stay. */
  lemma ResumeGoesOn(s: State, c: Key, renders: Result<()>)
    requires c in s.busy && s.busy[c].Resuming? && s.busy[c].key in s.entries && GoodFlight(s, c, s.busy[c])
    ensures var (t, reply) := Step(s, ResumeAdmitEvent(c, true, renders));
      var k, next := s.busy[c].key, s.busy[c].next;
      && k in t.entries && t.entries[k].nextPart == t.entries[k].partsSent == next
      && t.entries[k].parts == s.entries[k].parts && t.entries[k].confirmed == s.entries[k].confirmed
    ensures var (t, reply) := Step(s, ResumeAdmitEvent(c, true, renders));
      var k, next := s.busy[c].key, s.busy[c].next;
      var left := next < |s.entries[k].parts|;
      && (left && renders.Ok? ==> reply == Suspended && Sends(s, t, c, k, true))
      && (left && renders.Err? ==> reply == Refused(renders.kind) && c !in t.busy && t.entries[k].error == Some(renders.kind)
                                   && !t.entries[k].complete && OnlyTouches(s, t, c, k))
      && (!left ==> reply == Delivered(next, false) && Delivers(s, t, c, k))
  {
  }

  lemma DeniedResumeLeavesNoTrace(s: State, c: Key, renders: Result<()>)
    requires c in s.busy && s.busy[c].Resuming? && s.busy[c].key in s.entries
    ensures Step(s, ResumeAdmitEvent(c, false, renders)).1 == Refused(PermissionDenied)
    ensures EndsQuietly(s, Step(s, ResumeAdmitEvent(c, false, renders)).0, c)
  {
  }

  /** A recorded failure of an idle conversation may be forgotten once it was acknowledged; its error
      still answers duplicates until then. */
  lemma AcknowledgementCompletes(s: State, m: Message)
    ensures var (t, reply) := Step(s, AcknowledgeEvent(m));
      var k := m.event;
      var failed := m.conversation !in s.busy && k in s.entries && s.entries[k].error.Some?;
      && (reply == Noted <==> failed)
      && (failed ==>
            && t.busy == s.busy && OnlyTouches(s, t, m.conversation, k) && k in t.entries && t.entries[k].complete
            && t.entries[k] == s.entries[k].(complete := true)
            && t.completed == (if s.entries[k].complete then s.completed else s.completed + [k]))
      && (!failed ==> t == s && reply == Refused(if m.conversation in s.busy then Conflict else NotFound))
  {
    if m.event in s.entries && s.entries[m.event].complete {
      assert s.entries[m.event].(complete := true) == s.entries[m.event];
    }
  }

  // ---------------------------------------------------------------- whole deliveries

  function Upto(n: nat): (r: seq<nat>)
    ensures |r| == n && forall i :: 0 <= i < n ==> r[i] == i
  {
    seq(n, i => i)
  }

  /** The reply says as many parts as were passed. */
  ghost predicate CountsParts(s: State) {
    forall k :: k in s.entries ==> s.entries[k].partsSent == s.entries[k].nextPart
  }

  lemma StepCountsParts(s: State, e: Event)
    requires CountsParts(s)
    ensures CountsParts(Step(s, e).0)
  {
  }

  lemma {:induction false} RunCountsParts(run: seq<State>, events: seq<Event>, n: nat)
    requires Run(run, events) && run[0] == Init(run[0].capacity) && n < |run|
    ensures CountsParts(run[n])
  {
    if n > 0 {
      RunCountsParts(run, events, n - 1);
      StepCountsParts(run[n - 1], events[n - 1]);
    }
  }

  /** The turn of `k` ends with the parts `ps`. */
  predicate AnswersWith(s: State, e: Event, k: Key, ps: seq<string>) {
    e.TurnEvent? && InTurn(s, e.conversation, k) && e.answer == Parts(ps)
  }

  /** The host resumes the delivery of `k` behind a part that was not confirmed. */
  predicate Skips(s: State, e: Event, k: Key) {
    && e.ResumeAdmitEvent? && e.allowed && e.conversation in s.busy && s.busy[e.conversation].Resuming?
    && s.busy[e.conversation].key == k && k in s.entries && s.busy[e.conversation].next > s.entries[k].nextPart
  }

  /** Entry `k` holds the parts `ps`, and what it has confirmed is the first of them in order. */
  predicate InSequence(s: State, k: Key, ps: seq<string>) {
    && k in s.entries && s.entries[k].generated && s.entries[k].parts == ps
    && s.entries[k].confirmed == Upto(s.entries[k].nextPart)
    && (s.entries[k].complete && s.entries[k].error.None? ==> s.entries[k].nextPart == |ps|)
  }

  lemma AnswerIsInSequence(s: State, e: Event, f: Key -> Key, k: Key, ps: seq<string>)
    requires FullInv(s, f) && AnswersWith(s, e, k, ps)
    ensures InSequence(Step(s, e).0, k, ps)
  {
    assert GoodFlight(s, e.conversation, s.busy[e.conversation]);
    AnswerIsStored(s, e.conversation, ps, e.cancelled, e.renders);
  }

  lemma SendStaysInSequence(s: State, c: Key, outcome: SendOutcome, renders: Result<()>, k: Key, ps: seq<string>)
    requires InSequence(s, k, ps)
    requires c in s.busy && s.busy[c].SendingPart? && GoodFlight(s, c, s.busy[c]) && Consistent(s, c)
    ensures InSequence(Step(s, SendEvent(c, outcome, renders)).0, k, ps)
  {
    if s.busy[c].key == k && outcome.Receipt? {
      ReceiptConfirmsOne(s, c, renders);
      assert Upto(s.entries[k].nextPart + 1) == Upto(s.entries[k].nextPart) + [s.entries[k].nextPart];
    }
  }

  lemma ResumeStaysInSequence(s: State, c: Key, allowed: bool, renders: Result<()>, k: Key, ps: seq<string>)
    requires InSequence(s, k, ps) && !Skips(s, ResumeAdmitEvent(c, allowed, renders), k)
    requires c in s.busy && s.busy[c].Resuming? && GoodFlight(s, c, s.busy[c]) && Consistent(s, c)
    ensures InSequence(Step(s, ResumeAdmitEvent(c, allowed, renders)).0, k, ps)
  {
    if allowed {
      ResumeGoesOn(s, c, renders);
    }
  }

  lemma TurnLeavesOthers(s: State, e: Event, k: Key, ps: seq<string>)
    requires e.TurnEvent? && InSequence(s, k, ps) && Consistent(s, e.conversation)
    ensures InSequence(Step(s, e).0, k, ps)
  {
  }

  lemma StaysInSequence(s: State, e: Event, f: Key -> Key, k: Key, ps: seq<string>)
    requires FullInv(s, f) && InSequence(s, k, ps) && !Skips(s, e, k) && k in Step(s, e).0.entries
    ensures InSequence(Step(s, e).0, k, ps)
  {
    if e.TurnEvent? || e.SendEvent? || e.ResumeAdmitEvent? {
      var c := e.conversation;
      if c in s.busy && !s.busy[c].Authorizing? {
        assert GoodFlight(s, c, s.busy[c]) && Consistent(s, c);
        match e
        case TurnEvent(_, _, _, _) => TurnLeavesOthers(s, e, k, ps);
        case SendEvent(_, outcome, renders) =>
          if s.busy[c].SendingPart? {
            SendStaysInSequence(s, c, outcome, renders, k, ps);
          }
        case ResumeAdmitEvent(_, allowed, renders) =>
          if s.busy[c].Resuming? {
            ResumeStaysInSequence(s, c, allowed, renders, k, ps);
          }
      }
    }
  }

  lemma AnswerStep(run: seq<State>, events: seq<Event>, i: nat, k: Key, ps: seq<string>)
    requires Run(run, events) && run[0].capacity > 0 && run[0] == Init(run[0].capacity) && i < |events|
    requires AnswersWith(run[i], events[i], k, ps)
    ensures InSequence(run[i + 1], k, ps)
  {
    var f := KeyingExists();
    RunKeepsInv(run, events, f, i);
    AnswerIsInSequence(run[i], events[i], f, k, ps);
  }

  lemma SequenceStep(run: seq<State>, events: seq<Event>, n: nat, k: Key, ps: seq<string>)
    requires Run(run, events) && run[0].capacity > 0 && run[0] == Init(run[0].capacity) && n < |events|
    requires InSequence(run[n], k, ps) && !Skips(run[n], events[n], k) && k in run[n + 1].entries
    ensures InSequence(run[n + 1], k, ps)
  {
    var f := KeyingExists();
    RunKeepsInv(run, events, f, n);
    StaysInSequence(run[n], events[n], f, k, ps);
  }

  lemma {:induction false} KeptInSequence(run: seq<State>, events: seq<Event>, i: nat, j: nat, k: Key, ps: seq<string>)
    requires Run(run, events) && run[0].capacity > 0 && run[0] == Init(run[0].capacity) && i < j < |run|
    requires AnswersWith(run[i], events[i], k, ps)
    requires forall n :: i < n < j ==> !Skips(run[n], events[n], k)
    requires forall n :: i <= n <= j ==> k in run[n].entries
    ensures InSequence(run[j], k, ps)
    decreases j
  {
    if j == i + 1 {
      AnswerStep(run, events, i, k, ps);
    } else {
      KeptInSequence(run, events, i, j - 1, k, ps);
      SequenceStep(run, events, j - 1, k, ps);
    }
  }

  /** Step `n` completes entry `k`, and not because a failure was acknowledged. */
  predicate Finishes(run: seq<State>, events: seq<Event>, n: nat, k: Key) {
    && n < |events| && n + 1 < |run| && k in run[n].entries && k in run[n + 1].entries
    && !run[n].entries[k].complete && run[n + 1].entries[k].complete && !events[n].AcknowledgeEvent?
  }

  /** Over every run: a delivery that comes to its end and in which nothing was skipped has confirmed
      every part of its own turn's answer once and in order, and replies with their number. */
  lemma DeliveryIsComplete(run: seq<State>, events: seq<Event>, i: nat, j: nat, k: Key, ps: seq<string>)
    requires Run(run, events) && run[0].capacity > 0 && run[0] == Init(run[0].capacity) && i <= j < |events|
    requires AnswersWith(run[i], events[i], k, ps) && Finishes(run, events, j, k)
    requires forall n :: i < n <= j ==> !Skips(run[n], events[n], k)
    requires forall n :: i <= n <= j ==> k in run[n].entries
    ensures run[j + 1].entries[k].parts == ps && run[j + 1].entries[k].error.None?
    ensures run[j + 1].entries[k].confirmed == Upto(|ps|)
    ensures Step(run[j], events[j]).1 == Delivered(|ps|, false)
  {
    KeptInSequence(run, events, i, j + 1, k, ps);
    RunCountsParts(run, events, j);
    var f := KeyingExists();
    RunKeepsInv(run, events, f, j);
    FinishReplies(run[j], events[j], f, k);
  }

  lemma FinishReplies(s: State, e: Event, f: Key -> Key, k: Key)
    requires FullInv(s, f) && CountsParts(s) && k in s.entries && !s.entries[k].complete && !e.AcknowledgeEvent?
    requires k in Step(s, e).0.entries && Step(s, e).0.entries[k].complete
    ensures RepliesDelivered(Step(s, e).0, Step(s, e).1, k)
  {
    var c := e.conversation;
    assert c in s.busy && GoodFlight(s, c, s.busy[c]) && Consistent(s, c);
    CallFinishReplies(s, e, k);
  }

  predicate RepliesDelivered(t: State, reply: Reply, k: Key) {
    && k in t.entries && t.entries[k].error.None? && t.entries[k].nextPart == |t.entries[k].parts|
    && reply == Delivered(t.entries[k].nextPart, false)
  }

  lemma CallFinishReplies(s: State, e: Event, k: Key)
    requires e.TurnEvent? || e.SendEvent? || e.ResumeAdmitEvent?
    requires e.conversation in s.busy && GoodFlight(s, e.conversation, s.busy[e.conversation])
    requires k in s.entries && !s.entries[k].complete && s.entries[k].partsSent == s.entries[k].nextPart
    requires k in Step(s, e).0.entries && Step(s, e).0.entries[k].complete
    ensures RepliesDelivered(Step(s, e).0, Step(s, e).1, k)
  {
    match e
    case TurnEvent(c, Parts(ps), cancelled, renders) => AnswerIsStored(s, c, ps, cancelled, renders);
    case SendEvent(c, Receipt, renders) => ReceiptConfirmsOne(s, c, renders);
    case ResumeAdmitEvent(c, true, renders) => ResumeGoesOn(s, c, renders);
    case _ =>
  }

  /** The send of conversation `c` succeeds and what is left can be rendered. */
  predicate Succeeds(e: Event, c: Key) {
    e.SendEvent? && e.conversation == c && e.outcome.Receipt? && e.renders.Ok?
  }

  /** Of the delivery of `ps` under `k` exactly the first `m` parts are confirmed; while some are left
      the next one is being sent. */
  predicate Underway(s: State, c: Key, k: Key, ps: seq<string>, m: nat) {
    && k in s.entries && s.entries[k].parts == ps && s.entries[k].confirmed == Upto(m)
    && s.entries[k].nextPart == s.entries[k].partsSent == m
    && (s.entries[k].complete <==> m == |ps|)
    && if m < |ps| then c in s.busy && s.busy[c] == SendingPart(k, false)
       else c !in s.busy && s.entries[k].error.None?
  }

  lemma FirstIsSent(s: State, e: Event, f: Key -> Key, k: Key, ps: seq<string>)
    requires FullInv(s, f) && CountsParts(s) && AnswersWith(s, e, k, ps) && !e.cancelled && e.renders.Ok?
    ensures Underway(Step(s, e).0, e.conversation, k, ps, 0)
    ensures Step(s, e).1 == if 0 < |ps| then Suspended else Delivered(0, false)
  {
    assert GoodFlight(s, e.conversation, s.busy[e.conversation]);
    AnswerIsStored(s, e.conversation, ps, false, e.renders);
  }

  lemma NextIsSent(s: State, e: Event, c: Key, f: Key -> Key, k: Key, ps: seq<string>, m: nat)
    requires FullInv(s, f) && Underway(s, c, k, ps, m) && m < |ps| && Succeeds(e, c)
    ensures Underway(Step(s, e).0, c, k, ps, m + 1)
    ensures Step(s, e).1 == if m + 1 < |ps| then Suspended else Delivered(|ps|, false)
  {
    assert GoodFlight(s, c, s.busy[c]);
    ReceiptConfirmsOne(s, c, e.renders);
    assert Upto(m + 1) == Upto(m) + [m];
  }

  /** A turn that is answered with sendable parts and whose sends all succeed delivers them all: after
      `m` receipts exactly the first `m` parts are confirmed, and after the last one it is complete. */
  lemma {:induction false} EverySendSucceeds(run: seq<State>, events: seq<Event>, i: nat, k: Key, ps: seq<string>,
                                             m: nat)
    requires Run(run, events) && run[0].capacity > 0 && run[0] == Init(run[0].capacity)
    requires i + |ps| < |events| && m <= |ps|
    requires AnswersWith(run[i], events[i], k, ps) && !events[i].cancelled && events[i].renders.Ok?
    requires forall n :: i < n <= i + |ps| ==> Succeeds(events[n], events[i].conversation)
    ensures Underway(run[i + 1 + m], events[i].conversation, k, ps, m)
    ensures Step(run[i + m], events[i + m]).1 == if m < |ps| then Suspended else Delivered(|ps|, false)
  {
    var f := KeyingExists();
    RunKeepsInv(run, events, f, i + m);
    if m == 0 {
      RunCountsParts(run, events, i);
      FirstIsSent(run[i], events[i], f, k, ps);
    } else {
      EverySendSucceeds(run, events, i, k, ps, m - 1);
      NextIsSent(run[i + m], events[i + m], events[i].conversation, f, k, ps, m - 1);
    }
  }
}

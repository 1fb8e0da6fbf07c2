/** The Telegram journal document (apps/telegram/state.cpp): what a saved state looks like and
    when reading it back gives the same state. */
module Journal {
  import opened Core

  datatype Json =
    | JNull
    | JBool(flag: bool)
    | JInt(number: int)
    | JString(text: string)
    | JObject(fields: map<string, Json>)

  const MAX_INT64: int := 0x7FFF_FFFF_FFFF_FFFF
  const MIN_INT64: int := -0x8000_0000_0000_0000

  // ---------------------------------------------------------------- turn ids

  /** Sixteen bytes, as session and task identities. */
  type TurnId = id: seq<int> | |id| == 16 && forall k :: 0 <= k < 16 ==> 0 <= id[k] < 256
    witness [0, 0, 0, 0, 0, 0, 0, 0, 0, 0, 0, 0, 0, 0, 0, 0]

  predicate IsZero(id: TurnId) {
    forall k :: 0 <= k < 16 ==> id[k] == 0
  }

  function HexDigit(n: int): char
    requires 0 <= n < 16
  {
    "0123456789abcdef"[n]
  }

  function DigitValue(c: char): (v: Option<int>)
    ensures v.Some? ==> 0 <= v.value < 16 && HexDigit(v.value) == c
    ensures forall n :: 0 <= n < 16 && HexDigit(n) == c ==> v == Some(n)
  {
    if '0' <= c <= '9' then Some((c - '0') as int)
    else if 'a' <= c <= 'f' then Some((c - 'a') as int + 10)
    else None
  }

  function FormatHex(id: TurnId): (s: string)
    ensures |s| == 32
  {
    seq(32, k requires 0 <= k < 32 => HexDigit(if k % 2 == 0 then id[k / 2] / 16 else id[k / 2] % 16))
  }

  predicate IsHexId(s: string) {
    |s| == 32 && forall k :: 0 <= k < 32 ==> DigitValue(s[k]).Some?
  }

  function ParseHex(s: string): (r: Option<TurnId>)
    ensures r.Some? <==> IsHexId(s)
  {
    if IsHexId(s) then
      Some(seq(16, k requires 0 <= k < 16 => DigitValue(s[2 * k]).value * 16 + DigitValue(s[2 * k + 1]).value))
    else None
  }

  lemma ParseFormat(id: TurnId)
    ensures ParseHex(FormatHex(id)) == Some(id)
  {
    var s := FormatHex(id);
    forall k | 0 <= k < 32 ensures DigitValue(s[k]).Some? {
      var n := if k % 2 == 0 then id[k / 2] / 16 else id[k / 2] % 16;
      assert 0 <= n < 16 && HexDigit(n) == s[k];
    }
    var back := ParseHex(s).value;
    forall k | 0 <= k < 16 ensures back[k] == id[k] {
      assert s[2 * k] == HexDigit(id[k] / 16) && s[2 * k + 1] == HexDigit(id[k] % 16);
    }
    assert back == id;
  }

  /** A task id names a background run: a nonzero turn id in hex. */
  predicate IsTaskId(s: string) {
    IsHexId(s) && !IsZero(ParseHex(s).value)
  }

  // ---------------------------------------------------------------- states

  datatype Pending = Pending(update: Json, answer: Option<string>, confirmed: nat, inflight: bool, taskId: string)

  datatype State = State(bot: string, user: string, workspace: string, session: TurnId, nextUpdate: int,
                         pending: Option<Pending>)

  function EncodePending(p: Pending): Json {
    var fields := map[
      "update" := p.update,
      "answer" := if p.answer.Some? then JString(p.answer.value) else JNull,
      "confirmed_parts" := JInt(p.confirmed),
      "send_inflight" := JBool(p.inflight)];
    JObject(if p.taskId == "" then fields else fields["task_id" := JString(p.taskId)])
  }

  function Encode(s: State): Json {
    JObject(map[
      "bot" := JString(s.bot),
      "user" := JString(s.user),
      "workspace" := JString(s.workspace),
      "session" := JString(FormatHex(s.session)),
      "next_update" := JInt(s.nextUpdate),
      "pending" := if s.pending.Some? then EncodePending(s.pending.value) else JNull])
  }

  function Field(j: Json, key: string): Option<Json> {
    if j.JObject? && key in j.fields then Some(j.fields[key]) else None
  }

  function StringField(j: Json, key: string): Option<string> {
    var f := Field(j, key);
    if f.Some? && f.value.JString? then Some(f.value.text) else None
  }

  /** An integer field that fits 64 bits; larger numbers are not read as integers. */
  function IntField(j: Json, key: string): Option<int> {
    var f := Field(j, key);
    if f.Some? && f.value.JInt? && MIN_INT64 <= f.value.number <= MAX_INT64 then Some(f.value.number) else None
  }

  function UpdateId(update: Json): Option<int> {
    IntField(update, "update_id")
  }

  function DecodePending(j: Json, nextUpdate: int): Result<Pending> {
    var update, answer, inflight := Field(j, "update"), Field(j, "answer"), Field(j, "send_inflight");
    var count := IntField(j, "confirmed_parts");
    if update.None? || UpdateId(update.value).None? || UpdateId(update.value).value < nextUpdate
       || UpdateId(update.value).value == MAX_INT64 || count.None? || count.value < 0 then Err(Parsing)
    else if answer.None? || !(answer.value.JNull? || answer.value.JString?) then Err(Parsing)
    else if inflight.None? || !inflight.value.JBool? then Err(Parsing)
    else
      var task := Field(j, "task_id");
      if task.Some? && !task.value.JString? then Err(Parsing)
      else
        var taskId := if task.Some? then task.value.text else "";
        if taskId != "" && !IsTaskId(taskId) then Err(Parsing)
        else
          Ok(Pending(update.value, if answer.value.JNull? then None else Some(answer.value.text), count.value,
                     inflight.value.flag, taskId))
  }

  function Decode(j: Json): Result<State> {
    var session, next := StringField(j, "session"), IntField(j, "next_update");
    var bot, user, workspace := StringField(j, "bot"), StringField(j, "user"), StringField(j, "workspace");
    if session.None? || ParseHex(session.value).None? || IsZero(ParseHex(session.value).value) || next.None? then
      Err(Parsing)
    else if bot.None? || user.None? || workspace.None? || next.value < 0 || Field(j, "pending").None? then
      Err(Parsing)
    else
      var s := State(bot.value, user.value, workspace.value, ParseHex(session.value).value, next.value, None);
      var pending := Field(j, "pending").value;
      if pending.JNull? then Ok(s)
      else
        var p := DecodePending(pending, s.nextUpdate);
        if p.Err? then Err(p.kind) else Ok(s.(pending := Some(p.value)))
  }

  // ---------------------------------------------------------------- round trip

  predicate StorablePending(p: Pending, nextUpdate: int) {
    && UpdateId(p.update).Some? && nextUpdate <= UpdateId(p.update).value < MAX_INT64
    && p.confirmed <= MAX_INT64
    && (p.taskId == "" || IsTaskId(p.taskId))
  }

  /** Exactly the states that survive being saved and loaded. */
  predicate Storable(s: State) {
    && !IsZero(s.session)
    && 0 <= s.nextUpdate <= MAX_INT64
    && (s.pending.Some? ==> StorablePending(s.pending.value, s.nextUpdate))
  }

  lemma PendingFields(p: Pending)
    ensures var j := EncodePending(p);
      && Field(j, "update") == Some(p.update)
      && Field(j, "answer") == Some(if p.answer.Some? then JString(p.answer.value) else JNull)
      && Field(j, "confirmed_parts") == Some(JInt(p.confirmed))
      && Field(j, "send_inflight") == Some(JBool(p.inflight))
      && Field(j, "task_id") == if p.taskId == "" then None else Some(JString(p.taskId))
  {
  }

  lemma PendingRoundTrip(p: Pending, nextUpdate: int)
    ensures DecodePending(EncodePending(p), nextUpdate) ==
      if StorablePending(p, nextUpdate) then Ok(p) else Err(Parsing)
  {
    PendingFields(p);
  }

  lemma StateFields(s: State)
    ensures var j := Encode(s);
      && Field(j, "bot") == Some(JString(s.bot))
      && Field(j, "user") == Some(JString(s.user))
      && Field(j, "workspace") == Some(JString(s.workspace))
      && Field(j, "session") == Some(JString(FormatHex(s.session)))
      && Field(j, "next_update") == Some(JInt(s.nextUpdate))
      && Field(j, "pending") == Some(if s.pending.Some? then EncodePending(s.pending.value) else JNull)
  {
  }

  /** A saved state reads back as itself if and only if it is storable. */
  lemma RoundTrip(s: State)
    ensures Decode(Encode(s)) == if Storable(s) then Ok(s) else Err(Parsing)
  {
    StateFields(s);
    ParseFormat(s.session);
    var pending := if s.pending.Some? then EncodePending(s.pending.value) else JNull;
    if s.pending.Some? {
      PendingRoundTrip(s.pending.value, s.nextUpdate);
    }
    DecodeFields(Encode(s), s, FormatHex(s.session), pending);
  }

  /** Decoding looks at the fields only. */
  lemma DecodeFields(j: Json, s: State, hex: string, pending: Json)
    requires StringField(j, "bot") == Some(s.bot) && StringField(j, "user") == Some(s.user)
    requires StringField(j, "workspace") == Some(s.workspace)
    requires StringField(j, "session") == Some(hex) && ParseHex(hex) == Some(s.session)
    requires Field(j, "next_update") == Some(JInt(s.nextUpdate)) && Field(j, "pending") == Some(pending)
    requires s.pending.None? <==> pending.JNull?
    requires s.pending.Some? ==>
      DecodePending(pending, s.nextUpdate) ==
        (if StorablePending(s.pending.value, s.nextUpdate) then Ok(s.pending.value) else Err(Parsing))
    ensures Decode(j) == if Storable(s) then Ok(s) else Err(Parsing)
  {
    var next := IntField(j, "next_update");
    assert next == if MIN_INT64 <= s.nextUpdate <= MAX_INT64 then Some(s.nextUpdate) else None;
    if IsZero(s.session) || next.None? || next.value < 0 {
      assert Decode(j) == Err(Parsing);
    } else {
      var base := State(s.bot, s.user, s.workspace, s.session, s.nextUpdate, None);
      assert Decode(j) == if pending.JNull? then Ok(base)
        else if DecodePending(pending, s.nextUpdate).Err? then Err(DecodePending(pending, s.nextUpdate).kind)
        else Ok(base.(pending := Some(DecodePending(pending, s.nextUpdate).value)));
    }
  }

  /** The largest cursor is read back, but no record pending there is: its update id would have to be
      at least the cursor and below the largest number. */
  lemma LargestCursorHoldsNoRecord(s: State)
    requires s.nextUpdate == MAX_INT64 && !IsZero(s.session)
    ensures Decode(Encode(s)) == if s.pending.None? then Ok(s) else Err(Parsing)
  {
    RoundTrip(s);
  }

  /** Different storable states have different documents. */
  lemma EncodeInjective(s: State, t: State)
    requires Storable(s) && Storable(t) && Encode(s) == Encode(t)
    ensures s == t
  {
    RoundTrip(s);
    RoundTrip(t);
  }

  /** At start the journal must belong to this user and workspace and hold nothing unresolved. */
  function Load(journal: Option<Json>, user: string, workspace: string, freshId: Result<TurnId>): Result<State> {
    if journal.None? then
      if freshId.Err? then Err(freshId.kind) else Ok(State("", user, workspace, freshId.value, 0, None))
    else
      var s := Decode(journal.value);
      if s.Err? then Err(s.kind)
      else if s.value.user != user || s.value.workspace != workspace || s.value.pending.Some? then Err(Conflict)
      else Ok(s.value)
  }
}

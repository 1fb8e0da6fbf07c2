/** Keys of conversations and events (src/oran-channel/protocol.cpp, src/oran-channel/dispatcher.cpp):
    length-prefixed fields, so that different conversations or events never share a key. */
module ConversationKey {

  datatype Conversation = Conversation(platform: nat, account: string, kind: nat, chat: string, thread: string)

  // ---------------------------------------------------------------- decimal numerals

  function Digit(n: nat): char
    requires n < 10
  {
    "0123456789"[n]
  }

  function Decimal(n: nat): (s: string)
    ensures s != "" && ':' !in s
  {
    if n < 10 then [Digit(n)] else Decimal(n / 10) + [Digit(n % 10)]
  }

  lemma {:induction false} DecimalInjective(m: nat, n: nat)
    requires Decimal(m) == Decimal(n)
    ensures m == n
    decreases m
  {
    var s, t := Decimal(m), Decimal(n);
    assert s[|s| - 1] == Digit(m % 10) && t[|t| - 1] == Digit(n % 10);
    if m >= 10 && n >= 10 {
      assert Decimal(m / 10) == s[..|s| - 1] == t[..|t| - 1] == Decimal(n / 10);
      DecimalInjective(m / 10, n / 10);
    }
  }

  // ---------------------------------------------------------------- splitting a key again

  /** A field without the separator ends at the first separator. */
  lemma {:induction false} FieldSplits(a: string, r: string, b: string, q: string)
    requires ':' !in a && ':' !in b && a + ":" + r == b + ":" + q
    ensures a == b && r == q
  {
    var s := a + ":" + r;
    assert forall k :: 0 <= k < |a| ==> a[k] in a && s[k] == a[k];
    assert forall k :: 0 <= k < |b| ==> b[k] in b && s[k] == b[k];
    assert s[|a|] == ':' && s[|b|] == ':';
    assert |a| == |b|;
    assert a == s[..|a|] == b && r == s[|a| + 1..] == q;
  }

  /** A field of known length ends there. */
  lemma SizedSplits(a: string, r: string, b: string, q: string)
    requires |a| == |b| && a + r == b + q
    ensures a == b && r == q
  {
    assert a == (a + r)[..|a|] && r == (a + r)[|a|..];
    assert b == (b + q)[..|b|] && q == (b + q)[|b|..];
  }

  /** A numeral, then the rest. */
  function Numbered(n: nat, rest: string): string {
    Decimal(n) + ":" + rest
  }

  /** A text with its length in front, then the rest. */
  function Sized(text: string, rest: string): string {
    Numbered(|text|, text + rest)
  }

  lemma NumberedInjective(m: nat, r: string, n: nat, q: string)
    requires Numbered(m, r) == Numbered(n, q)
    ensures m == n && r == q
  {
    FieldSplits(Decimal(m), r, Decimal(n), q);
    DecimalInjective(m, n);
  }

  lemma SizedInjective(a: string, r: string, b: string, q: string)
    requires Sized(a, r) == Sized(b, q)
    ensures a == b && r == q
  {
    NumberedInjective(|a|, a + r, |b|, b + q);
    SizedSplits(a, r, b, q);
  }

  lemma SeparatorInjective(r: string, q: string)
    requires ":" + r == ":" + q
    ensures r == q
  {
    SizedSplits(":", r, ":", q);
  }

  // ---------------------------------------------------------------- the keys

  /** platform:size:account:kind:size:chat:size:thread, followed by `rest`. */
  function KeyThen(c: Conversation, rest: string): string {
    Numbered(c.platform, Sized(c.account, ":" + Numbered(c.kind, Sized(c.chat, ":" + Sized(c.thread, rest)))))
  }

  function Key(c: Conversation): string {
    KeyThen(c, "")
  }

  function EventKey(c: Conversation, eventId: string): string {
    Key(c) + ":" + eventId
  }

  lemma KeyThenInjective(c: Conversation, r: string, d: Conversation, q: string)
    requires KeyThen(c, r) == KeyThen(d, q)
    ensures c == d && r == q
  {
    var c4, d4 := Sized(c.thread, r), Sized(d.thread, q);
    var c3, d3 := Sized(c.chat, ":" + c4), Sized(d.chat, ":" + d4);
    var c2, d2 := Numbered(c.kind, c3), Numbered(d.kind, d3);
    NumberedInjective(c.platform, Sized(c.account, ":" + c2), d.platform, Sized(d.account, ":" + d2));
    SizedInjective(c.account, ":" + c2, d.account, ":" + d2);
    SeparatorInjective(c2, d2);
    NumberedInjective(c.kind, c3, d.kind, d3);
    SizedInjective(c.chat, ":" + c4, d.chat, ":" + d4);
    SeparatorInjective(c4, d4);
    SizedInjective(c.thread, r, d.thread, q);
  }

  lemma NumberedAppend(n: nat, r: string, tail: string)
    ensures Numbered(n, r) + tail == Numbered(n, r + tail)
  {
  }

  lemma SizedAppend(a: string, r: string, tail: string)
    ensures Sized(a, r) + tail == Sized(a, r + tail)
  {
    assert (a + r) + tail == a + (r + tail);
  }

  lemma KeyAppend(c: Conversation, tail: string)
    ensures Key(c) + tail == KeyThen(c, tail)
  {
    var c4 := Sized(c.thread, "");
    var c3 := Sized(c.chat, ":" + c4);
    var c2 := Numbered(c.kind, c3);
    NumberedAppend(c.platform, Sized(c.account, ":" + c2), tail);
    SizedAppend(c.account, ":" + c2, tail);
    assert (":" + c2) + tail == ":" + (c2 + tail);
    NumberedAppend(c.kind, c3, tail);
    SizedAppend(c.chat, ":" + c4, tail);
    assert (":" + c4) + tail == ":" + (c4 + tail);
    SizedAppend(c.thread, "", tail);
    assert "" + tail == tail;
  }

  /** Different conversations have different keys. */
  lemma KeyInjective(c: Conversation, d: Conversation)
    requires Key(c) == Key(d)
    ensures c == d
  {
    KeyThenInjective(c, "", d, "");
  }

  lemma EventKeyForm(c: Conversation, e: string)
    ensures EventKey(c, e) == KeyThen(c, ":" + e)
  {
    KeyAppend(c, ":" + e);
    assert Key(c) + ":" + e == Key(c) + (":" + e);
  }

  /** Different (conversation, event) pairs never share a key. */
  lemma EventKeyInjective(c: Conversation, e: string, d: Conversation, f: string)
    requires EventKey(c, e) == EventKey(d, f)
    ensures c == d && e == f
  {
    EventKeyForm(c, e);
    EventKeyForm(d, f);
    KeyThenInjective(c, ":" + e, d, ":" + f);
    SeparatorInjective(e, f);
  }
}

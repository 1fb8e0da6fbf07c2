/** UTF-8 boundary helpers (src/oran-core/str.cpp) and byte-bounded splitting
    (src/oran-channel/protocol.cpp), measured against the encoder of section 3 of RFC 3629. */
module Utf8 {
  import opened Core

  type Byte = b: int | 0 <= b < 256
  type Text = seq<Byte>

  /** A Unicode scalar value: a code point that is not a surrogate. */
  type Scalar = c: int | 0 <= c < 0xD800 || 0xE000 <= c < 0x110000

  // ---------------------------------------------------------------- reference encoder

  function EncodeScalar(c: Scalar): (r: Text)
    ensures 1 <= |r| <= 4
  {
    if c < 0x80 then [c]
    else if c < 0x800 then [0xC0 + c / 64, 0x80 + c % 64]
    else if c < 0x10000 then [0xE0 + c / 64 / 64, 0x80 + c / 64 % 64, 0x80 + c % 64]
    else [0xF0 + c / 64 / 64 / 64, 0x80 + c / 64 / 64 % 64, 0x80 + c / 64 % 64, 0x80 + c % 64]
  }

  function Encode(cs: seq<Scalar>): Text {
    if cs == [] then [] else EncodeScalar(cs[0]) + Encode(cs[1..])
  }

  /** Number of UTF-16 code units a scalar takes. */
  function Units(c: Scalar): nat {
    if c >= 0x10000 then 2 else 1
  }

  function UnitsOf(cs: seq<Scalar>): nat {
    if cs == [] then 0 else Units(cs[0]) + UnitsOf(cs[1..])
  }

  // ---------------------------------------------------------------- byte classification

  function LeadLength(b: Byte): nat {
    if b < 0x80 then 1
    else if b < 0xC2 then 0
    else if b < 0xE0 then 2
    else if b < 0xF0 then 3
    else if b < 0xF5 then 4
    else 0
  }

  predicate InFirstContinuationRange(lead: Byte, b: Byte) {
    match lead
    case 0xE0 => 0xA0 <= b <= 0xBF
    case 0xED => 0x80 <= b <= 0x9F
    case 0xF0 => 0x90 <= b <= 0xBF
    case 0xF4 => 0x80 <= b <= 0x8F
    case _ => 0x80 <= b <= 0xBF
  }

  predicate IsContinuation(b: Byte) {
    0x80 <= b <= 0xBF
  }

  /** `b` is exactly one complete code point. */
  predicate IsCharacter(b: Text) {
    && b != []
    && LeadLength(b[0]) == |b|
    && (|b| >= 2 ==> InFirstContinuationRange(b[0], b[1]))
    && (|b| >= 3 ==> IsContinuation(b[2]))
    && (|b| >= 4 ==> IsContinuation(b[3]))
  }

  /** The first code point of `text` is complete and well formed. */
  predicate HeadOk(text: Text) {
    text != [] && LeadLength(text[0]) <= |text| && IsCharacter(Head(text))
  }

  function Head(text: Text): Text
    requires text != [] && LeadLength(text[0]) <= |text|
  {
    text[..LeadLength(text[0])]
  }

  predicate Valid(text: Text) {
    text == [] || (HeadOk(text) && Valid(text[LeadLength(text[0])..]))
  }

  /** The code points of a valid text. */
  function Decode(text: Text): (cs: seq<Scalar>)
    requires Valid(text)
  {
    if text == [] then [] else [DecodeCharacter(Head(text))] + Decode(text[LeadLength(text[0])..])
  }

  function DecodeCharacter(b: Text): (c: Scalar)
    requires IsCharacter(b)
  {
    var b0: int := b[0];
    if |b| == 1 then b0 else
    var b1: int := b[1] - 0x80;
    if |b| == 2 then (b0 - 0xC0) * 64 + b1 else
    var b2: int := b[2] - 0x80;
    if |b| == 3 then (b0 - 0xE0) * 4096 + b1 * 64 + b2 else
    var b3: int := b[3] - 0x80;
    (b0 - 0xF0) * 262144 + b1 * 4096 + b2 * 64 + b3
  }

  // ---------------------------------------------------------------- validity is the image of the encoder

  /** Base-64 digits are unique. */
  lemma Digits(x: nat, high: nat, low: nat)
    requires x == high * 64 + low && low < 64
    ensures x / 64 == high && x % 64 == low
  {
  }

  lemma EncodeDecodeCharacter(b: Text)
    requires IsCharacter(b)
    ensures EncodeScalar(DecodeCharacter(b)) == b
  {
    var c: int := DecodeCharacter(b);
    if |b| == 2 {
      Digits(c, b[0] - 0xC0, b[1] - 0x80);
    } else if |b| == 3 {
      var high: int := (b[0] - 0xE0) as int * 64 + (b[1] - 0x80);
      Digits(c, high, b[2] - 0x80);
      Digits(high, b[0] - 0xE0, b[1] - 0x80);
    } else if |b| == 4 {
      FourByteRoundTrip(b);
    }
  }

  lemma FourByteRoundTrip(b: Text)
    requires IsCharacter(b) && |b| == 4
    ensures EncodeScalar(DecodeCharacter(b)) == b
  {
    var top: int := (b[0] - 0xF0) as int * 64 + (b[1] - 0x80);
    var high: int := top * 64 + (b[2] - 0x80);
    Digits(DecodeCharacter(b), high, b[3] - 0x80);
    Digits(high, top, b[2] - 0x80);
    Digits(top, b[0] - 0xF0, b[1] - 0x80);
  }

  lemma DecodeEncodeScalar(c: Scalar)
    ensures IsCharacter(EncodeScalar(c)) && DecodeCharacter(EncodeScalar(c)) == c
  {
    var q1, r1 := c / 64, c % 64;
    assert c == q1 * 64 + r1;
    if 0x800 <= c < 0x10000 {
      ThreeByteCharacter(c, q1, r1);
    } else if 0x10000 <= c {
      FourByteCharacter(c, q1, r1);
    }
  }

  lemma ThreeByteCharacter(c: Scalar, q1: nat, r1: nat)
    requires 0x800 <= c < 0x10000 && q1 == c / 64 && r1 == c % 64
    ensures IsCharacter(EncodeScalar(c)) && DecodeCharacter(EncodeScalar(c)) == c
  {
    var q2, r2 := q1 / 64, q1 % 64;
    assert q1 == q2 * 64 + r2;
    var e: Text := [0xE0 + q2, 0x80 + r2, 0x80 + r1];
    assert e == EncodeScalar(c);
    assert IsCharacter(e);
  }

  lemma FourByteCharacter(c: Scalar, q1: nat, r1: nat)
    requires 0x10000 <= c && q1 == c / 64 && r1 == c % 64
    ensures IsCharacter(EncodeScalar(c)) && DecodeCharacter(EncodeScalar(c)) == c
  {
    var q2, r2 := q1 / 64, q1 % 64;
    assert q1 == q2 * 64 + r2;
    var q3, r3 := q2 / 64, q2 % 64;
    assert q2 == q3 * 64 + r3;
    var e: Text := [0xF0 + q3, 0x80 + r3, 0x80 + r2, 0x80 + r1];
    assert e == EncodeScalar(c);
    assert IsCharacter(e);
  }

  lemma HeadOfAppend(b: Text, rest: Text)
    requires IsCharacter(b)
    ensures HeadOk(b + rest) && Head(b + rest) == b
    ensures LeadLength((b + rest)[0]) == |b| && (b + rest)[|b|..] == rest
  {
    assert (b + rest)[..|b|] == b;
  }

  lemma {:induction false} DecodeEncode(cs: seq<Scalar>)
    ensures Valid(Encode(cs)) && Decode(Encode(cs)) == cs
  {
    if cs != [] {
      DecodeEncodeScalar(cs[0]);
      HeadOfAppend(EncodeScalar(cs[0]), Encode(cs[1..]));
      DecodeEncode(cs[1..]);
    }
  }

  lemma EncodeFirst(c: Scalar, cs: seq<Scalar>)
    ensures Encode([c] + cs) == EncodeScalar(c) + Encode(cs)
  {
    assert ([c] + cs)[1..] == cs;
  }

  lemma {:induction false} EncodeDecode(text: Text)
    requires Valid(text)
    ensures Encode(Decode(text)) == text
    decreases |text|
  {
    if text != [] {
      var n := LeadLength(text[0]);
      var rest := text[n..];
      EncodeDecode(rest);
      EncodeDecodeCharacter(Head(text));
      EncodeFirst(DecodeCharacter(Head(text)), Decode(rest));
      assert text == Head(text) + rest;
    }
  }

  /** A byte string is accepted exactly when it is the encoding of some scalars. */
  lemma ValidIffEncoding(text: Text)
    ensures Valid(text) <==> exists cs: seq<Scalar> :: Encode(cs) == text
  {
    if Valid(text) {
      EncodeDecode(text);
    }
    if cs: seq<Scalar> :| Encode(cs) == text {
      DecodeEncode(cs);
    }
  }

  lemma {:induction false} ValidAppend(a: Text, b: Text)
    requires Valid(a)
    ensures Valid(a + b) <==> Valid(b)
    decreases |a|
  {
    if a == [] {
      assert a + b == b;
    } else {
      var head, tail := Head(a), a[LeadLength(a[0])..];
      assert a + b == head + (tail + b);
      HeadOfAppend(head, tail + b);
      ValidAppend(tail, b);
    }
  }

  // ---------------------------------------------------------------- the three public loops

  method IsValidUtf8(text: Text) returns (valid: bool)
    ensures valid <==> exists cs: seq<Scalar> :: Encode(cs) == text
  {
    ValidIffEncoding(text);
    var p := 0;
    while p < |text|
      invariant 0 <= p <= |text|
      invariant Valid(text) <==> Valid(text[p..])
    {
      var lead := text[p];
      var length := LeadLength(lead);
      if length == 0 || |text| - p < length {
        return false;
      }
      if length >= 2 {
        if !InFirstContinuationRange(lead, text[p + 1]) {
          return false;
        }
        for i := 2 to length
          invariant i >= 3 ==> IsContinuation(text[p + 2])
          invariant i >= 4 ==> IsContinuation(text[p + 3])
        {
          if !IsContinuation(text[p + i]) {
            return false;
          }
        }
      }
      assert text[p..][length..] == text[p + length..];
      p := p + length;
    }
    return true;
  }

  method CountCodePoints(text: Text) returns (count: Option<nat>)
    ensures count.Some? <==> exists cs: seq<Scalar> :: Encode(cs) == text
    ensures forall cs: seq<Scalar> :: Encode(cs) == text ==> count == Some(|cs|)
  {
    ValidIffEncoding(text);
    var p, n := 0, 0;
    while p < |text|
      invariant 0 <= p <= |text|
      invariant Valid(text) <==> Valid(text[p..])
      invariant Valid(text) ==> |Decode(text)| == n + |Decode(text[p..])|
    {
      var lead := text[p];
      var length := LeadLength(lead);
      if length == 0 || |text| - p < length {
        return None;
      }
      if length >= 2 {
        if !InFirstContinuationRange(lead, text[p + 1]) {
          return None;
        }
        for i := 2 to length
          invariant i >= 3 ==> IsContinuation(text[p + 2])
          invariant i >= 4 ==> IsContinuation(text[p + 3])
        {
          if !IsContinuation(text[p + i]) {
            return None;
          }
        }
      }
      assert text[p..][length..] == text[p + length..];
      p, n := p + length, n + 1;
    }
    forall cs: seq<Scalar> | Encode(cs) == text ensures |cs| == n {
      DecodeEncode(cs);
    }
    return Some(n);
  }

  /** Byte length of the first code point as its lead byte declares it; one for a stray byte. */
  function StepLength(b: Byte): nat
    ensures 1 <= StepLength(b) <= 4
  {
    if LeadLength(b) == 0 then 1 else LeadLength(b)
  }

  /** Keeps a prefix of at most `maxBytes`. On valid text the cut falls between code points and
      the next code point, if any, would not have fitted. */
  method TruncateToCodePoint(text: Text, maxBytes: nat) returns (prefix: Text)
    ensures prefix <= text && |prefix| <= maxBytes
    ensures |text| <= maxBytes ==> prefix == text
    ensures Valid(text) ==> Valid(prefix) && Valid(text[|prefix|..])
    ensures Valid(text) && prefix != text ==> |prefix| + LeadLength(text[|prefix|]) > maxBytes
  {
    if |text| <= maxBytes {
      return text;
    }
    var boundary, i := 0, 0;
    while i < |text|
      invariant 0 <= boundary == i <= |text| && i <= maxBytes
      invariant Valid(text) ==> Valid(text[..i]) && Valid(text[i..])
    {
      var step := StepLength(text[i]);
      if i + step > maxBytes {
        break;
      }
      if i + step > |text| {
        break;
      }
      ValidStep(text, i, step);
      i := i + step;
      boundary := i;
    }
    prefix := text[..boundary];
  }

  lemma ValidStep(text: Text, i: nat, step: nat)
    requires i < |text| && step == StepLength(text[i]) && i + step <= |text|
    requires Valid(text) ==> Valid(text[..i]) && Valid(text[i..])
    ensures Valid(text) ==> Valid(text[..i + step]) && Valid(text[i + step..])
  {
    if Valid(text) {
      var tail := text[i..];
      assert HeadOk(tail);
      assert tail[step..] == text[i + step..];
      HeadOfAppend(Head(tail), []);
      assert Head(tail) + [] == Head(tail);
      ValidAppend(text[..i], Head(tail));
      assert text[..i] + Head(tail) == text[..i + step];
    }
  }

  // ---------------------------------------------------------------- splitting

  function Flatten(parts: seq<Text>): Text {
    if parts == [] then [] else parts[0] + Flatten(parts[1..])
  }

  lemma {:induction false} FlattenAppend(parts: seq<Text>, last: Text)
    ensures Flatten(parts + [last]) == Flatten(parts) + last
  {
    if parts == [] {
      assert [last][1..] == [];
    } else {
      assert (parts + [last])[1..] == parts[1..] + [last];
      FlattenAppend(parts[1..], last);
    }
  }

  /** A part may be sent on its own: nonempty, within the limit and valid. */
  predicate GoodPart(part: Text, limit: nat) {
    part != [] && |part| <= limit && Valid(part)
  }

  /** Part `k` could not also have taken the first code point of its successor. */
  predicate Greedy(parts: seq<Text>, limit: nat) {
    forall k :: 0 <= k < |parts| - 1 ==> Full(parts, k, limit)
  }

  predicate Full(parts: seq<Text>, k: nat, limit: nat)
    requires k < |parts| - 1
  {
    parts[k + 1] != [] && |parts[k]| + LeadLength(parts[k + 1][0]) > limit
  }

  /** The split so far: `parts` are final, `rest` is still to be cut. */
  predicate Splitting(parts: seq<Text>, rest: Text, text: Text, limit: nat) {
    && Valid(rest)
    && Flatten(parts) + rest == text
    && (forall p :: p in parts ==> GoodPart(p, limit))
    && Greedy(parts, limit)
    && (parts != [] && rest != [] ==> |parts[|parts| - 1]| + LeadLength(rest[0]) > limit)
  }

  lemma SplitStep(parts: seq<Text>, rest: Text, text: Text, limit: nat, part: Text)
    requires Splitting(parts, rest, text, limit)
    requires part != [] && part <= rest && GoodPart(part, limit) && Valid(rest[|part|..])
    requires part != rest ==> |part| + LeadLength(rest[|part|]) > limit
    ensures Splitting(parts + [part], rest[|part|..], text, limit)
  {
    FlattenAppend(parts, part);
    assert part + rest[|part|..] == rest;
    assert Flatten(parts + [part]) + rest[|part|..] == Flatten(parts) + rest;
    assert part[0] == rest[0];
    GreedyStep(parts, part, limit);
  }

  lemma GreedyStep(parts: seq<Text>, part: Text, limit: nat)
    requires Greedy(parts, limit) && part != []
    requires parts != [] ==> |parts[|parts| - 1]| + LeadLength(part[0]) > limit
    ensures Greedy(parts + [part], limit)
  {
    var more := parts + [part];
    forall k | 0 <= k < |more| - 1 ensures Full(more, k, limit) {
      if k < |parts| - 1 {
        assert Full(parts, k, limit);
      }
    }
  }

  method SplitText(text: Text, limit: nat) returns (r: Result<seq<Text>>)
    ensures r.Ok? <==> limit >= 4 && exists cs: seq<Scalar> :: Encode(cs) == text
    ensures r.Err? ==> r.kind == InvalidArgument
    ensures r.Ok? ==> Flatten(r.value) == text
    ensures r.Ok? ==> forall p :: p in r.value ==> GoodPart(p, limit)
    ensures r.Ok? ==> Greedy(r.value, limit)
  {
    if limit < 4 {
      return Err(InvalidArgument);
    }
    var valid := IsValidUtf8(text);
    if !valid {
      return Err(InvalidArgument);
    }
    ValidIffEncoding(text);
    var parts: seq<Text> := [];
    var rest := text;
    while rest != []
      invariant Splitting(parts, rest, text, limit)
      decreases |rest|
    {
      var part := TruncateToCodePoint(rest, limit);
      assert part != [] by { assert HeadOk(rest); }
      SplitStep(parts, rest, text, limit, part);
      parts := parts + [part];
      rest := rest[|part|..];
    }
    return Ok(parts);
  }

  // ---------------------------------------------------------------- UTF-16 length

  /** Counts UTF-16 units from lead bytes alone, as apps/telegram/format.cpp does. */
  function ByteUnits(b: Byte): nat {
    if b < 0x80 || b >= 0xC0 then (if b >= 0xF0 then 2 else 1) else 0
  }

  function UnitsByByte(text: Text): nat {
    if text == [] then 0 else ByteUnits(text[0]) + UnitsByByte(text[1..])
  }

  lemma {:induction false} UnitsByByteAppend(a: Text, b: Text)
    ensures UnitsByByte(a + b) == UnitsByByte(a) + UnitsByByte(b)
  {
    if a == [] {
      assert a + b == b;
    } else {
      assert (a + b)[1..] == a[1..] + b;
      UnitsByByteAppend(a[1..], b);
    }
  }

  lemma {:induction false} UnitsOfContinuations(t: Text)
    requires forall b :: b in t ==> IsContinuation(b)
    ensures UnitsByByte(t) == 0
  {
    if t != [] {
      assert IsContinuation(t[0]) by { assert t[0] in t; }
      UnitsOfContinuations(t[1..]);
    }
  }

  lemma UnitsOfScalar(c: Scalar)
    ensures UnitsByByte(EncodeScalar(c)) == Units(c)
  {
    var e := EncodeScalar(c);
    DecodeEncodeScalar(c);
    UnitsOfContinuations(e[1..]);
  }

  /** Counting lead bytes gives the number of UTF-16 units of the encoded code points. */
  lemma {:induction false} UnitsByByteIsUtf16(cs: seq<Scalar>)
    ensures UnitsByByte(Encode(cs)) == UnitsOf(cs)
  {
    if cs != [] {
      UnitsByByteAppend(EncodeScalar(cs[0]), Encode(cs[1..]));
      UnitsOfScalar(cs[0]);
      UnitsByByteIsUtf16(cs[1..]);
    }
  }

  method Utf16Size(text: Text) returns (length: nat)
    ensures length == UnitsByByte(text)
    ensures forall cs: seq<Scalar> :: Encode(cs) == text ==> length == UnitsOf(cs)
  {
    length := 0;
    var i := 0;
    while i < |text|
      invariant 0 <= i <= |text|
      invariant length + UnitsByByte(text[i..]) == UnitsByByte(text)
    {
      assert text[i..][1..] == text[i + 1..];
      var byte := text[i];
      if byte < 0x80 || byte >= 0xC0 {
        length := length + (if byte >= 0xF0 then 2 else 1);
      }
      i := i + 1;
    }
    forall cs: seq<Scalar> | Encode(cs) == text ensures length == UnitsOf(cs) {
      UnitsByByteIsUtf16(cs);
    }
  }
}

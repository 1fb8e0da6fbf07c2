/** Telegram entities: removing code ranges from other styles and splitting a styled reply
    (apps/telegram/format.cpp). Offsets and lengths count UTF-16 units. */
module Formatting {
  import opened Core
  import opened Utf8

  datatype Style =
    | Code
    | Pre(language: string)
    | Bold
    | Italic
    | TextLink(url: string)
    | Blockquote

  datatype Entity = Entity(style: Style, offset: nat, length: nat) {
    function End(): nat {
      offset + length
    }
    predicate Covers(u: nat) {
      offset <= u < End()
    }
  }

  datatype FormattedText = FormattedText(text: Text, entities: seq<Entity>)

  predicate IsCode(s: Style) {
    s.Code? || s.Pre?
  }

  /** Unit `u` is shown with style `s`: the meaning of an entity list. */
  ghost predicate Styled(es: seq<Entity>, s: Style, u: nat) {
    exists e :: e in es && e.style == s && e.Covers(u)
  }

  ghost predicate Covered(es: seq<Entity>, u: nat) {
    exists e :: e in es && e.Covers(u)
  }

  ghost predicate InCode(es: seq<Entity>, u: nat) {
    exists e :: e in es && IsCode(e.style) && e.Covers(u)
  }

  /** What the Markdown walk guarantees of its code spans: nonempty and pairwise disjoint. */
  ghost predicate DisjointCode(es: seq<Entity>) {
    && (forall i :: 0 <= i < |es| && IsCode(es[i].style) ==> es[i].length > 0)
    && (forall i, j :: 0 <= i < j < |es| && IsCode(es[i].style) && IsCode(es[j].style) ==>
         es[i].End() <= es[j].offset || es[j].End() <= es[i].offset)
  }

  // ---------------------------------------------------------------- ordering

  predicate Before(a: Entity, b: Entity) {
    if a.offset == b.offset then a.length >= b.length else a.offset < b.offset
  }

  ghost predicate Ordered(es: seq<Entity>) {
    forall i, j :: 0 <= i < j < |es| ==> Before(es[i], es[j])
  }

  method SortEntities(es: seq<Entity>) returns (sorted: seq<Entity>)
    ensures Ordered(sorted)
    ensures multiset(sorted) == multiset(es)
  {
    sorted := [];
    for i := 0 to |es|
      invariant Ordered(sorted)
      invariant multiset(sorted) == multiset(es[..i])
    {
      sorted := InsertEntity(sorted, es[i]);
      assert es[..i + 1] == es[..i] + [es[i]];
    }
    assert es[..|es|] == es;
  }

  method InsertEntity(sorted: seq<Entity>, e: Entity) returns (r: seq<Entity>)
    requires Ordered(sorted)
    ensures Ordered(r)
    ensures multiset(r) == multiset(sorted) + multiset{e}
  {
    var k := 0;
    while k < |sorted| && Before(sorted[k], e)
      invariant 0 <= k <= |sorted|
      invariant forall i :: 0 <= i < k ==> Before(sorted[i], e)
    {
      k := k + 1;
    }
    r := sorted[..k] + [e] + sorted[k..];
    assert sorted == sorted[..k] + sorted[k..];
    InsertIsOrdered(sorted, e, k);
  }

  lemma InsertIsOrdered(sorted: seq<Entity>, e: Entity, k: nat)
    requires Ordered(sorted) && k <= |sorted| && (forall i :: 0 <= i < k ==> Before(sorted[i], e))
    requires k < |sorted| ==> !Before(sorted[k], e)
    ensures Ordered(sorted[..k] + [e] + sorted[k..])
  {
    var r := sorted[..k] + [e] + sorted[k..];
    forall i, j | 0 <= i < j < |r| ensures Before(r[i], r[j]) {
      if j == k {
        assert r[i] == sorted[i];
      } else if i == k {
        assert r[j] == sorted[j - 1] && (j - 1 == k || Before(sorted[k], sorted[j - 1]));
      } else {
        var i', j' := if i < k then i else i - 1, if j < k then j else j - 1;
        assert r[i] == sorted[i'] && r[j] == sorted[j'];
      }
    }
  }

  lemma SameElements(a: seq<Entity>, b: seq<Entity>)
    requires multiset(a) == multiset(b)
    ensures forall e :: e in a <==> e in b
  {
    forall e ensures e in a <==> e in b {
      assert e in a <==> e in multiset(a);
      assert e in b <==> e in multiset(b);
    }
  }

  // ---------------------------------------------------------------- normalisation

  /** Code ranges in text order, as the subtraction loop walks them. */
  ghost predicate Ranges(code: seq<Entity>) {
    && (forall i :: 0 <= i < |code| ==> code[i].length > 0)
    && (forall i, j :: 0 <= i < j < |code| ==> code[i].End() <= code[j].offset)
  }

  method CollectCode(es: seq<Entity>) returns (code: seq<Entity>)
    requires DisjointCode(es)
    ensures Ranges(code)
    ensures forall u: nat :: Covered(code, u) <==> InCode(es, u)
  {
    var found: seq<Entity> := [];
    ghost var at: seq<nat> := [];
    for i := 0 to |es|
      invariant |at| == |found|
      invariant forall k :: 0 <= k < |at| ==> at[k] < i && found[k] == es[at[k]] && IsCode(found[k].style)
      invariant forall k, m :: 0 <= k < m < |at| ==> at[k] < at[m]
      invariant forall e :: e in es[..i] && IsCode(e.style) ==> e in found
    {
      if IsCode(es[i].style) {
        found := found + [es[i]];
        at := at + [i];
      }
    }
    assert es[..|es|] == es;
    code := SortEntities(found);
    SameElements(code, found);
    DisjointSorted(code, found);
  }

  ghost predicate Apart(a: Entity, b: Entity) {
    a.End() <= b.offset || b.End() <= a.offset
  }

  /** Sorting nonempty ranges that are pairwise apart puts each before the next. */
  lemma DisjointSorted(code: seq<Entity>, found: seq<Entity>)
    requires multiset(code) == multiset(found) && Ordered(code)
    requires forall i :: 0 <= i < |found| ==> found[i].length > 0
    requires forall i, j :: 0 <= i < j < |found| ==> Apart(found[i], found[j])
    ensures Ranges(code)
  {
    SameElements(code, found);
    forall i | 0 <= i < |code| ensures code[i].length > 0 {
      assert code[i] in found;
    }
    forall i, j | 0 <= i < j < |code| ensures code[i].End() <= code[j].offset {
      assert Before(code[i], code[j]);
      assert code[i] in found && code[j] in found;
      if code[i] == code[j] {
        TwiceInSorted(code, i, j);
        OnceInApart(found, code[i]);
      } else {
        var a :| 0 <= a < |found| && found[a] == code[i];
        var b :| 0 <= b < |found| && found[b] == code[j];
        if a < b {
          assert Apart(found[a], found[b]);
        } else {
          assert Apart(found[b], found[a]);
        }
      }
    }
  }

  lemma TwiceInSorted(s: seq<Entity>, i: nat, j: nat)
    requires i < j < |s| && s[i] == s[j]
    ensures multiset(s)[s[i]] >= 2
  {
    assert s == s[..j] + [s[j]] + s[j + 1..];
    assert s[i] in s[..j];
  }

  lemma {:induction false} OnceInApart(s: seq<Entity>, e: Entity)
    requires forall i :: 0 <= i < |s| ==> s[i].length > 0
    requires forall i, j :: 0 <= i < j < |s| ==> Apart(s[i], s[j])
    ensures multiset(s)[e] <= 1
  {
    if s != [] {
      var init, last := s[..|s| - 1], s[|s| - 1];
      assert s == init + [last];
      OnceInApart(init, e);
      forall k | 0 <= k < |init| ensures init[k] != last {
        assert Apart(s[k], s[|s| - 1]) && s[k].length > 0;
      }
    }
  }

  /** std::ranges::lower_bound over the ends of sorted, disjoint ranges. */
  method FirstEndingAtOrAfter(code: seq<Entity>, start: nat) returns (k: nat)
    requires Ranges(code)
    ensures k <= |code|
    ensures forall i :: 0 <= i < k ==> code[i].End() < start
    ensures k < |code| ==> code[k].End() >= start
  {
    k := 0;
    while k < |code| && code[k].End() < start
      invariant k <= |code|
      invariant forall i :: 0 <= i < k ==> code[i].End() < start
    {
      k := k + 1;
    }
  }

  function Emit(style: Style, begin: nat, stop: nat): seq<Entity> {
    if begin < stop then [Entity(style, begin, stop - begin)] else []
  }

  ghost predicate PiecesOf(pieces: seq<Entity>, style: Style, limit: nat) {
    forall p :: p in pieces ==> p.style == style && p.length > 0 && p.End() <= limit
  }

  /** Cuts one entity at the end of the text and around the code ranges. */
  method SubtractCode(e: Entity, code: seq<Entity>, textEnd: nat) returns (pieces: seq<Entity>)
    requires Ranges(code)
    ensures PiecesOf(pieces, e.style, textEnd)
    ensures forall u: nat :: Covered(pieces, u) <==>
      e.Covers(u) && u < textEnd && (IsCode(e.style) || !Covered(code, u))
  {
    var start := e.offset;
    var end := if textEnd < e.End() then textEnd else e.End();
    pieces := [];
    if !IsCode(e.style) {
      var k := FirstEndingAtOrAfter(code, start);
      while k < |code| && code[k].offset < end
        invariant k <= |code| && e.offset <= start
        invariant forall i :: 0 <= i < k ==> code[i].End() <= start
        invariant PiecesOf(pieces, e.style, textEnd)
        invariant forall u: nat :: Covered(pieces, u) <==> e.offset <= u < start && u < end && !Covered(code, u)
      {
        var stop := if code[k].offset < end then code[k].offset else end;
        GapIsFree(code, k, start, stop);
        ghost var before := pieces;
        pieces := pieces + Emit(e.style, start, stop);
        CoveredAppend(before, Emit(e.style, start, stop));
        EmitCovers(e.style, start, stop);
        InsideRange(code, k);
        start := if start < code[k].End() then code[k].End() else start;
        k := k + 1;
      }
      GapIsFree(code, k, start, end);
    }
    CoveredAppend(pieces, Emit(e.style, start, end));
    EmitCovers(e.style, start, end);
    pieces := pieces + Emit(e.style, start, end);
  }

  lemma CoveredAppend(a: seq<Entity>, b: seq<Entity>)
    ensures forall u: nat :: Covered(a + b, u) <==> Covered(a, u) || Covered(b, u)
  {
    forall u: nat ensures Covered(a + b, u) <==> Covered(a, u) || Covered(b, u) {
      if Covered(a, u) {
        var e :| e in a && e.Covers(u);
        assert e in a + b;
      }
      if Covered(b, u) {
        var e :| e in b && e.Covers(u);
        assert e in a + b;
      }
    }
  }

  /** Between the ranges already passed and the next one no unit is code. */
  lemma GapIsFree(code: seq<Entity>, k: nat, start: nat, stop: nat)
    requires Ranges(code) && k <= |code|
    requires forall i :: 0 <= i < k ==> code[i].End() <= start
    requires k < |code| ==> stop <= code[k].offset
    ensures forall u: nat :: start <= u < stop ==> !Covered(code, u)
  {
    forall u: nat | start <= u < stop ensures !Covered(code, u) {
      forall i | 0 <= i < |code| ensures !code[i].Covers(u) {
        if i > k {
          assert code[k].End() <= code[i].offset;
        }
      }
    }
  }

  lemma InsideRange(code: seq<Entity>, k: nat)
    requires k < |code|
    ensures forall u: nat :: code[k].Covers(u) ==> Covered(code, u)
  {
    assert code[k] in code;
  }

  lemma EmitCovers(style: Style, begin: nat, stop: nat)
    ensures forall u: nat :: Covered(Emit(style, begin, stop), u) <==> begin <= u < stop
  {
    if begin < stop {
      var e := Entity(style, begin, stop - begin);
      assert e in Emit(style, begin, stop);
    }
  }

  /** Telegram forbids other entities from containing code: after normalisation a unit keeps
      its code style, and keeps any other style exactly when it is not code. */
  method NormalizeEntities(formatted: FormattedText) returns (r: FormattedText)
    requires DisjointCode(formatted.entities)
    ensures r.text == formatted.text && Ordered(r.entities)
    ensures forall e :: e in r.entities ==> e.length > 0 && e.End() <= UnitsByByte(r.text)
    ensures forall s, u: nat :: Styled(r.entities, s, u) <==> Normalized(formatted, s, u)
  {
    var textEnd := Utf16Size(formatted.text);
    var code := CollectCode(formatted.entities);
    var es := formatted.entities;
    var out: seq<Entity> := [];
    for i := 0 to |es|
      invariant forall e :: e in out ==> e.length > 0 && e.End() <= textEnd
      invariant forall s, u: nat :: Styled(out, s, u) <==>
        Styled(es[..i], s, u) && u < textEnd && (IsCode(s) || !InCode(es, u))
    {
      var pieces := SubtractCode(es[i], code, textEnd);
      StyledAppend(out, pieces);
      assert es[..i + 1] == es[..i] + [es[i]];
      StyledAppend(es[..i], [es[i]]);
      StyledPieces(pieces, es[i].style, textEnd);
      out := out + pieces;
    }
    assert es[..|es|] == es;
    var sorted := SortEntities(out);
    SameElements(sorted, out);
    r := FormattedText(formatted.text, sorted);
    forall s, u: nat ensures Styled(sorted, s, u) <==> Styled(out, s, u) {
    }
  }

  /** The style a unit must show after normalisation, in terms of the original entities. */
  ghost predicate Normalized(formatted: FormattedText, s: Style, u: nat) {
    && Styled(formatted.entities, s, u)
    && u < UnitsByByte(formatted.text)
    && (IsCode(s) || !InCode(formatted.entities, u))
  }

  lemma StyledAppend(a: seq<Entity>, b: seq<Entity>)
    ensures forall s, u: nat :: Styled(a + b, s, u) <==> Styled(a, s, u) || Styled(b, s, u)
  {
    forall s, u: nat ensures Styled(a + b, s, u) <==> Styled(a, s, u) || Styled(b, s, u) {
      if Styled(a, s, u) {
        var e :| e in a && e.style == s && e.Covers(u);
        assert e in a + b;
      }
      if Styled(b, s, u) {
        var e :| e in b && e.style == s && e.Covers(u);
        assert e in a + b;
      }
    }
  }

  lemma StyledPieces(pieces: seq<Entity>, style: Style, limit: nat)
    requires PiecesOf(pieces, style, limit)
    ensures forall s, u: nat :: Styled(pieces, s, u) <==> s == style && Covered(pieces, u)
  {
  }

  // ---------------------------------------------------------------- splitting and rebasing

  /** UTF-16 units before part `k`. */
  function OffsetOf(parts: seq<Text>, k: nat): nat
    requires k <= |parts|
  {
    if k == 0 then 0 else OffsetOf(parts, k - 1) + UnitsByByte(parts[k - 1])
  }

  /** Every entity covers something. */
  ghost predicate Visible(es: seq<Entity>) {
    forall e :: e in es ==> e.length > 0
  }

  method RebaseEntities(es: seq<Entity>, offset: nat, end: nat) returns (r: seq<Entity>)
    requires offset <= end
    ensures forall e :: e in r ==> e.End() <= end - offset
    ensures offset < end && Visible(es) ==> Visible(r)
    ensures forall s, u: nat :: u < end - offset ==> (Styled(r, s, u) <==> Styled(es, s, u + offset))
  {
    r := [];
    for i := 0 to |es|
      invariant forall e :: e in r ==> e.End() <= end - offset
      invariant offset < end && Visible(es) ==> Visible(r)
      invariant forall s, u: nat :: u < end - offset ==> (Styled(r, s, u) <==> Styled(es[..i], s, u + offset))
    {
      var start, stop := es[i].offset, es[i].End();
      assert es[i] in es && es[..i + 1] == es[..i] + [es[i]];
      StyledAppend(es[..i], [es[i]]);
      if start < end && stop > offset {
        var low := if start < offset then offset else start;
        var high := if stop < end then stop else end;
        var entity := Entity(es[i].style, low - offset, high - low);
        StyledAppend(r, [entity]);
        StyledSingle(entity);
        StyledSingle(es[i]);
        r := r + [entity];
      } else {
        StyledSingle(es[i]);
      }
    }
    assert es[..|es|] == es;
  }

  lemma StyledSingle(e: Entity)
    ensures forall s, u: nat :: Styled([e], s, u) <==> e.style == s && e.Covers(u)
  {
    forall s, u: nat ensures Styled([e], s, u) <==> e.style == s && e.Covers(u) {
      assert e in [e];
    }
  }

  /** Part `k` of a split shows every unit with the styles it had in the whole text. */
  ghost predicate ShowsSlice(part: FormattedText, es: seq<Entity>, offset: nat) {
    && (forall e :: e in part.entities ==> e.End() <= UnitsByByte(part.text))
    && (0 < UnitsByByte(part.text) && Visible(es) ==> Visible(part.entities))
    && (forall s, u: nat :: u < UnitsByByte(part.text) ==>
         (Styled(part.entities, s, u) <==> Styled(es, s, u + offset)))
  }

  function Texts(parts: seq<FormattedText>): (r: seq<Text>)
    ensures |r| == |parts|
    ensures forall k :: 0 <= k < |r| ==> r[k] == parts[k].text
  {
    seq(|parts|, k requires 0 <= k < |parts| => parts[k].text)
  }

  method SplitFormatted(formatted: FormattedText, maxBytes: nat) returns (r: Result<seq<FormattedText>>)
    ensures r.Ok? <==> maxBytes >= 4 && exists cs: seq<Scalar> :: Encode(cs) == formatted.text
    ensures r.Ok? ==> Flatten(Texts(r.value)) == formatted.text
    ensures r.Ok? ==> forall p :: p in r.value ==> GoodPart(p.text, maxBytes)
    ensures r.Ok? ==> forall k :: 0 <= k < |r.value| ==>
      ShowsSlice(r.value[k], formatted.entities, OffsetOf(Texts(r.value), k))
  {
    var parts := SplitText(formatted.text, maxBytes);
    if parts.Err? {
      return Err(parts.kind);
    }
    var out := RebaseParts(parts.value, formatted.entities);
    assert Texts(out) == parts.value;
    return Ok(out);
  }

  /** The parts so far, each with the entities that reach into it. */
  ghost predicate Shown(out: seq<FormattedText>, texts: seq<Text>, all: seq<Entity>) {
    && |out| <= |texts| && (forall k :: 0 <= k < |out| ==> out[k].text == texts[k])
    && (forall k :: 0 <= k < |out| ==> ShowsSlice(out[k], all, OffsetOf(texts, k)))
  }

  lemma ShownStep(out: seq<FormattedText>, texts: seq<Text>, all: seq<Entity>, part: FormattedText)
    requires Shown(out, texts, all) && |out| < |texts| && part.text == texts[|out|]
    requires ShowsSlice(part, all, OffsetOf(texts, |out|))
    ensures Shown(out + [part], texts, all)
  {
    var more := out + [part];
    forall k | 0 <= k < |more| ensures more[k].text == texts[k] && ShowsSlice(more[k], all, OffsetOf(texts, k)) {
      if k < |out| {
        assert more[k] == out[k];
      }
    }
  }

  method RebasePart(text: Text, all: seq<Entity>, offset: nat) returns (part: FormattedText, units: nat)
    ensures part.text == text && units == UnitsByByte(text) && ShowsSlice(part, all, offset)
  {
    units := Utf16Size(text);
    var entities := RebaseEntities(all, offset, offset + units);
    part := FormattedText(text, entities);
  }

  method RebaseParts(texts: seq<Text>, all: seq<Entity>) returns (out: seq<FormattedText>)
    ensures |out| == |texts| && Shown(out, texts, all)
  {
    out := [];
    var offset := 0;
    for i := 0 to |texts|
      invariant |out| == i && offset == OffsetOf(texts, i) && Shown(out, texts, all)
    {
      out, offset := AppendPart(out, texts, all, offset);
    }
  }

  method AppendPart(out: seq<FormattedText>, texts: seq<Text>, all: seq<Entity>, offset: nat)
    returns (more: seq<FormattedText>, next: nat)
    requires Shown(out, texts, all) && |out| < |texts| && offset == OffsetOf(texts, |out|)
    ensures Shown(more, texts, all) && |more| == |out| + 1 && next == OffsetOf(texts, |more|)
  {
    var part, units := RebasePart(texts[|out|], all, offset);
    ShownStep(out, texts, all, part);
    more, next := out + [part], offset + units;
  }

  lemma {:induction false} OffsetsBoundedByText(parts: seq<Text>, k: nat)
    requires k <= |parts|
    ensures OffsetOf(parts, k) == UnitsByByte(Flatten(parts[..k]))
  {
    if k == 0 {
      assert parts[..0] == [];
    } else {
      OffsetsBoundedByText(parts, k - 1);
      assert parts[..k] == parts[..k - 1] + [parts[k - 1]];
      FlattenAppend(parts[..k - 1], parts[k - 1]);
      UnitsByByteAppend(Flatten(parts[..k - 1]), parts[k - 1]);
    }
  }

  lemma {:induction false} OffsetsIncrease(parts: seq<Text>, j: nat, k: nat)
    requires j <= k <= |parts|
    ensures OffsetOf(parts, j) <= OffsetOf(parts, k)
  {
    if j < k {
      OffsetsIncrease(parts, j, k - 1);
    }
  }

  /** A unit of a part is a unit of the whole text. */
  lemma UnitInText(parts: seq<Text>, k: nat, u: nat)
    requires k < |parts| && u < UnitsByByte(parts[k])
    ensures u + OffsetOf(parts, k) < UnitsByByte(Flatten(parts))
  {
    OffsetsIncrease(parts, k + 1, |parts|);
    OffsetsBoundedByText(parts, |parts|);
    assert parts[..|parts|] == parts;
  }

  /** The style unit `u` of a reply must show once it has been delivered. */
  ghost predicate MustShow(es: seq<Entity>, s: Style, u: nat) {
    Styled(es, s, u) && (IsCode(s) || !InCode(es, u))
  }

  /** Unit `u` of part `k` is unit `OffsetOf(k) + u` of the reply and shows exactly the styles
      that unit must show. */
  ghost predicate Delivers(parts: seq<FormattedText>, es: seq<Entity>) {
    forall k, s, u: nat :: 0 <= k < |parts| && u < UnitsByByte(parts[k].text) ==>
      (Styled(parts[k].entities, s, u) <==> MustShow(es, s, u + OffsetOf(Texts(parts), k)))
  }

  /** A delivered reply: normalised, split and rebased. */
  method PrepareReply(formatted: FormattedText, maxBytes: nat) returns (r: Result<seq<FormattedText>>)
    requires DisjointCode(formatted.entities)
    ensures r.Ok? <==> maxBytes >= 4 && exists cs: seq<Scalar> :: Encode(cs) == formatted.text
    ensures r.Ok? ==> Flatten(Texts(r.value)) == formatted.text
    ensures r.Ok? ==> forall p :: p in r.value ==> GoodPart(p.text, maxBytes)
    ensures r.Ok? ==> Delivers(r.value, formatted.entities)
    ensures r.Ok? ==> forall k :: 0 <= k < |r.value| ==> WellPlaced(r.value[k])
  {
    var normal := NormalizeEntities(formatted);
    r := SplitFormatted(normal, maxBytes);
    if r.Ok? {
      SplitDelivers(formatted, normal, r.value);
      forall k | 0 <= k < |r.value| ensures WellPlaced(r.value[k]) {
        assert ShowsSlice(r.value[k], normal.entities, OffsetOf(Texts(r.value), k));
        assert GoodPart(r.value[k].text, maxBytes);
        ValidHasUnits(r.value[k].text);
      }
    }
  }

  lemma ValidHasUnits(text: Text)
    requires text != [] && Valid(text)
    ensures UnitsByByte(text) > 0
  {
    assert HeadOk(text) && Head(text)[0] == text[0];
  }

  /** Every entity of a part covers something and lies within its text. */
  ghost predicate WellPlaced(part: FormattedText) {
    forall e :: e in part.entities ==> 0 < e.length && e.End() <= UnitsByByte(part.text)
  }

  lemma SplitDelivers(formatted: FormattedText, normal: FormattedText, parts: seq<FormattedText>)
    requires normal.text == formatted.text == Flatten(Texts(parts))
    requires forall s, u: nat :: Styled(normal.entities, s, u) <==> Normalized(formatted, s, u)
    requires forall k :: 0 <= k < |parts| ==> ShowsSlice(parts[k], normal.entities, OffsetOf(Texts(parts), k))
    ensures Delivers(parts, formatted.entities)
  {
    forall k, s, u: nat | 0 <= k < |parts| && u < UnitsByByte(parts[k].text)
      ensures Styled(parts[k].entities, s, u) <==>
        MustShow(formatted.entities, s, u + OffsetOf(Texts(parts), k))
    {
      PartDelivers(formatted, normal, parts, k, s, u);
    }
  }

  lemma PartDelivers(formatted: FormattedText, normal: FormattedText, parts: seq<FormattedText>, k: nat, s: Style, u: nat)
    requires k < |parts| && u < UnitsByByte(parts[k].text)
    requires normal.text == formatted.text == Flatten(Texts(parts))
    requires forall s, u: nat :: Styled(normal.entities, s, u) <==> Normalized(formatted, s, u)
    requires ShowsSlice(parts[k], normal.entities, OffsetOf(Texts(parts), k))
    ensures Styled(parts[k].entities, s, u) <==> MustShow(formatted.entities, s, u + OffsetOf(Texts(parts), k))
  {
    UnitInText(Texts(parts), k, u);
  }
}

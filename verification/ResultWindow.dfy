/** Reading the stored result of a background job window by window
    (BackgroundTasks::get in src/oran-bootstrap/background_tasks.cpp). */
module ResultWindow {
  import opened Core
  import opened Utf8

  const MAX_WINDOW: nat := 16384

  datatype Window = Window(text: Text, next: Option<nat>)

  /** A position where a code point starts, or the end. */
  predicate Boundary(text: Text, i: nat) {
    i == |text| || (i < |text| && !IsContinuation(text[i]))
  }

  /** In valid text the bytes after a boundary are valid on their own. */
  lemma {:induction false} BoundarySplits(text: Text, i: nat)
    requires Valid(text) && Boundary(text, i)
    ensures Valid(text[i..])
    decreases |text|
  {
    if i == |text| {
      assert text[i..] == [];
    } else if i == 0 {
      assert text[0..] == text;
    } else {
      var n := LeadLength(text[0]);
      assert Head(text)[0] == text[0];
      assert text[i..] == text[n..][i - n..];
      BoundarySplits(text[n..], i - n);
    }
  }

  /** One window: an exact piece of the result from `offset`, and where the next one starts. A valid
      result can be read from every code point boundary with a window of four bytes or more. */
  method GetWindow(result: Text, offset: nat, maxBytes: nat) returns (r: Result<Window>)
    ensures r.Err? ==> r.kind == InvalidArgument
    ensures r.Ok? ==> 1 <= maxBytes <= MAX_WINDOW && Boundary(result, offset)
    ensures r.Ok? ==> |r.value.text| <= maxBytes && offset + |r.value.text| <= |result|
    ensures r.Ok? ==> r.value.text == result[offset..offset + |r.value.text|]
    ensures r.Ok? ==> r.value.next == if offset + |r.value.text| < |result| then Some(offset + |r.value.text|) else None
    ensures r.Ok? && r.value.next.Some? ==> offset < r.value.next.value
    ensures Valid(result) && r.Ok? ==> Valid(r.value.text)
    ensures Valid(result) && r.Ok? && r.value.next.Some? ==> Boundary(result, r.value.next.value)
    ensures Valid(result) && 4 <= maxBytes <= MAX_WINDOW ==> (r.Ok? <==> Boundary(result, offset))
  {
    if maxBytes == 0 || maxBytes > MAX_WINDOW || offset > |result| || (offset < |result| && IsContinuation(result[offset])) {
      return Err(InvalidArgument);
    }
    var rest := result[offset..];
    if Valid(result) {
      BoundarySplits(result, offset);
    }
    var text := TruncateToCodePoint(rest, maxBytes);
    if text == [] && offset < |result| {
      return Err(InvalidArgument);
    }
    var end := offset + |text|;
    assert rest[|text|..] == result[end..];
    assert Valid(result) && end < |result| ==> HeadOk(result[end..]) && result[end..][0] == result[end];
    return Ok(Window(text, if end < |result| then Some(end) else None));
  }

  lemma ReadStep(result: Text, parts: seq<Text>, offset: nat, text: Text)
    requires offset + |text| <= |result| && text == result[offset..offset + |text|] && Flatten(parts) == result[..offset]
    ensures Flatten(parts + [text]) == result[..offset + |text|]
  {
    FlattenAppend(parts, text);
    assert result[..offset + |text|] == result[..offset] + text;
  }

  /** Following the windows from the start returns the whole result, in valid pieces. */
  method ReadAll(result: Text, maxBytes: nat) returns (parts: seq<Text>)
    requires Valid(result) && 4 <= maxBytes <= MAX_WINDOW
    ensures Flatten(parts) == result && forall p :: p in parts ==> Valid(p) && |p| <= maxBytes
  {
    parts := [];
    var offset := 0;
    assert Boundary(result, 0) by { assert result != [] ==> HeadOk(result) && Head(result)[0] == result[0]; }
    while true
      invariant offset <= |result| && Boundary(result, offset) && Flatten(parts) == result[..offset]
      invariant forall p :: p in parts ==> Valid(p) && |p| <= maxBytes
      decreases |result| - offset
    {
      var r := GetWindow(result, offset, maxBytes);
      ReadStep(result, parts, offset, r.value.text);
      parts := parts + [r.value.text];
      if r.value.next.None? {
        assert result[..|result|] == result;
        return;
      }
      offset := r.value.next.value;
    }
  }
}

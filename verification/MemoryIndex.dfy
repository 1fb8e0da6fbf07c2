/** Byte-budgeted memory index pages (src/oran-memory/recall_index.cpp) and the walk over all
    pages of a fixed record list (src/oran-memory/longterm_index.cpp). */
module MemoryIndex {
  import opened Core

  /** A record with its rendered index line; text is counted in bytes, one character each. */
  datatype Row = Row(key: string, line: string)

  datatype IndexRequest = IndexRequest(limit: nat, offset: nat, maxBytes: nat)

  /** `bytes` is the size of the rendered page text. */
  datatype IndexPage = IndexPage(rows: seq<Row>, bytes: nat, nextOffset: Option<nat>, omitted: nat)

  const HEADER_BYTES: nat := 173
  const FOOTER_RESERVE: nat := 192
  const MORE_FOOTER_BYTES: nat := 70
  const OMITTED_FOOTER_BYTES: nat := 49
  const NO_NOTES_BYTES: nat := 33
  const END_OF_PAGES_BYTES: nat := 28
  const MAX_LIMIT: nat := 20
  const MIN_INDEX_BYTES: nat := 512
  const MAX_INDEX_BYTES: nat := 8192
  const MAX_OFFSET: nat := 0x7FFF_FFFF_FFFF_FFFF - 100

  predicate ValidRequest(request: IndexRequest) {
    && 0 < request.limit <= MAX_LIMIT
    && request.offset <= MAX_OFFSET
    && MIN_INDEX_BYTES <= request.maxBytes <= MAX_INDEX_BYTES
  }

  // ---------------------------------------------------------------- decimal width of the footers

  function Digits(n: nat): nat {
    if n < 10 then 1 else 1 + Digits(n / 10)
  }

  function Pow10(k: nat): nat {
    if k == 0 then 1 else 10 * Pow10(k - 1)
  }

  lemma {:induction false} DigitsBound(n: nat, k: nat)
    requires 0 < k && n < Pow10(k)
    ensures Digits(n) <= k
    decreases k
  {
    if n >= 10 {
      assert k >= 2 by { assert Pow10(1) == 10 * Pow10(0); }
      assert n / 10 < Pow10(k - 1);
      DigitsBound(n / 10, k - 1);
    }
  }

  lemma OffsetDigits(n: nat)
    requires n <= MAX_OFFSET + MAX_LIMIT
    ensures Digits(n) <= 19
  {
    assert Pow10(4) == 10000;
    assert Pow10(8) == 1_0000_0000 by { assert Pow10(6) == 1000000; }
    assert Pow10(12) == 1_0000_0000_0000 by { assert Pow10(10) == 100_0000_0000; }
    assert Pow10(16) == 1_0000_0000_0000_0000 by { assert Pow10(14) == 100_0000_0000_0000; }
    assert Pow10(19) == 1000_0000_0000_0000_0000 by { assert Pow10(18) == 100_0000_0000_0000_0000; }
    DigitsBound(n, 19);
  }

  // ---------------------------------------------------------------- one page

  function LinesBytes(rows: seq<Row>): nat {
    if rows == [] then 0 else LinesBytes(rows[..|rows| - 1]) + |rows[|rows| - 1].line|
  }

  /** A line too long for any page of this budget. */
  predicate Oversized(row: Row, maxBytes: nat) {
    |row.line| + HEADER_BYTES + FOOTER_RESERVE > maxBytes
  }

  /** The rows that can be shown at all, in order. */
  function Fitting(rows: seq<Row>, maxBytes: nat): seq<Row> {
    if rows == [] then []
    else
      var last := rows[|rows| - 1];
      Fitting(rows[..|rows| - 1], maxBytes) + (if Oversized(last, maxBytes) then [] else [last])
  }

  function RenderedBytes(page: IndexPage, request: IndexRequest, noCandidates: bool): nat {
    HEADER_BYTES + LinesBytes(page.rows)
    + (if page.nextOffset.Some? then MORE_FOOTER_BYTES + Digits(page.nextOffset.value) else 0)
    + (if page.omitted != 0 then OMITTED_FOOTER_BYTES + Digits(page.omitted) else 0)
    + (if !noCandidates then 0 else if request.offset == 0 then NO_NOTES_BYTES else END_OF_PAGES_BYTES)
  }

  /** The page consumes the first `consumed` candidates: the fitting ones are its rows and the
      others are counted as omitted. */
  predicate Consumes(page: IndexPage, candidates: seq<Row>, consumed: nat, maxBytes: nat) {
    && consumed <= |candidates|
    && page.rows == Fitting(candidates[..consumed], maxBytes)
    && page.omitted + |page.rows| == consumed
  }

  lemma FittingStep(rows: seq<Row>, k: nat, maxBytes: nat)
    requires k < |rows|
    ensures Fitting(rows[..k + 1], maxBytes) ==
      Fitting(rows[..k], maxBytes) + (if Oversized(rows[k], maxBytes) then [] else [rows[k]])
  {
    assert rows[..k + 1][..k] == rows[..k];
  }

  /** A page never exceeds its byte budget, footers included, and takes at least one candidate
      when there is one. */
  method MakeIndex(candidates: seq<Row>, request: IndexRequest) returns (r: Result<IndexPage>, consumed: nat)
    ensures r.Ok? <==> ValidRequest(request)
    ensures r.Err? ==> r.kind == InvalidArgument
    ensures r.Ok? ==> Consumes(r.value, candidates, consumed, request.maxBytes)
    ensures r.Ok? ==> consumed <= request.limit && (candidates != [] ==> consumed > 0)
    ensures r.Ok? ==>
      r.value.nextOffset == (if consumed < |candidates| then Some(request.offset + consumed) else None)
    ensures r.Ok? ==> r.value.bytes == RenderedBytes(r.value, request, candidates == []) <= request.maxBytes
  {
    consumed := 0;
    if !ValidRequest(request) {
      return Err(InvalidArgument), 0;
    }
    var rows: seq<Row> := [];
    var omitted, bytes := 0, HEADER_BYTES;
    var first := if request.limit < |candidates| then request.limit else |candidates|;
    assert candidates[..0] == [];
    while consumed < first
      invariant consumed <= first
      invariant rows == Fitting(candidates[..consumed], request.maxBytes)
      invariant omitted + |rows| == consumed
      invariant bytes == HEADER_BYTES + LinesBytes(rows)
      invariant bytes + FOOTER_RESERVE <= request.maxBytes
      invariant consumed == 0 ==> bytes == HEADER_BYTES
    {
      var candidate := candidates[consumed];
      FittingStep(candidates, consumed, request.maxBytes);
      if |candidate.line| > request.maxBytes - HEADER_BYTES - FOOTER_RESERVE {
        omitted := omitted + 1;
        consumed := consumed + 1;
        continue;
      }
      if bytes + |candidate.line| + FOOTER_RESERVE > request.maxBytes {
        break;
      }
      assert (rows + [candidate])[..|rows|] == rows;
      bytes := bytes + |candidate.line|;
      rows := rows + [candidate];
      consumed := consumed + 1;
    }
    var page := AddFooters(rows, bytes, omitted, consumed, |candidates|, request);
    r := Ok(page);
  }

  /** The page once its lines are chosen: the footers fit what was reserved for them. */
  method AddFooters(rows: seq<Row>, lines: nat, omitted: nat, consumed: nat, available: nat, request: IndexRequest)
    returns (page: IndexPage)
    requires ValidRequest(request) && consumed <= available && omitted <= consumed <= request.limit
    requires lines == HEADER_BYTES + LinesBytes(rows) && lines + FOOTER_RESERVE <= request.maxBytes
    ensures page.rows == rows && page.omitted == omitted
    ensures page.nextOffset == if consumed < available then Some(request.offset + consumed) else None
    ensures page.bytes == RenderedBytes(page, request, available == 0) <= request.maxBytes
  {
    var bytes := lines;
    var nextOffset: Option<nat> := None;
    if consumed < available {
      nextOffset := Some(request.offset + consumed);
      OffsetDigits(request.offset + consumed);
      bytes := bytes + MORE_FOOTER_BYTES + Digits(request.offset + consumed);
    }
    if omitted != 0 {
      assert Digits(omitted) <= 2 by {
        assert Pow10(2) == 100;
        DigitsBound(omitted, 2);
      }
      bytes := bytes + OMITTED_FOOTER_BYTES + Digits(omitted);
    }
    if available == 0 {
      bytes := bytes + (if request.offset == 0 then NO_NOTES_BYTES else END_OF_PAGES_BYTES);
    }
    page := IndexPage(rows, bytes, nextOffset, omitted);
  }

  // ---------------------------------------------------------------- all pages

  /** What the store returns for a page: one row more than the limit, from the offset on. */
  function Listed(records: seq<Row>, request: IndexRequest): seq<Row> {
    var from := if request.offset < |records| then request.offset else |records|;
    var to := if from + request.limit + 1 < |records| then from + request.limit + 1 else |records|;
    records[from..to]
  }

  lemma FittingConcat(rows: seq<Row>, i: nat, j: nat, maxBytes: nat)
    requires i <= j <= |rows|
    ensures Fitting(rows[..j], maxBytes) == Fitting(rows[..i], maxBytes) + Fitting(rows[i..j], maxBytes)
    decreases j - i
  {
    if i == j {
      assert rows[i..j] == [];
    } else {
      FittingConcat(rows, i, j - 1, maxBytes);
      FittingStep(rows, j - 1, maxBytes);
      assert rows[i..j][..j - 1 - i] == rows[i..j - 1];
    }
  }

  lemma PageAdvances(records: seq<Row>, request: IndexRequest, consumed: nat)
    requires request.offset <= |records| && consumed <= request.limit
    requires consumed <= |Listed(records, request)|
    ensures request.offset + consumed <= |records|
    ensures consumed == |Listed(records, request)| <==> request.offset + consumed == |records|
    ensures Fitting(records[..request.offset + consumed], request.maxBytes) ==
      Fitting(records[..request.offset], request.maxBytes) + Fitting(Listed(records, request)[..consumed], request.maxBytes)
  {
    var i, j := request.offset, request.offset + consumed;
    assert Listed(records, request)[..consumed] == records[i..j];
    FittingConcat(records, i, j, request.maxBytes);
  }

  /** Following `nextOffset` from zero ends after at most one page per record, and shows every
      record that fits a page exactly once, in order; every other record is counted as omitted. */
  method BrowseAll(records: seq<Row>, limit: nat, maxBytes: nat)
    returns (r: Result<seq<Row>>, omitted: nat, pages: nat)
    requires |records| <= MAX_OFFSET
    ensures r.Ok? <==> ValidRequest(IndexRequest(limit, 0, maxBytes))
    ensures r.Ok? ==> r.value == Fitting(records, maxBytes)
    ensures r.Ok? ==> omitted + |r.value| == |records|
    ensures r.Ok? ==> pages <= |records| + 1
  {
    omitted, pages := 0, 0;
    var shown: seq<Row> := [];
    var offset := 0;
    while true
      invariant offset <= |records| && pages <= offset
      invariant offset > 0 ==> ValidRequest(IndexRequest(limit, 0, maxBytes)) && offset < |records|
      invariant shown == Fitting(records[..offset], maxBytes)
      invariant omitted + |shown| == offset
      decreases |records| - offset
    {
      var request := IndexRequest(limit, offset, maxBytes);
      var candidates := Listed(records, request);
      var page, consumed := MakeIndex(candidates, request);
      if page.Err? {
        return Err(page.kind), omitted, pages;
      }
      pages := pages + 1;
      PageAdvances(records, request, consumed);
      shown := shown + page.value.rows;
      omitted := omitted + page.value.omitted;
      if page.value.nextOffset.None? {
        assert records[..|records|] == records;
        return Ok(shown), omitted, pages;
      }
      offset := page.value.nextOffset.value;
    }
  }
}

/**
 * The result-printing loop of `ElasticSearchConnector.queryResultsWithFieldFields`.
 * The search call itself is not modelled: its outcome, a response or an
 * `IOException`, is the input. The loop never asks for a next page, so it sees
 * the first response on every pass; the set of seen scroll ids stops it on the
 * second pass, or the `while` test on the first when the page is empty.
 */
module ElasticSearchConnector {
  import opened Wrappers
  import opened JavaTypes
  import opened JavaText

  /** One entry of a hit's source map: its key and the text `String.valueOf` gives its value. */
  datatype Entry = Entry(key: string, value: string)

  /**
   * A search hit: its document id, the text `Float.toString` gives its score, and
   * the entries of `getSourceAsMap()` in iteration order.
   */
  datatype Hit = Hit(docId: int32, score: string, source: seq<Entry>)

  /** What the loop reads of a `SearchResponse`: its scroll id and its page of hits. */
  datatype SearchResponse = SearchResponse(scrollId: string, hits: seq<Hit>)

  datatype IOException = IOException

  /** A line written through the logger, at level INFO or ERROR. */
  datatype LogRecord = Info(message: string) | Error(message: string)

  /** A Java array's length is an `int`. */
  predicate ValidResponse(r: SearchResponse) {
    |r.hits| < 0x8000_0000
  }

  /** The text appended for one entry: " key(value)". */
  function EntryText(e: Entry): string {
    " " + e.key + "(" + e.value + ")"
  }

  /** The texts of the entries, in order. */
  function EntriesText(entries: seq<Entry>): string {
    if entries == [] then "" else EntriesText(entries[..|entries| - 1]) + EntryText(entries[|entries| - 1])
  }

  /** The part of a hit's line before its entries: "doc: <docId>, Score: <score> =". */
  function LineHead(h: Hit): string {
    "doc: " + IntToString(h.docId) + ", Score: " + h.score + " ="
  }

  /** The line logged for a hit. */
  function HitLine(h: Hit): string {
    LineHead(h) + EntriesText(h.source)
  }

  /** The lines logged for a page of hits, one per hit, in order. */
  function HitLines(hits: seq<Hit>): (lines: seq<string>)
    ensures |lines| == |hits|
  {
    if hits == [] then [] else HitLines(hits[..|hits| - 1]) + [HitLine(hits[|hits| - 1])]
  }

  /** The closing line, `"Hits: {}, Scrolls: {}"` with its two arguments filled in. */
  function Summary(hitCount: int, scrollCount: int): (s: string)
    ensures |s| > 6 && s[..6] == "Hits: "
  {
    "Hits: " + IntToString(hitCount) + ", Scrolls: " + IntToString(scrollCount)
  }

  function InfoRecords(lines: seq<string>): (records: seq<LogRecord>)
    ensures |records| == |lines|
    ensures forall i :: 0 <= i < |lines| ==> records[i] == Info(lines[i])
  {
    seq(|lines|, i requires 0 <= i < |lines| => Info(lines[i]))
  }

  /** One line per hit: line `i` is the line of hit `i`. */
  lemma {:induction false} HitLinesAt(hits: seq<Hit>, i: nat)
    requires i < |hits|
    ensures HitLines(hits)[i] == HitLine(hits[i])
    decreases |hits|
  {
    if i < |hits| - 1 {
      HitLinesAt(hits[..|hits| - 1], i);
    }
  }

  /** A line holds nothing of any other hit: pages that agree on hit `i` log the same line `i`. */
  lemma {:induction false} LineDependsOnlyOnItsHit(a: seq<Hit>, b: seq<Hit>, i: nat)
    requires i < |a| && i < |b| && a[i] == b[i]
    ensures HitLines(a)[i] == HitLines(b)[i]
  {
    HitLinesAt(a, i);
    HitLinesAt(b, i);
  }

  /** The text before the first `sep` in `s`, or all of `s` if there is none. */
  function Before(s: string, sep: char): (r: string)
    ensures |r| <= |s| && r == s[..|r|]
  {
    if s == [] || s[0] == sep then [] else [s[0]] + Before(s[1..], sep)
  }

  lemma {:induction false} BeforeAppend(a: string, b: string, sep: char)
    requires sep !in a && b != [] && b[0] == sep
    ensures Before(a + b, sep) == a
    decreases |a|
  {
    if a != [] {
      assert (a + b)[1..] == a[1..] + b;
      BeforeAppend(a[1..], b, sep);
    }
  }

  /** Reads the document id back out of a logged line. */
  function ParseDocId(line: string): Option<int> {
    if |line| >= 5 && line[..5] == "doc: " then ParseInt(Before(line[5..], ',')) else None
  }

  /** The document id can be read back from every hit's line. */
  lemma DocIdRoundTrip(h: Hit)
    ensures ParseDocId(HitLine(h)) == Some(h.docId)
  {
    var rest := ", Score: " + h.score + " =" + EntriesText(h.source);
    assert HitLine(h) == "doc: " + IntToString(h.docId) + rest;
    ParseDocIdPrefix(h.docId, rest);
  }

  /** A line that starts "doc: <id>," gives back `id`, whatever follows. */
  lemma ParseDocIdPrefix(id: int, rest: string)
    requires rest != [] && rest[0] == ','
    ensures ParseDocId("doc: " + IntToString(id) + rest) == Some(id)
  {
    var line := "doc: " + IntToString(id) + rest;
    assert line[..5] == "doc: ";
    assert line[5..] == IntToString(id) + rest;
    NumberBeforeComma(id, rest);
  }

  /** The decimal text of a number, then a comma: the text before the comma reads back as the number. */
  lemma NumberBeforeComma(id: int, rest: string)
    requires rest != [] && rest[0] == ','
    ensures ParseInt(Before(IntToString(id) + rest, ',')) == Some(id)
  {
    var text := IntToString(id);
    NoCommaInInt(id);
    BeforeAppend(text, rest, ',');
    IntToStringRoundTrip(id);
  }

  /** Reads the hit count back out of the closing line. */
  function ParseHitCount(line: string): Option<int> {
    if |line| >= 6 && line[..6] == "Hits: " then ParseInt(Before(line[6..], ',')) else None
  }

  /** Reads the scroll count back out of the closing line: the number after ", Scrolls: ". */
  function ParseScrollCount(line: string): Option<int> {
    if |line| >= 6 && line[..6] == "Hits: " then
      var afterCount := line[6 + |Before(line[6..], ',')|..];
      if |afterCount| >= 11 && afterCount[..11] == ", Scrolls: " then ParseInt(afterCount[11..]) else None
    else None
  }

  /** The closing line reports both counts it was given, signs included. */
  lemma SummaryRoundTrip(hitCount: int, scrollCount: int)
    ensures ParseHitCount(Summary(hitCount, scrollCount)) == Some(hitCount)
    ensures ParseScrollCount(Summary(hitCount, scrollCount)) == Some(scrollCount)
  {
    var rest := ", Scrolls: " + IntToString(scrollCount);
    assert Summary(hitCount, scrollCount) == "Hits: " + IntToString(hitCount) + rest;
    ParseHitCountPrefix(hitCount, rest);
    NoCommaInInt(hitCount);
    ScrollsTail(scrollCount);
    ParseScrollCountAfter(IntToString(hitCount), rest);
  }

  /** After "Hits: <text>" with no comma in `text`, what follows ", Scrolls: " is parsed. */
  lemma ParseScrollCountAfter(text: string, rest: string)
    requires ',' !in text
    requires |rest| >= 11 && rest[..11] == ", Scrolls: "
    ensures ParseScrollCount("Hits: " + text + rest) == ParseInt(rest[11..])
  {
    var line := "Hits: " + text + rest;
    assert line[..6] == "Hits: ";
    assert line[6..] == text + rest;
    BeforeAppend(text, rest, ',');
    assert line[6 + |text|..] == rest;
  }

  lemma NoCommaInInt(n: int)
    ensures ',' !in IntToString(n)
  {
    var text := IntToString(n);
    if n < 0 {
      assert text == [text[0]] + text[1..];
    }
  }

  lemma ScrollsTail(k: int)
    ensures |", Scrolls: " + IntToString(k)| >= 11
    ensures (", Scrolls: " + IntToString(k))[..11] == ", Scrolls: "
    ensures ParseInt((", Scrolls: " + IntToString(k))[11..]) == Some(k)
  {
    var rest := ", Scrolls: " + IntToString(k);
    assert rest[11..] == IntToString(k);
    IntToStringRoundTrip(k);
  }

  /** A line that starts "Hits: <n>," gives back `n`, whatever follows. */
  lemma ParseHitCountPrefix(n: int, rest: string)
    requires rest != [] && rest[0] == ','
    ensures ParseHitCount("Hits: " + IntToString(n) + rest) == Some(n)
  {
    var line := "Hits: " + IntToString(n) + rest;
    assert line[..6] == "Hits: ";
    assert line[6..] == IntToString(n) + rest;
    NumberBeforeComma(n, rest);
  }

  /**
   * Lines 180-184: the pass's one builder, holding `prev` from the hit before, is
   * emptied by `setLength(0)`, then receives the head of the line and one
   * " key(value)" per source entry; what it holds is the hit's line, whatever `prev` was.
   */
  method RenderHit(prev: string, hit: Hit) returns (builder: string)
    ensures builder == HitLine(hit)
  {
    builder := prev[..0];
    builder := builder + "doc: " + IntToString(hit.docId) + ", Score: " + hit.score + " =";
    for j := 0 to |hit.source|
      invariant builder == LineHead(hit) + EntriesText(hit.source[..j])
    {
      var entry := hit.source[j];
      assert hit.source[..j + 1][..j] == hit.source[..j];
      builder := builder + " " + entry.key + "(" + entry.value + ")";
    }
    assert hit.source[..|hit.source|] == hit.source;
  }

  /** Logging hit `i` extends the lines of the hits before it by that hit's line. */
  lemma LogStep(logged: seq<string>, hits: seq<Hit>, i: nat)
    requires i < |hits|
    ensures logged + HitLines(hits[..i + 1]) == logged + HitLines(hits[..i]) + [HitLine(hits[i])]
  {
    assert hits[..i + 1][..i] == hits[..i];
  }

  /**
   * Lines 176-186: the `for` loop over the page. Each hit adds one to the counter
   * and appends its own line to what was logged before; the pass's one builder,
   * `builder0` on entry, is reused for every hit.
   */
  method LogPage(hits: seq<Hit>, hitCount0: int32, logged: seq<string>, builder0: string)
    returns (hitCount: int32, lines: seq<string>)
    requires hitCount0 + |hits| < 0x8000_0000
    ensures hitCount == hitCount0 + |hits|
    ensures lines == logged + HitLines(hits)
  {
    hitCount, lines := hitCount0, logged;
    var builder := builder0;
    for i := 0 to |hits|
      invariant hitCount == hitCount0 + i
      invariant lines == logged + HitLines(hits[..i])
    {
      var hit := hits[i];
      hitCount := hitCount + 1;
      builder := RenderHit(builder, hit);
      LogStep(logged, hits, i);
      lines := lines + [builder];
    }
    assert hits[..|hits|] == hits;
  }

  /**
   * Lines 167-187: the do/while over the one response. Every hit is counted and
   * logged exactly once, in order; the set of seen scroll ids ends as the one id of
   * the response. `passes` counts how often the loop body starts: once for an empty
   * page (the `while` test ends it), twice otherwise (the seen-id test ends it).
   */
  method ConsumeScroll(scrollResp: SearchResponse)
    returns (hitCount: int32, scrolls: set<string>, lines: seq<string>, ghost passes: nat)
    requires ValidResponse(scrollResp)
    ensures hitCount == |scrollResp.hits|
    ensures scrolls == {scrollResp.scrollId}
    ensures |lines| == |scrollResp.hits|
    ensures lines == HitLines(scrollResp.hits)
    ensures passes == if |scrollResp.hits| == 0 then 1 else 2
  {
    var hits := scrollResp.hits;
    hitCount := 0;
    scrolls := {};
    lines := [];
    passes := 0;
    while true
      invariant scrolls == {} ==> passes == 0 && hitCount == 0 && lines == []
      invariant scrolls != {} ==> scrolls == {scrollResp.scrollId} && passes == 1 && hits != []
      invariant scrolls != {} ==> hitCount == |hits| && lines == HitLines(hits)
      decreases if scrollResp.scrollId in scrolls then 0 else 1
    {
      passes := passes + 1;
      var builder := "";
      if scrollResp.scrollId in scrolls {
        break;
      }
      scrolls := scrolls + {scrollResp.scrollId};
      hitCount, lines := LogPage(hits, hitCount, lines, builder);
      if |hits| == 0 {
        break;
      }
    }
  }

  /**
   * `queryResultsWithFieldFields`: the outcome of the search call is `search`. An
   * `IOException` logs one error and nothing else; a response logs its hit lines
   * and then the summary, which always reports one scroll.
   */
  method QueryResultsWithFieldFields(search: Result<SearchResponse, IOException>)
    returns (log: seq<LogRecord>)
    requires search.Success? ==> ValidResponse(search.value)
    ensures search.Failure? ==> log == [Error("Request error")]
    ensures search.Success? ==>
      log == InfoRecords(HitLines(search.value.hits)) + [Info(Summary(|search.value.hits|, 1))]
  {
    match search
    case Failure(_) =>
      log := [Error("Request error")];
    case Success(scrollResp) =>
      var hitCount, scrolls, lines, _ := ConsumeScroll(scrollResp);
      log := InfoRecords(lines) + [Info(Summary(hitCount, |scrolls|))];
  }
}

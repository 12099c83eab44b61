/** Reading a session log in pages, and keeping the best hits of a stream (extensions/history-search/extension.ts).
    A record is the UTF-8 bytes of its rendered, redacted row. */
module HistorySearch {
  import opened Wrappers

  type Byte = b: int | 0 <= b < 256
  type Text = seq<Byte>

  // ----- cutting text on a character boundary -----

  predicate Continuation(b: Byte) {
    0x80 <= b < 0xc0
  }

  function CutPoint(text: Text, end: nat): (cut: nat)
    requires end < |text|
    ensures cut <= end && (cut > 0 ==> !Continuation(text[cut]))
    ensures forall i | cut < i <= end :: Continuation(text[i])
  {
    if end > 0 && Continuation(text[end]) then CutPoint(text, end - 1) else end
  }

  function Truncated(text: Text, bytes: nat): Text {
    if |text| <= bytes then text else text[..CutPoint(text, bytes)]
  }

  /** The whole text when it fits; else its longest beginning within the limit that ends where a character begins: at a
      byte whose two high bits are not 10. */
  method TruncateUtf8(text: Text, bytes: nat) returns (cut: Text)
    ensures cut == Truncated(text, bytes) && cut <= text && |cut| <= bytes
    ensures |text| <= bytes ==> cut == text
    ensures |text| > bytes ==> (cut != [] ==> text[|cut|] / 64 != 2) && forall i | |cut| < i <= bytes :: text[i] / 64 == 2
  {
    if |text| <= bytes {
      return text;
    }
    var end := bytes;
    while end > 0 && Continuation(text[end])
      invariant 0 <= end <= bytes && CutPoint(text, end) == CutPoint(text, bytes)
    {
      end := end - 1;
    }
    cut := text[..end];
  }

  // ----- one page -----

  /** A log entry: the session header, which is never shown, or a record. */
  datatype Entry = Header | Record(row: Text)

  function Rows(entries: seq<Entry>): seq<Text> {
    if entries == [] then []
    else Rows(entries[..|entries| - 1]) + (match entries[|entries| - 1] case Header => [] case Record(row) => [row])
  }

  function Concat(rows: seq<Text>): Text {
    if rows == [] then [] else Concat(rows[..|rows| - 1]) + rows[|rows| - 1]
  }

  /** The text shows the rows one after another: it can be cut into them at growing positions. */
  predicate CutAt(text: Text, rows: seq<Text>, cuts: seq<nat>) {
    && |cuts| == |rows| + 1 && cuts[0] == 0 && cuts[|rows|] == |text|
    && forall i | 0 <= i < |rows| :: IsRow(text, cuts, i, rows[i])
  }

  predicate IsRow(text: Text, cuts: seq<nat>, i: nat, row: Text)
    requires i + 1 < |cuts|
  {
    cuts[i] <= cuts[i + 1] <= |text| && text[cuts[i]..cuts[i + 1]] == row
  }

  ghost predicate Shows(text: Text, rows: seq<Text>) {
    exists cuts: seq<nat> :: CutAt(text, rows, cuts)
  }

  lemma ShowsOneMore(text: Text, rows: seq<Text>, row: Text)
    requires Shows(text, rows)
    ensures Shows(text + row, rows + [row])
  {
    var cuts: seq<nat> :| CutAt(text, rows, cuts);
    var longer, all := text + row, rows + [row];
    var more: seq<nat> := cuts + [|longer|];
    forall i | 0 <= i < |all| ensures IsRow(longer, more, i, all[i]) {
      if i < |rows| {
        assert IsRow(text, cuts, i, rows[i]);
        assert longer[cuts[i]..cuts[i + 1]] == text[cuts[i]..cuts[i + 1]];
      }
    }
    assert CutAt(longer, all, more);
  }

  lemma {:induction false} ConcatShows(rows: seq<Text>)
    ensures Shows(Concat(rows), rows)
  {
    if rows == [] {
      assert CutAt([], rows, [0]);
    } else {
      var n := |rows| - 1;
      ConcatShows(rows[..n]);
      ShowsOneMore(Concat(rows[..n]), rows[..n], rows[n]);
      assert rows == rows[..n] + [rows[n]];
    }
  }

  lemma {:induction false} ConcatAppend(a: seq<Text>, b: seq<Text>)
    ensures Concat(a + b) == Concat(a) + Concat(b)
    decreases |b|
  {
    if b == [] {
      assert a + b == a;
    } else {
      var n := |b| - 1;
      assert (a + b)[..|a| + n] == a + b[..n];
      ConcatAppend(a, b[..n]);
    }
  }

  lemma {:induction false} PartsFit(rows: seq<Text>, i: nat)
    requires i < |rows|
    ensures |rows[i]| <= |Concat(rows)|
  {
    if i < |rows| - 1 {
      PartsFit(rows[..|rows| - 1], i);
    }
  }

  datatype Page = Page(offset: nat, emitted: nat, next: Option<nat>, transcript: Text, truncated: bool)

  /** The page promised for `rows` from `offset`. */
  predicate PageOf(rows: seq<Text>, offset: nat, limit: nat, max: nat, page: Page)
    requires limit > 0
  {
    var rest: seq<Text> := if offset <= |rows| then rows[offset..] else [];
    && page.offset == offset && page.emitted <= |rest| && page.emitted <= limit
    && page.next == (if page.truncated || page.emitted < |rest| then Some(offset + page.emitted) else None)
    && page.truncated == (rest != [] && |rest[0]| > max)
    && if page.truncated then page.emitted == 1 && page.transcript == Truncated(rest[0], max)
       else && page.transcript == Concat(rest[..page.emitted]) && |page.transcript| <= max
            && (page.emitted < |rest| && page.emitted < limit ==> |page.transcript| + |rest[page.emitted]| > max)
  }

  method ReadPage(entries: seq<Entry>, offset: nat, limit: nat, max: nat) returns (page: Page)
    requires limit > 0 && max > 0
    ensures PageOf(Rows(entries), offset, limit, max, page)
    ensures !page.truncated ==> Shows(page.transcript, ShownBy(Rows(entries), page))
    ensures page.truncated ==> |ShownBy(Rows(entries), page)| == 1 && page.transcript < ShownBy(Rows(entries), page)[0]
  {
    hide Rows, CutPoint;
    var count, emitted, more, truncated := 0, 0, false, false;
    var transcript: Text := [];
    ghost var rows := Rows(entries);
    ghost var rest: seq<Text> := if offset <= |rows| then rows[offset..] else [];
    var i := 0;
    NoRows(entries);
    while i < |entries|
      invariant i <= |entries| && count == |Rows(entries[..i])|
      invariant emitted == (if count > offset then count - offset else 0) <= limit
      invariant !more && !truncated && |transcript| <= max
      invariant emitted <= |rest| && transcript == Concat(rest[..emitted])
      invariant emitted > 0 ==> |rest[0]| <= max
    {
      RowAt(entries, i);
      var value := entries[i];
      i := i + 1;
      if value.Header? {
        continue;
      }
      var row := value.row;
      if count < offset {
        count := count + 1;
        continue;
      }
      count := count + 1;
      assert rest[emitted] == row;
      if emitted >= limit {
        more := true;
        break;
      }
      var remaining := max - |transcript|;
      var safe := TruncateUtf8(row, remaining);
      if |row| > remaining && emitted > 0 {
        more := true;
        break;
      }
      assert rest[..emitted + 1][..emitted] == rest[..emitted];
      transcript := transcript + safe;
      emitted := emitted + 1;
      if |row| > remaining {
        truncated, more := true, true;
        break;
      }
    }
    assert entries[..|entries|] == entries;
    page := Page(offset, emitted, if more then Some(offset + emitted) else None, transcript, truncated);
    PageTranscript(rows, offset, limit, max, page);
  }

  /** What a page shows, without saying how it was put together. */
  lemma PageTranscript(rows: seq<Text>, offset: nat, limit: nat, max: nat, page: Page)
    requires limit > 0 && PageOf(rows, offset, limit, max, page)
    ensures !page.truncated ==> Shows(page.transcript, ShownBy(rows, page))
    ensures page.truncated ==> |ShownBy(rows, page)| == 1 && page.transcript < ShownBy(rows, page)[0]
  {
    var rest: seq<Text> := if offset <= |rows| then rows[offset..] else [];
    if page.truncated {
      assert ShownBy(rows, page)[0] == rest[0];
    } else {
      ConcatShows(rest[..page.emitted]);
      if offset + page.emitted <= |rows| {
        assert ShownBy(rows, page) == rest[..page.emitted];
      } else {
        assert rest[..page.emitted] == [];
      }
    }
  }

  /** The rows are the records of the log, all of them and in its order. */
  predicate PicksRecords(entries: seq<Entry>, rows: seq<Text>, places: seq<nat>) {
    && |places| == |rows| && (forall k | 0 <= k < |rows| :: places[k] < |entries| && entries[places[k]] == Record(rows[k]))
    && (forall j, k | 0 <= j < k < |rows| :: places[j] < places[k])
    && forall i | 0 <= i < |entries| && entries[i].Record? :: i in places
  }

  lemma PicksOneMore(entries: seq<Entry>, rows: seq<Text>, places: seq<nat>, row: Text)
    requires PicksRecords(entries, rows, places)
    ensures PicksRecords(entries + [Record(row)], rows + [row], places + [|entries|])
  {
    var longer, more := entries + [Record(row)], places + [|entries|];
    forall i | 0 <= i < |longer| && longer[i].Record? ensures i in more {
      assert more[|places|] == |entries|;
      if i < |entries| {
        assert longer[i] == entries[i] && i in places;
      }
    }
  }

  lemma PicksHeader(entries: seq<Entry>, rows: seq<Text>, places: seq<nat>)
    requires PicksRecords(entries, rows, places)
    ensures PicksRecords(entries + [Header], rows, places)
  {
  }

  lemma {:induction false} RowsAreTheRecords(entries: seq<Entry>) returns (places: seq<nat>)
    ensures PicksRecords(entries, Rows(entries), places)
    decreases |entries|
  {
    if entries == [] {
      places := [];
    } else {
      var n := |entries| - 1;
      places := RowsAreTheRecords(entries[..n]);
      hide PicksRecords;
      assert entries == entries[..n] + [entries[n]];
      match entries[n]
      case Header => PicksHeader(entries[..n], Rows(entries[..n]), places);
      case Record(row) =>
        PicksOneMore(entries[..n], Rows(entries[..n]), places, row);
        places := places + [n];
    }
  }

  lemma NoRows(entries: seq<Entry>)
    ensures Rows(entries[..0]) == []
  {
  }

  lemma RowAt(entries: seq<Entry>, i: nat)
    requires i < |entries|
    ensures Rows(entries[..i + 1]) == Rows(entries[..i]) + (match entries[i] case Header => [] case Record(row) => [row])
    ensures |Rows(entries[..i + 1])| <= |Rows(entries)|
    ensures entries[i].Record? ==> Rows(entries)[|Rows(entries[..i])|] == entries[i].row
  {
    assert entries[..i + 1][..i] == entries[..i];
    RowsPrefix(entries, i + 1);
  }

  lemma {:induction false} RowsPrefix(entries: seq<Entry>, n: nat)
    requires n <= |entries|
    ensures Rows(entries[..n]) <= Rows(entries)
    decreases |entries|
  {
    if n == |entries| {
      assert entries[..n] == entries;
    } else {
      assert entries[..|entries| - 1][..n] == entries[..n];
      RowsPrefix(entries[..|entries| - 1], n);
    }
  }

  // ----- all pages -----

  /** The pages got by following `nextOffset` from `offset` until there is none. */
  predicate Chain(rows: seq<Text>, offset: nat, limit: nat, max: nat, pages: seq<Page>)
    requires limit > 0
    decreases |pages|
  {
    && pages != [] && PageOf(rows, offset, limit, max, pages[0])
    && if |pages| == 1 then pages[0].next.None?
       else pages[0].next.Some? && Chain(rows, pages[0].next.value, limit, max, pages[1..])
  }

  /** The records a page shows. */
  function ShownBy(rows: seq<Text>, page: Page): seq<Text> {
    if page.offset + page.emitted <= |rows| then rows[page.offset..page.offset + page.emitted] else []
  }

  function Shown(rows: seq<Text>, pages: seq<Page>): seq<Text> {
    if pages == [] then [] else ShownBy(rows, pages[0]) + Shown(rows, pages[1..])
  }

  /** Following `nextOffset` terminates. */
  method ReadAll(entries: seq<Entry>, limit: nat, max: nat) returns (pages: seq<Page>)
    requires limit > 0 && max > 0
    ensures Chain(Rows(entries), 0, limit, max, pages)
  {
    ghost var rows := Rows(entries);
    var page := ReadPage(entries, 0, limit, max);
    pages := [page];
    while page.next.Some?
      invariant pages != [] && page == pages[|pages| - 1] && OpenChain(rows, 0, limit, max, pages)
      decreases if page.next.Some? then |rows| + 1 - page.next.value else 0
    {
      OpenChainLast(rows, 0, limit, max, pages);
      var following := ReadPage(entries, page.next.value, limit, max);
      OpenChainSnoc(rows, 0, limit, max, pages, following);
      page := following;
      pages := pages + [page];
    }
    OpenChainCloses(rows, 0, limit, max, pages);
  }

  /** A chain whose last page may still name a next one. */
  predicate OpenChain(rows: seq<Text>, offset: nat, limit: nat, max: nat, pages: seq<Page>)
    requires limit > 0
    decreases |pages|
  {
    && pages != [] && PageOf(rows, offset, limit, max, pages[0])
    && (|pages| > 1 ==> pages[0].next.Some? && OpenChain(rows, pages[0].next.value, limit, max, pages[1..]))
  }

  lemma {:induction false} OpenChainLast(rows: seq<Text>, offset: nat, limit: nat, max: nat, pages: seq<Page>)
    requires limit > 0 && max > 0 && OpenChain(rows, offset, limit, max, pages)
    ensures var last := pages[|pages| - 1];
            PageOf(rows, last.offset, limit, max, last) && (last.next.Some? ==> last.offset < last.next.value <= |rows|)
    decreases |pages|
  {
    if |pages| > 1 {
      OpenChainLast(rows, pages[0].next.value, limit, max, pages[1..]);
    } else {
      PageProgresses(rows, offset, limit, max, pages[0]);
    }
  }

  /** A page that is not the last one shows at least one record. */
  lemma PageProgresses(rows: seq<Text>, offset: nat, limit: nat, max: nat, page: Page)
    requires limit > 0 && max > 0 && PageOf(rows, offset, limit, max, page)
    ensures page.next.Some? ==> offset < page.next.value <= |rows|
  {
    var rest: seq<Text> := if offset <= |rows| then rows[offset..] else [];
    assert rest[..0] == [] && Concat(rest[..0]) == [];
  }

  lemma {:induction false} OpenChainSnoc(rows: seq<Text>, offset: nat, limit: nat, max: nat, pages: seq<Page>, page: Page)
    requires limit > 0 && OpenChain(rows, offset, limit, max, pages) && pages[|pages| - 1].next.Some?
    requires PageOf(rows, pages[|pages| - 1].next.value, limit, max, page)
    ensures OpenChain(rows, offset, limit, max, pages + [page])
    decreases |pages|
  {
    assert (pages + [page])[1..] == pages[1..] + [page];
    if |pages| > 1 {
      OpenChainSnoc(rows, pages[0].next.value, limit, max, pages[1..], page);
    } else {
      assert pages[1..] + [page] == [page];
    }
  }

  lemma {:induction false} OpenChainCloses(rows: seq<Text>, offset: nat, limit: nat, max: nat, pages: seq<Page>)
    requires limit > 0 && OpenChain(rows, offset, limit, max, pages) && pages[|pages| - 1].next.None?
    ensures Chain(rows, offset, limit, max, pages)
    decreases |pages|
  {
    if |pages| > 1 {
      OpenChainCloses(rows, pages[0].next.value, limit, max, pages[1..]);
    }
  }

  /** All that the pages of a chain show. */
  function Transcripts(pages: seq<Page>): Text {
    if pages == [] then [] else pages[0].transcript + Transcripts(pages[1..])
  }

  /** The records as any page shows them: whole, or cut when larger than a page. */
  function Capped(rows: seq<Text>, max: nat): seq<Text> {
    seq(|rows|, i requires 0 <= i < |rows| => Truncated(rows[i], max))
  }

  /** One page shows its records as they are capped. */
  lemma PageShowsCapped(rows: seq<Text>, offset: nat, limit: nat, max: nat, page: Page)
    requires limit > 0 && offset <= |rows| && PageOf(rows, offset, limit, max, page)
    ensures page.transcript == Concat(Capped(ShownBy(rows, page), max))
  {
    hide Concat;
    var shown := ShownBy(rows, page);
    assert shown == rows[offset..][..page.emitted];
    if page.truncated {
      assert Capped(shown, max) == [page.transcript];
      ConcatOfOne(page.transcript);
    } else {
      forall i | 0 <= i < |shown| ensures |shown[i]| <= max {
        PartsFit(shown, i);
      }
      assert Capped(shown, max) == shown;
    }
  }

  lemma ConcatOfOne(row: Text)
    ensures Concat([row]) == row
  {
    assert [row][..0] == [];
  }

  lemma {:induction false} TranscriptsOfLog(rows: seq<Text>, offset: nat, limit: nat, max: nat, pages: seq<Page>)
    requires limit > 0 && max > 0 && offset <= |rows| && Chain(rows, offset, limit, max, pages)
    ensures Transcripts(pages) == Concat(Capped(rows[offset..], max))
    decreases |pages|
  {
    hide PageOf, Concat, ShownBy;
    var shown := ShownBy(rows, pages[0]);
    PageShows(rows, offset, limit, max, pages[0]);
    PageShowsCapped(rows, offset, limit, max, pages[0]);
    if |pages| == 1 {
      assert Transcripts(pages[1..]) == [];
    } else {
      var next := pages[0].next.value;
      TranscriptsOfLog(rows, next, limit, max, pages[1..]);
      ConcatAppend(Capped(shown, max), Capped(rows[next..], max));
      assert Capped(shown, max) + Capped(rows[next..], max) == Capped(rows[offset..], max);
    }
  }

  /** Following `nextOffset` shows every record exactly once and in order, and the transcripts, one after another, are
      those records, each whole unless it is larger than any page. */
  lemma {:induction false} PagesPartition(rows: seq<Text>, offset: nat, limit: nat, max: nat, pages: seq<Page>)
    requires limit > 0 && max > 0 && offset <= |rows| && Chain(rows, offset, limit, max, pages)
    ensures Shown(rows, pages) == rows[offset..] && Shows(Transcripts(pages), Capped(rows[offset..], max))
    decreases |pages|
  {
    TranscriptsOfLog(rows, offset, limit, max, pages);
    ConcatShows(Capped(rows[offset..], max));
    hide PageOf, ShownBy;
    PageShows(rows, offset, limit, max, pages[0]);
    if |pages| == 1 {
      assert Shown(rows, pages[1..]) == [];
    } else {
      PagesPartition(rows, pages[0].next.value, limit, max, pages[1..]);
    }
  }

  /** Every page of a chain keeps the promise for its own offset. */
  lemma {:induction false} ChainIsPages(rows: seq<Text>, offset: nat, limit: nat, max: nat, pages: seq<Page>, p: Page)
    requires limit > 0 && max > 0 && offset <= |rows| && Chain(rows, offset, limit, max, pages) && p in pages
    ensures p.offset <= |rows| && PageOf(rows, p.offset, limit, max, p)
    decreases |pages|
  {
    PageProgresses(rows, offset, limit, max, pages[0]);
    if p != pages[0] {
      assert p in pages[1..];
      ChainIsPages(rows, pages[0].next.value, limit, max, pages[1..], p);
    }
  }

  /** No transcript exceeds its byte limit. A page shows its records whole, except that a record too large for a page
      of its own is cut, alone on its page, on a character boundary. */
  lemma PageShowsWholeRecordsIff(rows: seq<Text>, offset: nat, limit: nat, max: nat, pages: seq<Page>, p: Page)
    requires limit > 0 && max > 0 && offset <= |rows| && Chain(rows, offset, limit, max, pages) && p in pages
    ensures |p.transcript| <= max
    ensures p.transcript == Concat(ShownBy(rows, p)) <==> !p.truncated
    ensures p.truncated ==> |ShownBy(rows, p)| == 1 && |ShownBy(rows, p)[0]| > max && p.transcript == Truncated(ShownBy(rows, p)[0], max)
  {
    ChainIsPages(rows, offset, limit, max, pages, p);
    PageShows(rows, p.offset, limit, max, p);
    if p.truncated {
      assert ShownBy(rows, p) == [rows[p.offset]];
      assert ShownBy(rows, p)[..0] == [];
    }
  }

  lemma PageShows(rows: seq<Text>, offset: nat, limit: nat, max: nat, page: Page)
    requires limit > 0 && max > 0 && offset <= |rows| && PageOf(rows, offset, limit, max, page)
    ensures ShownBy(rows, page) == rows[offset..][..page.emitted] && |page.transcript| <= max
    ensures page.next.None? ==> ShownBy(rows, page) == rows[offset..]
    ensures page.next.Some? ==> page.next.value <= |rows| && ShownBy(rows, page) + rows[page.next.value..] == rows[offset..]
  {
    assert rows[offset..][..page.emitted] == rows[offset..offset + page.emitted];
  }

  /** The page for an offset is determined: no other page meets the promise. */
  lemma PageIsUnique(rows: seq<Text>, offset: nat, limit: nat, max: nat, p: Page, q: Page)
    requires limit > 0 && PageOf(rows, offset, limit, max, p) && PageOf(rows, offset, limit, max, q)
    ensures p == q
  {
    var rest: seq<Text> := if offset <= |rows| then rows[offset..] else [];
    if !p.truncated {
      NotLonger(rest, limit, max, p, q);
      NotLonger(rest, limit, max, q, p);
    }
  }

  lemma NotLonger(rest: seq<Text>, limit: nat, max: nat, p: Page, q: Page)
    requires p.emitted <= |rest| && q.emitted <= |rest| && q.emitted <= limit && |Concat(rest[..q.emitted])| <= max
    requires p.emitted < |rest| && p.emitted < limit ==> |Concat(rest[..p.emitted])| + |rest[p.emitted]| > max
    ensures q.emitted <= p.emitted
  {
    if p.emitted < q.emitted {
      var n := p.emitted + 1;
      assert rest[..n][..n - 1] == rest[..p.emitted];
      assert rest[..q.emitted][..n] == rest[..n];
      ConcatGrows(rest[..q.emitted], n);
    }
  }

  lemma {:induction false} ConcatGrows(rows: seq<Text>, n: nat)
    requires n <= |rows|
    ensures |Concat(rows[..n])| <= |Concat(rows)|
    decreases |rows|
  {
    if n == |rows| {
      assert rows[..n] == rows;
    } else {
      assert rows[..|rows| - 1][..n] == rows[..n];
      ConcatGrows(rows[..|rows| - 1], n);
    }
  }

  // ----- the best hits of a stream -----

  /** A hit, with the rank of its timestamp: a higher rank is more recent, equal timestamps have equal ranks. */
  datatype Found = Found(rank: int, record: nat)

  predicate Sorted(hits: seq<Found>) {
    forall i, j | 0 <= i < j < |hits| :: hits[i].rank >= hits[j].rank
  }

  function WithRank(hits: seq<Found>, rank: int): seq<Found> {
    if hits == [] then []
    else WithRank(hits[..|hits| - 1], rank) + (if hits[|hits| - 1].rank == rank then [hits[|hits| - 1]] else [])
  }

  /** A stable sort, most recent first: sorted, and the hits of each rank are the same in the same order. */
  ghost predicate StableSort(hits: seq<Found>, sorted: seq<Found>) {
    Sorted(sorted) && forall r :: WithRank(sorted, r) == WithRank(hits, r)
  }

  /** Where a new hit goes in a sorted list: behind everything at least as recent. */
  function Insert(hits: seq<Found>, hit: Found): seq<Found> {
    if hits == [] || hits[|hits| - 1].rank >= hit.rank then hits + [hit]
    else Insert(hits[..|hits| - 1], hit) + [hits[|hits| - 1]]
  }

  function SortAll(hits: seq<Found>): seq<Found> {
    if hits == [] then [] else Insert(SortAll(hits[..|hits| - 1]), hits[|hits| - 1])
  }

  function Keep(hits: seq<Found>, limit: nat): seq<Found> {
    if |hits| > limit then hits[..limit] else hits
  }

  lemma {:induction false} InsertSorts(hits: seq<Found>, hit: Found)
    requires Sorted(hits)
    ensures Sorted(Insert(hits, hit)) && |Insert(hits, hit)| == |hits| + 1
    ensures forall x | x in Insert(hits, hit) :: x in hits || x == hit
  {
    if hits != [] && hits[|hits| - 1].rank < hit.rank {
      var front, last := hits[..|hits| - 1], hits[|hits| - 1];
      InsertSorts(front, hit);
      var inner := Insert(front, hit);
      assert Insert(hits, hit) == inner + [last];
      forall i | 0 <= i < |inner| ensures inner[i].rank >= last.rank {
        assert inner[i] in inner;
      }
    }
  }

  lemma WithRankSnoc(hits: seq<Found>, hit: Found, rank: int)
    ensures WithRank(hits + [hit], rank) == WithRank(hits, rank) + (if hit.rank == rank then [hit] else [])
  {
    assert (hits + [hit])[..|hits|] == hits;
  }

  lemma {:induction false} InsertIsStable(hits: seq<Found>, hit: Found, rank: int)
    requires Sorted(hits)
    ensures WithRank(Insert(hits, hit), rank) == WithRank(hits + [hit], rank)
  {
    WithRankSnoc(hits, hit, rank);
    if hits != [] && hits[|hits| - 1].rank < hit.rank {
      var front, last := hits[..|hits| - 1], hits[|hits| - 1];
      InsertIsStable(front, hit, rank);
      WithRankSnoc(front, hit, rank);
      WithRankSnoc(Insert(front, hit), last, rank);
      if hit.rank == rank == last.rank {
        assert false;
      }
    }
  }

  /** Sorting is what it says. */
  lemma {:induction false} SortAllIsStable(hits: seq<Found>)
    ensures StableSort(hits, SortAll(hits)) && |SortAll(hits)| == |hits|
  {
    if hits != [] {
      var front, last := hits[..|hits| - 1], hits[|hits| - 1];
      SortAllIsStable(front);
      InsertSorts(SortAll(front), last);
      forall r ensures WithRank(SortAll(hits), r) == WithRank(hits, r) {
        InsertIsStable(SortAll(front), last, r);
        WithRankSnoc(SortAll(front), last, r);
        WithRankSnoc(front, last, r);
        assert hits == front + [last];
      }
    }
  }

  /** Ranks below everything in a sorted list do not occur in it. */
  lemma {:induction false} NoneBelow(hits: seq<Found>, rank: int)
    requires Sorted(hits) && (hits != [] ==> hits[|hits| - 1].rank > rank)
    ensures WithRank(hits, rank) == []
  {
    if hits != [] {
      NoneBelow(hits[..|hits| - 1], rank);
    }
  }

  /** There is only one stable sort, so nothing below depends on how the list is sorted. */
  lemma {:induction false} StableSortIsUnique(hits: seq<Found>, a: seq<Found>, b: seq<Found>)
    requires StableSort(hits, a) && StableSort(hits, b)
    ensures a == b
  {
    SameRanksSameList(a, b);
  }

  lemma {:induction false} SameRanksSameList(a: seq<Found>, b: seq<Found>)
    requires Sorted(a) && Sorted(b) && forall r :: WithRank(a, r) == WithRank(b, r)
    ensures a == b
    decreases |a| + |b|
  {
    if a != [] && b != [] {
      SameLast(a, b);
      var front, other, x := a[..|a| - 1], b[..|b| - 1], a[|a| - 1];
      assert a == front + [x] && b == other + [x];
      forall r ensures WithRank(front, r) == WithRank(other, r) {
        SameFronts(front, other, x, r);
      }
      SameRanksSameList(front, other);
    } else if a != [] {
      SameLowestRank(b, a);
    } else if b != [] {
      SameLowestRank(a, b);
    }
  }

  lemma SameLast(a: seq<Found>, b: seq<Found>)
    requires Sorted(a) && Sorted(b) && a != [] && b != [] && forall r :: WithRank(a, r) == WithRank(b, r)
    ensures a[|a| - 1] == b[|b| - 1]
  {
    SameLowestRank(a, b);
    SameLowestRank(b, a);
    var r := a[|a| - 1].rank;
    var hits := WithRank(a, r);
    assert hits == WithRank(b, r);
    assert hits[|hits| - 1] == a[|a| - 1] && hits[|hits| - 1] == b[|b| - 1];
  }

  lemma SameFronts(front: seq<Found>, other: seq<Found>, x: Found, rank: int)
    requires WithRank(front + [x], rank) == WithRank(other + [x], rank)
    ensures WithRank(front, rank) == WithRank(other, rank)
  {
    WithRankSnoc(front, x, rank);
    WithRankSnoc(other, x, rank);
    var end := if x.rank == rank then [x] else [];
    var f, o := WithRank(front, rank), WithRank(other, rank);
    assert f + end == o + end && |f| == |o|;
    assert (f + end)[..|f|] == f && (o + end)[..|o|] == o;
  }

  lemma SameLowestRank(a: seq<Found>, b: seq<Found>)
    requires Sorted(a) && b != [] && forall r :: WithRank(a, r) == WithRank(b, r)
    ensures a != [] && a[|a| - 1].rank <= b[|b| - 1].rank
  {
    var r := b[|b| - 1].rank;
    assert WithRank(a, r) == WithRank(b, r);
    if a == [] || a[|a| - 1].rank > r {
      NoneBelow(a, r);
    }
  }

  /** The place of a new hit: how many hits stay in front of it. */
  function Place(hits: seq<Found>, hit: Found): (n: nat)
    ensures n <= |hits| && (n > 0 ==> hits[n - 1].rank >= hit.rank)
    ensures forall i | n <= i < |hits| :: hits[i].rank < hit.rank
  {
    if hits == [] || hits[|hits| - 1].rank >= hit.rank then |hits| else Place(hits[..|hits| - 1], hit)
  }

  lemma {:induction false} InsertSplices(hits: seq<Found>, hit: Found)
    ensures Insert(hits, hit) == hits[..Place(hits, hit)] + [hit] + hits[Place(hits, hit)..]
  {
    var n := Place(hits, hit);
    if n == |hits| {
      assert hits[..n] == hits && hits[n..] == [];
    } else {
      var front := hits[..|hits| - 1];
      InsertSplices(front, hit);
      assert hits[..n] == front[..n] && hits[n..] == front[n..] + [hits[|hits| - 1]];
    }
  }

  /** A hit that was dropped can never come back, so dropping it early loses nothing. */
  lemma KeepInsert(hits: seq<Found>, hit: Found, limit: nat)
    requires Sorted(hits)
    ensures Keep(Insert(Keep(hits, limit), hit), limit) == Keep(Insert(hits, hit), limit)
  {
    var kept := Keep(hits, limit);
    InsertSplices(hits, hit);
    InsertSplices(kept, hit);
    if |hits| > limit {
      PlaceInKept(hits, hit, limit);
      var n := Place(hits, hit);
      if n < limit {
        assert kept[..n] == hits[..n];
        assert (kept[..n] + [hit] + kept[n..])[..limit] == (hits[..n] + [hit] + hits[n..])[..limit];
      } else {
        assert (kept + [hit])[..limit] == kept == (hits[..n] + [hit] + hits[n..])[..limit];
      }
    }
  }

  lemma PlaceInKept(hits: seq<Found>, hit: Found, limit: nat)
    requires Sorted(hits) && |hits| > limit
    ensures Place(hits[..limit], hit) == if Place(hits, hit) < limit then Place(hits, hit) else limit
  {
    assert Place(hits[..limit], hit) <= limit;
  }

  lemma SortedIsFixed(hits: seq<Found>)
    requires Sorted(hits)
    ensures SortAll(hits) == hits
  {
    SortAllIsStable(hits);
    StableSortIsUnique(hits, hits, SortAll(hits));
  }

  /** One step of the stream: add, sort, drop the last if there are too many. */
  lemma NothingSorted()
    ensures SortAll([]) == []
  {
  }

  lemma StreamStep(seen: seq<Found>, hit: Found, limit: nat)
    ensures Keep(SortAll(Keep(SortAll(seen), limit) + [hit]), limit) == Keep(SortAll(seen + [hit]), limit)
    ensures |SortAll(Keep(SortAll(seen), limit) + [hit])| <= limit + 1
  {
    var sorted := SortAll(seen);
    var kept := Keep(sorted, limit);
    SortAllIsStable(seen);
    SortAllIsStable(kept + [hit]);
    SortedIsFixed(kept);
    assert (kept + [hit])[..|kept|] == kept && (seen + [hit])[..|seen|] == seen;
    KeepInsert(sorted, hit, limit);
  }

  lemma FirstOfAnySort(stream: seq<Found>, limit: nat)
    ensures |Keep(SortAll(stream), limit)| == (if |stream| < limit then |stream| else limit)
    ensures forall sorted | StableSort(stream, sorted) :: Keep(SortAll(stream), limit) <= sorted
  {
    SortAllIsStable(stream);
    hide SortAll, StableSort;
    forall sorted | StableSort(stream, sorted) ensures sorted == SortAll(stream) {
      StableSortIsUnique(stream, sorted, SortAll(stream));
    }
  }

  /** Streaming search: the hits are those of sorting everything and then taking the first `limit`. */
  method Search(stream: seq<Found>, limit: nat) returns (hits: seq<Found>)
    ensures hits == Keep(SortAll(stream), limit)
    ensures |hits| == (if |stream| < limit then |stream| else limit)
    ensures forall sorted | StableSort(stream, sorted) :: hits <= sorted
  {
    hide SortAll, StableSort;
    NothingSorted();
    FirstOfAnySort(stream, limit);
    hits := [];
    var i := 0;
    while i < |stream|
      invariant i <= |stream| && hits == Keep(SortAll(stream[..i]), limit)
    {
      assert stream[..i + 1] == stream[..i] + [stream[i]];
      StreamStep(stream[..i], stream[i], limit);
      hits := hits + [stream[i]];
      hits := SortAll(hits);
      if |hits| > limit {
        hits := hits[..|hits| - 1];
      }
      i := i + 1;
    }
    assert stream[..i] == stream;
  }
}

/** What iterations list: every steady document once, and on a table that does not change
    exactly the filtered listing, or an error exactly where a row has no cursor. */
module PaginationTheorems {
  import opened Domain
  import opened Text
  import opened Pagination
  import opened PaginationLoops
  import Cursor
  import CursorProof
  import Json

  // ---- What a finished iteration has listed ------------------------------------------------

  lemma SamePlaceUnordered(lt: Collation, a: DocumentMetadata, b: DocumentMetadata)
    requires IsCollation(lt) && PositionOf(a) == PositionOf(b)
    ensures !Before(lt, a, b) && !Before(lt, b, a)
  {
  }

  /** Every document that was eligible throughout, under one created_at, is listed exactly once. */
  lemma ListedExactlyOnce(lt: Collation, tables: Tables, q: Query, items: seq<DocumentMetadata>, requests: nat,
                          id: string, at: int) returns (i: nat)
    requires IsCollation(lt) && Complete(lt, tables, q, items, requests)
    requires Throughout(tables, requests, id, at, q.partition, q.status)
    ensures i < |items| && items[i].documentId == id && items[i].createdAt == at
    ensures forall j :: 0 <= j < |items| && items[j].documentId == id ==> j == i
  {
    assert Lists(items, id, at);
    i :| 0 <= i < |items| && items[i].documentId == id && items[i].createdAt == at;
    forall j | 0 <= j < |items| && items[j].documentId == id ensures j == i {
      assert InSome(tables, requests, q.partition, q.status, items[j]);
      var k: nat :| k < requests && FromTable(tables(k), q.partition, q.status, items[j]);
      assert tables(k)[id].createdAt == at;
      SamePlaceUnordered(lt, items[i], items[j]);
    }
  }

  /** On a table that does not change a finished iteration has listed exactly the filtered
      rows in listing order. */
  lemma UnchangedTableListed(lt: Collation, rows: Rows, q: Query, items: seq<DocumentMetadata>, requests: nat)
    requires IsCollation(lt) && WellKeyed(rows) && Complete(lt, _ => rows, q, items, requests)
    ensures items == Listing(lt, rows, EligibleIds(rows, q.partition, q.status))
  {
    SameMembers(lt, rows, q, items, requests);
    ListingIsRight(lt, rows, EligibleIds(rows, q.partition, q.status));
    DescendingIsUnique(lt, items, Listing(lt, rows, EligibleIds(rows, q.partition, q.status)));
  }

  lemma CompleteCounts(lt: Collation, rows: Rows, q: Query, items: seq<DocumentMetadata>, requests: nat)
    requires Complete(lt, _ => rows, q, items, requests)
    ensures requests > 0 && (requests - 1) * q.pageSize <= |items| <= requests * q.pageSize
    ensures requests > 1 ==> (requests - 1) * q.pageSize < |items|
  {
  }

  /** And it took ceil(n / p) requests for n rows, or one if there are none. */
  lemma UnchangedTableRequests(lt: Collation, rows: Rows, q: Query, items: seq<DocumentMetadata>, requests: nat)
    requires IsCollation(lt) && WellKeyed(rows) && 0 < q.pageSize && Complete(lt, _ => rows, q, items, requests)
    ensures var n := |EligibleIds(rows, q.partition, q.status)|;
            requests == if n == 0 then 1 else (n + q.pageSize - 1) / q.pageSize
  {
    UnchangedTableListed(lt, rows, q, items, requests);
    ListingIsRight(lt, rows, EligibleIds(rows, q.partition, q.status));
    CompleteCounts(lt, rows, q, items, requests);
    CeilingCount(|items|, q.pageSize, requests);
  }

  lemma SameMembers(lt: Collation, rows: Rows, q: Query, items: seq<DocumentMetadata>, requests: nat)
    requires IsCollation(lt) && WellKeyed(rows)
    requires FromTables(_ => rows, requests, q.partition, q.status, items)
    requires AllListed(_ => rows, requests, q.partition, q.status, items)
    ensures forall m :: m in items <==> m in Listing(lt, rows, EligibleIds(rows, q.partition, q.status))
  {
    forall m ensures m in items <==> m in Listing(lt, rows, EligibleIds(rows, q.partition, q.status)) {
      if m in items { ItemIsListed(lt, rows, q, items, requests, m); }
      if m in Listing(lt, rows, EligibleIds(rows, q.partition, q.status)) {
        ListedIsItem(lt, rows, q, items, requests, m);
      }
    }
  }

  lemma ItemIsListed(lt: Collation, rows: Rows, q: Query, items: seq<DocumentMetadata>, requests: nat,
                     m: DocumentMetadata)
    requires IsCollation(lt) && WellKeyed(rows) && FromTables(_ => rows, requests, q.partition, q.status, items)
    requires m in items
    ensures m in Listing(lt, rows, EligibleIds(rows, q.partition, q.status))
  {
    ListingIsRight(lt, rows, EligibleIds(rows, q.partition, q.status));
    var i :| 0 <= i < |items| && items[i] == m;
    assert InSome(_ => rows, requests, q.partition, q.status, items[i]);
    assert m.documentId in EligibleIds(rows, q.partition, q.status);
  }

  lemma ListedIsItem(lt: Collation, rows: Rows, q: Query, items: seq<DocumentMetadata>, requests: nat,
                     m: DocumentMetadata)
    requires IsCollation(lt) && WellKeyed(rows)
    requires FromTables(_ => rows, requests, q.partition, q.status, items)
    requires AllListed(_ => rows, requests, q.partition, q.status, items)
    requires m in Listing(lt, rows, EligibleIds(rows, q.partition, q.status))
    ensures m in items
  {
    var all := Listing(lt, rows, EligibleIds(rows, q.partition, q.status));
    ListingIsRight(lt, rows, EligibleIds(rows, q.partition, q.status));
    var i :| 0 <= i < |all| && all[i] == m;
    assert Throughout(_ => rows, requests, m.documentId, m.createdAt, q.partition, q.status);
    assert Lists(items, m.documentId, m.createdAt);
    var j :| 0 <= j < |items| && items[j].documentId == m.documentId;
    assert InSome(_ => rows, requests, q.partition, q.status, items[j]);
  }

  lemma CeilingCount(n: nat, p: nat, requests: nat)
    requires 0 < p && 0 < requests && (requests - 1) * p <= n <= requests * p
    requires requests > 1 ==> (requests - 1) * p < n
    ensures requests == if n == 0 then 1 else (n + p - 1) / p
  {
    if requests > 1 { assert (requests - 1) * p > 0; }
    if n > 0 {
      assert (requests - 1) * p < n;
      var d := n + p - 1 - requests * p;
      assert (requests - 1) * p == requests * p - p;
      assert 0 <= d < p;
      QuotientIs(n + p - 1, p, requests, d);
    }
  }

  /** On a table that does not change the iteration ends within ceil(n / p) requests. */
  lemma UnchangedTableEnds(codec: Codec, lt: Collation, rows: Rows, q: Query, items: seq<DocumentMetadata>,
                           c: Option<Text>, a: Option<Position>, requests: nat)
    requires IsCollation(lt) && WellKeyed(rows) && requests > 0
    requires Progress(codec, lt, _ => rows, q, items, c, a, requests)
    ensures requests * q.pageSize < |EligibleIds(rows, q.partition, q.status)|
  {
    var ids := EligibleIds(rows, q.partition, q.status);
    var id :| id in Selected(lt, rows, q.partition, q.status, a);
    var listed := items + [rows[id]];
    assert PositionOf(items[|items| - 1]) == a.value;
    AppendDescending(lt, items, [rows[id]], a);
    forall i | 0 <= i < |listed| ensures listed[i].documentId in ids && rows[listed[i].documentId] == listed[i] {
      if i < |items| {
        assert InSome(_ => rows, requests, q.partition, q.status, items[i]);
      }
    }
    DescendingFits(lt, rows, listed, ids);
  }

  lemma {:induction false} DescendingFits(lt: Collation, rows: Rows, list: seq<DocumentMetadata>, ids: set<string>)
    requires IsCollation(lt) && Descending(lt, list)
    requires forall i :: 0 <= i < |list| ==>
               list[i].documentId in ids && list[i].documentId in rows && rows[list[i].documentId] == list[i]
    ensures |list| <= |ids|
    decreases |list|
  {
    if list != [] {
      var rest := ids - {list[0].documentId};
      forall i | 0 <= i < |list[1..]| ensures list[1..][i].documentId in rest {
        assert Before(lt, list[0], list[i + 1]);
      }
      DescendingFits(lt, rows, list[1..], rest);
    }
  }

  // ---- An iteration over a table that does not change -----------------------------------------

  /** What has been listed and what is still selected make up the whole listing. */
  lemma ProgressSplits(codec: Codec, lt: Collation, rows: Rows, q: Query, items: seq<DocumentMetadata>,
                       c: Option<Text>, a: Option<Position>, requests: nat)
    requires IsCollation(lt) && WellKeyed(rows)
    requires Progress(codec, lt, _ => rows, q, items, c, a, requests)
    ensures Listing(lt, rows, EligibleIds(rows, q.partition, q.status))
            == items + Listing(lt, rows, Selected(lt, rows, q.partition, q.status, a))
  {
    var ids, rest := EligibleIds(rows, q.partition, q.status), Selected(lt, rows, q.partition, q.status, a);
    var all, more := Listing(lt, rows, ids), Listing(lt, rows, rest);
    ListingIsRight(lt, rows, ids);
    ListingIsRight(lt, rows, rest);
    AppendDescending(lt, items, more, a);
    forall m ensures m in all <==> m in items + more {
      if m in all { ListedOrSelected(codec, lt, rows, q, items, c, a, requests, m.documentId); }
      if m in items { ItemIsListed(lt, rows, q, items, requests, m); }
      if m in more { assert m.documentId in rest && rows[m.documentId] in all; }
    }
    DescendingIsUnique(lt, all, items + more);
  }

  lemma ListedOrSelected(codec: Codec, lt: Collation, rows: Rows, q: Query, items: seq<DocumentMetadata>,
                         c: Option<Text>, a: Option<Position>, requests: nat, id: string)
    requires IsCollation(lt) && WellKeyed(rows) && id in EligibleIds(rows, q.partition, q.status)
    requires Progress(codec, lt, _ => rows, q, items, c, a, requests)
    ensures rows[id] in items || id in Selected(lt, rows, q.partition, q.status, a)
  {
    var m := rows[id];
    assert Throughout(_ => rows, requests, id, m.createdAt, q.partition, q.status);
    if requests > 0 && Lists(items, id, m.createdAt) {
      var j :| 0 <= j < |items| && items[j].documentId == id;
      assert InSome(_ => rows, requests, q.partition, q.status, items[j]);
      assert items[j] == m;
    }
  }

  /** Every page of `p` rows but the last ends in a row that has a cursor. */
  ghost predicate AllPageEndsWritten(codec: Codec, q: Query, list: seq<DocumentMetadata>) {
    q.pageSize > 0 && forall j :: 0 < j && j * q.pageSize < |list| ==> PageEndFits(Maker(codec, q), q.pageSize, list, j)
  }

  function Requests(n: nat, p: int): int
    requires 0 < p
  {
    if n == 0 then 1 else (n + p - 1) / p
  }

  lemma RequestsReach(n: nat, p: int, requests: nat)
    requires 0 < p && Requests(n, p) <= requests
    ensures n <= requests * p
  {
    var x := n + p - 1;
    assert x == p * (x / p) + x % p;
    if n > 0 { EarlierPageEnds(x / p, requests, p); }
  }

  lemma FewerPages(j: nat, k: nat, p: int)
    requires 0 < p && j * p < k * p
    ensures j < k
  {
    if k <= j { EarlierPageEnds(k, j, p); }
  }

  lemma UnchangedTableOutcome(codec: Codec, lt: Collation, rows: Rows, q: Query, window: nat,
                                items: seq<DocumentMetadata>, c: Option<Text>, a: Option<Position>,
                                requests: nat, outcome: Outcome)
    requires IsCollation(lt) && WellKeyed(rows) && ValidQuery(q)
    requires Iterating(codec, lt, _ => rows, q, items, c, a, requests, outcome)
    requires requests <= window && (outcome.StillRunning? ==> requests == window)
    requires window >= Requests(|EligibleIds(rows, q.partition, q.status)|, q.pageSize)
    ensures var all := Listing(lt, rows, EligibleIds(rows, q.partition, q.status));
            && (outcome.Finished? <==> AllPageEndsWritten(codec, q, all))
            && (outcome.Finished? ==> items == all && requests == Requests(|all|, q.pageSize))
            && (!outcome.Finished? ==>
                  && outcome == Raised(NoCursor)
                  && |items| == requests * q.pageSize && |items| + q.pageSize < |all|
                  && items == all[..|items|] && Maker(codec, q)(all[|items| + q.pageSize - 1]).None?)
  {
    var ids := EligibleIds(rows, q.partition, q.status);
    ListingIsRight(lt, rows, ids);
    match outcome {
      case Finished =>
        UnchangedTableListed(lt, rows, q, items, requests);
        UnchangedTableRequests(lt, rows, q, items, requests);
        FinishedFits(codec, lt, rows, q, items, requests);
      case Raised(_) =>
        RaisedUnfit(codec, lt, rows, q, items, c, a, requests);
      case StillRunning =>
        RequestsReach(|ids|, q.pageSize, requests);
        UnchangedTableEnds(codec, lt, rows, q, items, c, a, requests);
    }
  }

  lemma FinishedFits(codec: Codec, lt: Collation, rows: Rows, q: Query, items: seq<DocumentMetadata>,
                     requests: nat)
    requires ValidQuery(q) && Complete(lt, _ => rows, q, items, requests)
    requires CursorsFit(Maker(codec, q), q.pageSize, items, requests - 1)
    ensures AllPageEndsWritten(codec, q, items)
  {
    forall j | 0 < j && j * q.pageSize < |items| ensures PageEndFits(Maker(codec, q), q.pageSize, items, j) {
      FewerPages(j, requests, q.pageSize);
    }
  }

  lemma RaisedUnfit(codec: Codec, lt: Collation, rows: Rows, q: Query, items: seq<DocumentMetadata>,
                    c: Option<Text>, a: Option<Position>, requests: nat)
    requires IsCollation(lt) && WellKeyed(rows) && ValidQuery(q)
    requires Progress(codec, lt, _ => rows, q, items, c, a, requests) && Stuck(codec, lt, rows, q, a)
    ensures var all := Listing(lt, rows, EligibleIds(rows, q.partition, q.status));
            && !AllPageEndsWritten(codec, q, all)
            && |items| == requests * q.pageSize && |items| + q.pageSize < |all|
            && items == all[..|items|] && Maker(codec, q)(all[|items| + q.pageSize - 1]).None?
  {
    ProgressSplits(codec, lt, rows, q, items, c, a, requests);
    var all := Listing(lt, rows, EligibleIds(rows, q.partition, q.status));
    var more := Listing(lt, rows, Selected(lt, rows, q.partition, q.status, a));
    assert all[|items| + q.pageSize - 1] == more[q.pageSize - 1];
    assert (requests + 1) * q.pageSize == |items| + q.pageSize;
    assert !PageEndFits(Maker(codec, q), q.pageSize, all, requests + 1);
  }

  // ---- With the SDK's cursors ----------------------------------------------------------------------

  function CursorCodec(lib: Cursor.Library): Codec {
    Codec(st => match Cursor.Encode(lib, st) case Ok(text) => Some(text) case Err(_) => None,
          text => match Cursor.Decode(lib, text) case Ok(st) => Some(st) case Err(_) => None)
  }

  predicate ValidPartition(partition: DocumentPartition) {
    !Blank(Points(partition.partitionId))
  }

  /** Any row whose timestamp the library prints and reads back has a faithful cursor, or none. */
  lemma CursorsAreFaithful(lib: Cursor.Library, m: DocumentMetadata, q: Query)
    requires Cursor.PrintsBack(lib, Utc(m.createdAt)) && ValidPartition(q.partition)
    ensures Faithful(CursorCodec(lib), m, q.partition, q.status, q.pageSize)
  {
    var st := CursorStateOf(m, q.partition, q.status, q.pageSize);
    if Cursor.Encode(lib, st).Ok? {
      Json.ScalarsJoin(m.documentId);
      Json.ScalarsJoin(q.partition.partitionId);
      CursorProof.RoundTripExactly(lib, st);
    }
  }

  /** So an iteration with the SDK's cursors meets what `IterDocuments` asks for. */
  lemma TablesAreSane(lib: Cursor.Library, q: Query, tables: Tables)
    requires ValidPartition(q.partition)
    requires forall k: nat :: WellKeyed(tables(k))
    requires forall k: nat, id :: id in tables(k) ==> Cursor.PrintsBack(lib, Utc(tables(k)[id].createdAt))
    ensures AllSane(CursorCodec(lib), q, tables)
  {
    forall k: nat ensures SaneTable(CursorCodec(lib), q, tables(k)) {
      forall id | id in tables(k)
        ensures Faithful(CursorCodec(lib), tables(k)[id], q.partition, q.status, q.pageSize)
      {
        CursorsAreFaithful(lib, tables(k)[id], q);
      }
    }
  }

  /** No cursor can stand for this row: its id is blank, or the JSON text is over 3072 bytes. */
  predicate NoCursorFor(lib: Cursor.Library, q: Query, m: DocumentMetadata)
    requires 0 < q.pageSize
  {
    Blank(Points(m.documentId))
    || |Cursor.Payload(lib, CursorStateOf(m, q.partition, q.status, q.pageSize))| > 3072
  }

  lemma NoCursorExactly(lib: Cursor.Library, q: Query, m: DocumentMetadata)
    requires 0 < q.pageSize
    ensures NoCursorFor(lib, q, m) <==> Maker(CursorCodec(lib), q)(m).None?
  {
    var st := CursorStateOf(m, q.partition, q.status, q.pageSize);
    if Cursor.Encodable(st) { CursorProof.RefusedForLength(lib, st); }
  }

  /** The same with any codec. */
  lemma PageRaisesAt(codec: Codec, lt: Collation, rows: Rows, q: Query, cursor: Option<Text>)
    requires IsCollation(lt) && WellKeyed(rows) && ValidQuery(q)
    requires ResolveCursor(codec, q.partition, cursor, q.pageSize, q.status).Ok?
    ensures var page := ListPage(codec, lt, rows, q.partition, cursor, q.pageSize, q.status);
            var after := ResolveCursor(codec, q.partition, cursor, q.pageSize, q.status).value;
            var all := Listing(lt, rows, Selected(lt, rows, q.partition, q.status, after));
            && (page.Err? <==> |all| > q.pageSize && Maker(codec, q)(all[q.pageSize - 1]).None?)
            && (page.Err? ==> page.error == NoCursor)
  {
    ValidPageRaises(codec, lt, rows, q, cursor);
  }

  /** A page request with a valid query and a matching cursor raises exactly if the page is not
      the last and its last row has no cursor. */
  lemma PageRaisesExactly(lib: Cursor.Library, lt: Collation, rows: Rows, q: Query, cursor: Option<Text>)
    requires IsCollation(lt) && WellKeyed(rows) && ValidQuery(q)
    requires ResolveCursor(CursorCodec(lib), q.partition, cursor, q.pageSize, q.status).Ok?
    ensures var codec := CursorCodec(lib);
            var page := ListPage(codec, lt, rows, q.partition, cursor, q.pageSize, q.status);
            var after := ResolveCursor(codec, q.partition, cursor, q.pageSize, q.status).value;
            var all := Listing(lt, rows, Selected(lt, rows, q.partition, q.status, after));
            && (page.Err? <==> |all| > q.pageSize && NoCursorFor(lib, q, all[q.pageSize - 1]))
            && (page.Err? ==> page.error == NoCursor)
  {
    var after := ResolveCursor(CursorCodec(lib), q.partition, cursor, q.pageSize, q.status).value;
    var all := Listing(lt, rows, Selected(lt, rows, q.partition, q.status, after));
    PageRaisesAt(CursorCodec(lib), lt, rows, q, cursor);
    if |all| > q.pageSize { NoCursorExactly(lib, q, all[q.pageSize - 1]); }
  }

  /** Every page of `p` rows but the last ends in a row that has a cursor. */
  ghost predicate AllPageEndsFit(lib: Cursor.Library, q: Query, list: seq<DocumentMetadata>)
    requires 0 < q.pageSize
  {
    forall j :: 0 < j && j * q.pageSize < |list| ==> EndFits(lib, q, list, j)
  }

  predicate EndFits(lib: Cursor.Library, q: Query, list: seq<DocumentMetadata>, j: int)
    requires 0 < q.pageSize
  {
    var end := j * q.pageSize;
    0 < end <= |list| ==> !NoCursorFor(lib, q, list[end - 1])
  }

  lemma WrittenIsFit(lib: Cursor.Library, q: Query, list: seq<DocumentMetadata>)
    requires 0 < q.pageSize
    ensures AllPageEndsWritten(CursorCodec(lib), q, list) <==> AllPageEndsFit(lib, q, list)
  {
    forall j ensures EndFits(lib, q, list, j) <==> PageEndFits(Maker(CursorCodec(lib), q), q.pageSize, list, j) {
      var end := j * q.pageSize;
      if 0 < end <= |list| { NoCursorExactly(lib, q, list[end - 1]); }
    }
  }

  /** On a table that does not change, with a window of max(1, ceil(n / p)) requests or more, an
      iteration lists exactly the filtered rows in that many requests if every page end but the
      last has a cursor; otherwise it raises after the pages before the first that has none. */
  lemma UnchangedTableIteration(lib: Cursor.Library, lt: Collation, rows: Rows, q: Query, window: nat,
                                items: seq<DocumentMetadata>, c: Option<Text>, a: Option<Position>,
                                requests: nat, outcome: Outcome)
    requires IsCollation(lt) && WellKeyed(rows) && ValidQuery(q)
    requires Iterating(CursorCodec(lib), lt, _ => rows, q, items, c, a, requests, outcome)
    requires requests <= window && (outcome.StillRunning? ==> requests == window)
    requires window >= Requests(|EligibleIds(rows, q.partition, q.status)|, q.pageSize)
    ensures var all := Listing(lt, rows, EligibleIds(rows, q.partition, q.status));
            && (outcome.Finished? <==> AllPageEndsFit(lib, q, all))
            && (outcome.Finished? ==> items == all && requests == Requests(|all|, q.pageSize))
            && (!outcome.Finished? ==>
                  && outcome == Raised(NoCursor)
                  && |items| == requests * q.pageSize && |items| + q.pageSize < |all|
                  && items == all[..|items|] && NoCursorFor(lib, q, all[|items| + q.pageSize - 1]))
  {
    var all := Listing(lt, rows, EligibleIds(rows, q.partition, q.status));
    UnchangedTableOutcome(CursorCodec(lib), lt, rows, q, window, items, c, a, requests, outcome);
    WrittenIsFit(lib, q, all);
    if !outcome.Finished? { NoCursorExactly(lib, q, all[|items| + q.pageSize - 1]); }
  }

  // ---- A table that cannot be iterated ----------------------------------------------------------

  const LONG_ID := seq(255, _ => '\U{1F600}')

  lemma {:induction false} AstralEscapes(t: Text)
    requires forall i :: 0 <= i < |t| ==> t[i] >= 0x10000
    ensures |Json.Escape(t)| == 12 * |t|
  {
    if t != [] { AstralEscapes(t[1..]); }
  }

  lemma PayloadHoldsId(lib: Cursor.Library, st: Cursor.CursorState)
    requires st.pageSize > 0
    ensures |Cursor.Payload(lib, st)| > |Json.Escape(st.documentId)| + 13
  {
    assert |Cursor.TextFromI(st)| >= |Json.PrintString(st.documentId)| + 5;
    assert |Cursor.TextFromT(lib, st)| >= 7 + |Cursor.TextFromI(st)|;
  }

  function Plain(id: string, at: int, p: DocumentPartition): DocumentMetadata {
    DocumentMetadata(id, "f", "t", 1, "k", Available, at, at, p, None, None)
  }

  const ASTRAL_PARTITION := DocumentPartition(Personal, "u")
  const ASTRAL_QUERY := Query(ASTRAL_PARTITION, None, 1)
  const ASTRAL_ROWS := map[LONG_ID := Plain(LONG_ID, 1, ASTRAL_PARTITION), "b" := Plain("b", 0, ASTRAL_PARTITION)]

  lemma LongIdHasNoCursor(lib: Cursor.Library)
    ensures |LONG_ID| == 255 && !Blank(Points(LONG_ID))
    ensures NoCursorFor(lib, ASTRAL_QUERY, Plain(LONG_ID, 1, ASTRAL_PARTITION))
  {
    assert Points(LONG_ID)[0] == 0x1F600;
    AstralEscapes(Points(LONG_ID));
    PayloadHoldsId(lib, CursorStateOf(Plain(LONG_ID, 1, ASTRAL_PARTITION), ASTRAL_PARTITION, None, 1));
  }

  lemma LongIdIsFirst(lt: Collation)
    requires IsCollation(lt)
    ensures WellKeyed(ASTRAL_ROWS) && ASTRAL_ROWS.Keys == {LONG_ID, "b"}
    ensures EligibleIds(ASTRAL_ROWS, ASTRAL_PARTITION, None) == {LONG_ID, "b"}
            == Selected(lt, ASTRAL_ROWS, ASTRAL_PARTITION, None, None)
    ensures var all := Listing(lt, ASTRAL_ROWS, {LONG_ID, "b"});
            |all| == 2 && all[0] == Plain(LONG_ID, 1, ASTRAL_PARTITION)
  {
    assert |LONG_ID| != |"b"|;
    ListingIsRight(lt, ASTRAL_ROWS, {LONG_ID, "b"});
    var all := Listing(lt, ASTRAL_ROWS, {LONG_ID, "b"});
    assert |{LONG_ID, "b"}| == 2;
    assert ASTRAL_ROWS[LONG_ID] in all;
    assert Before(lt, all[0], all[1]);
  }

  /** Two documents, the newer with a legal id of 255 characters outside the BMP: with a page
      size of 1 the first page already raises, and no iteration finishes. */
  lemma LongIdRaises(lib: Cursor.Library, lt: Collation)
    requires IsCollation(lt)
    ensures WellKeyed(ASTRAL_ROWS) && |LONG_ID| == 255 && !Blank(Points(LONG_ID))
    ensures ValidQuery(ASTRAL_QUERY) && ValidPartition(ASTRAL_PARTITION)
    ensures ListPage(CursorCodec(lib), lt, ASTRAL_ROWS, ASTRAL_PARTITION, None, 1, None) == Err(NoCursor)
    ensures !AllPageEndsFit(lib, ASTRAL_QUERY, Listing(lt, ASTRAL_ROWS,
                                                       EligibleIds(ASTRAL_ROWS, ASTRAL_PARTITION, None)))
  {
    LongIdHasNoCursor(lib);
    LongIdIsFirst(lt);
    PageRaisesExactly(lib, lt, ASTRAL_ROWS, ASTRAL_QUERY, None);
    assert !EndFits(lib, ASTRAL_QUERY, Listing(lt, ASTRAL_ROWS, {LONG_ID, "b"}), 1);
    assert Points("u")[0] == 117;
  }
}

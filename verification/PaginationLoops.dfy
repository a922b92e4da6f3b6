/** Iterating the whole listing page by page, while the table may change between requests. */
module PaginationLoops {
  import opened Domain
  import opened Text
  import opened Pagination

  datatype Outcome = Finished | Raised(error: PageError) | StillRunning

  /** The table as each page request of an iteration finds it. */
  type Tables = nat -> Rows

  datatype Query = Query(partition: DocumentPartition, status: Option<DocumentStatus>, pageSize: int)

  /** The cursor of a row, if there is one, is read back as what it was written from. */
  ghost predicate Faithful(codec: Codec, m: DocumentMetadata, partition: DocumentPartition,
                           status: Option<DocumentStatus>, limit: int)
  {
    var st := CursorStateOf(m, partition, status, limit);
    codec.encode(st).Some? ==> codec.decode(codec.encode(st).value) == Some(st)
  }

  ghost predicate SaneTable(codec: Codec, q: Query, rows: Rows) {
    WellKeyed(rows) && forall id :: id in rows ==> Faithful(codec, rows[id], q.partition, q.status, q.pageSize)
  }

  // ---- One page ---------------------------------------------------------------------

  predicate PastCursor(lt: Collation, after: Option<Position>, m: DocumentMetadata) {
    after.None? || Precedes(lt, after.value, PositionOf(m))
  }

  /** What the items of one page are: the first `limit` selected rows, and what is left
      over comes after the last of them. */
  ghost predicate IsPageOf(lt: Collation, rows: Rows, partition: DocumentPartition, status: Option<DocumentStatus>,
                           after: Option<Position>, limit: nat, items: seq<DocumentMetadata>, hasMore: bool)
  {
    && Descending(lt, items)
    && (forall i :: 0 <= i < |items| ==>
          var m := items[i];
          m.documentId in rows && rows[m.documentId] == m && Eligible(m, partition, status) && PastCursor(lt, after, m))
    && (hasMore ==> |items| == limit)
    && (!hasMore ==> |items| <= limit)
    && (forall id :: id in Selected(lt, rows, partition, status, after) ==>
          rows[id] in items || (hasMore && items != [] && Before(lt, items[|items| - 1], rows[id])))
    && (hasMore ==> items != [])
    && (hasMore ==> Selected(lt, rows, partition, status, Some(PositionOf(items[|items| - 1]))) != {})
  }

  /** A listing of exactly the selected rows. */
  ghost predicate ListsSelected(lt: Collation, rows: Rows, partition: DocumentPartition, status: Option<DocumentStatus>,
                                after: Option<Position>, all: seq<DocumentMetadata>)
  {
    && Descending(lt, all)
    && (forall i :: 0 <= i < |all| ==>
          all[i].documentId in Selected(lt, rows, partition, status, after) && all[i] == rows[all[i].documentId])
    && (forall id :: id in Selected(lt, rows, partition, status, after) ==> rows[id] in all)
  }

  lemma PrefixIsPage(lt: Collation, rows: Rows, partition: DocumentPartition, status: Option<DocumentStatus>,
                     after: Option<Position>, limit: nat, all: seq<DocumentMetadata>, items: seq<DocumentMetadata>)
    requires limit > 0 && ListsSelected(lt, rows, partition, status, after, all)
    requires items == Take(all, limit)
    ensures IsPageOf(lt, rows, partition, status, after, limit, items, |all| > limit)
  {
    assert forall i :: 0 <= i < |items| ==> items[i] == all[i];
    if |all| > limit {
      assert Before(lt, all[limit - 1], all[limit]);
      assert all[limit].documentId in Selected(lt, rows, partition, status, Some(PositionOf(items[|items| - 1])));
    }
    forall id | id in Selected(lt, rows, partition, status, after)
      ensures rows[id] in items || (|all| > limit && items != [] && Before(lt, items[|items| - 1], rows[id]))
    {
      assert rows[id] in all;
      var k :| 0 <= k < |all| && all[k] == rows[id];
      if k < |items| {
        assert items[k] == rows[id];
      } else {
        assert Before(lt, all[limit - 1], all[k]);
      }
    }
  }

  /** The next cursor leads exactly to the place after the page's last item. */
  lemma NextCursorResolves(codec: Codec, m: DocumentMetadata, partition: DocumentPartition, limit: int,
                           status: Option<DocumentStatus>)
    requires Faithful(codec, m, partition, status, limit)
    ensures var next := CursorMaker(codec, partition, status, limit)(m);
            next.Some? ==> ResolveCursor(codec, partition, next, limit, status) == Ok(Some(PositionOf(m)))
  {
  }

  lemma PageParts(codec: Codec, lt: Collation, rows: Rows, partition: DocumentPartition,
                  cursor: Option<Text>, limit: int, status: Option<DocumentStatus>)
    requires IsCollation(lt) && WellKeyed(rows)
    requires ListPage(codec, lt, rows, partition, cursor, limit, status).Ok?
    ensures 0 < limit <= MAX_PAGE_LIMIT && ResolveCursor(codec, partition, cursor, limit, status).Ok?
    ensures var page := ListPage(codec, lt, rows, partition, cursor, limit, status).value;
            var after := ResolveCursor(codec, partition, cursor, limit, status).value;
            var all := Listing(lt, rows, Selected(lt, rows, partition, status, after));
            && page.items == Take(all, limit) && page.hasMore == (|all| > limit)
            && page.hasMore == page.nextCursor.Some?
            && (page.hasMore ==> page.items != [])
            && (page.hasMore ==>
                  page.nextCursor == CursorMaker(codec, partition, status, limit)(page.items[|page.items| - 1]))
  {
    var after := ResolveCursor(codec, partition, cursor, limit, status).value;
    ListPageIsPageOf(codec, lt, rows, partition, cursor, limit, status);
    PageOfParts(CursorMaker(codec, partition, status, limit),
                Listing(lt, rows, Selected(lt, rows, partition, status, after)), limit);
  }

  lemma PageOfParts(make: DocumentMetadata -> Option<Text>, all: seq<DocumentMetadata>, limit: nat)
    requires 0 < limit
    ensures var page := PageOf(make, Take(all, limit + 1), limit);
            && (page.Err? <==> |all| > limit && make(all[limit - 1]).None?)
            && (page.Err? ==> page.error == NoCursor)
            && (page.Ok? ==>
                  && page.value.items == Take(all, limit) && page.value.hasMore == (|all| > limit)
                  && page.value.hasMore == page.value.nextCursor.Some?
                  && (page.value.hasMore ==> page.value.items != [])
                  && (page.value.hasMore ==>
                        page.value.nextCursor == make(page.value.items[|page.value.items| - 1])))
  {
    assert Take(Take(all, limit + 1), limit) == Take(all, limit);
  }

  lemma ListingIsSelected(lt: Collation, rows: Rows, partition: DocumentPartition, status: Option<DocumentStatus>,
                          after: Option<Position>)
    requires IsCollation(lt) && WellKeyed(rows)
    ensures ListsSelected(lt, rows, partition, status, after,
                          Listing(lt, rows, Selected(lt, rows, partition, status, after)))
  {
    ListingIsRight(lt, rows, Selected(lt, rows, partition, status, after));
  }

  lemma PageIsRight(codec: Codec, lt: Collation, rows: Rows, q: Query, cursor: Option<Text>)
    requires IsCollation(lt) && SaneTable(codec, q, rows)
    requires ListPage(codec, lt, rows, q.partition, cursor, q.pageSize, q.status).Ok?
    ensures 0 < q.pageSize <= MAX_PAGE_LIMIT && ResolveCursor(codec, q.partition, cursor, q.pageSize, q.status).Ok?
    ensures var page := ListPage(codec, lt, rows, q.partition, cursor, q.pageSize, q.status).value;
            var after := ResolveCursor(codec, q.partition, cursor, q.pageSize, q.status).value;
            && IsPageOf(lt, rows, q.partition, q.status, after, q.pageSize, page.items, page.hasMore)
            && page.hasMore == page.nextCursor.Some?
            && (page.hasMore ==>
                  ResolveCursor(codec, q.partition, page.nextCursor, q.pageSize, q.status)
                  == Ok(Some(PositionOf(page.items[|page.items| - 1]))))
  {
    PageParts(codec, lt, rows, q.partition, cursor, q.pageSize, q.status);
    var page := ListPage(codec, lt, rows, q.partition, cursor, q.pageSize, q.status).value;
    var after := ResolveCursor(codec, q.partition, cursor, q.pageSize, q.status).value;
    ListingIsSelected(lt, rows, q.partition, q.status, after);
    PrefixIsPage(lt, rows, q.partition, q.status, after, q.pageSize,
                 Listing(lt, rows, Selected(lt, rows, q.partition, q.status, after)), page.items);
    if page.hasMore {
      var last := page.items[|page.items| - 1];
      assert last.documentId in rows && rows[last.documentId] == last;
      NextCursorResolves(codec, last, q.partition, q.pageSize, q.status);
    }
  }

  // ---- Joining pages -------------------------------------------------------------------

  /** The iteration has listed everything down to `after` and nothing past it. */
  ghost predicate ListedTo(lt: Collation, items: seq<DocumentMetadata>, after: Option<Position>) {
    match after
    case None => items == []
    case Some(p) => items != [] && p == PositionOf(items[|items| - 1])
  }

  lemma AppendDescending(lt: Collation, items: seq<DocumentMetadata>, more: seq<DocumentMetadata>,
                         after: Option<Position>)
    requires IsCollation(lt) && Descending(lt, items) && Descending(lt, more) && ListedTo(lt, items, after)
    requires forall i :: 0 <= i < |more| ==> PastCursor(lt, after, more[i])
    ensures Descending(lt, items + more)
  {
    var all := items + more;
    forall i, j | 0 <= i < j < |all| ensures Before(lt, all[i], all[j]) {
      if i < |items| <= j {
        var last := items[|items| - 1];
        assert Before(lt, last, more[j - |items|]);
        if i < |items| - 1 { BeforeTransitive(lt, items[i], last, all[j]); }
      }
    }
  }

  /** A document that every request of the iteration finds eligible, under one created_at. */
  ghost predicate Throughout(tables: Tables, requests: nat, id: string, at: int, partition: DocumentPartition,
                             status: Option<DocumentStatus>)
  {
    forall k :: 0 <= k < requests ==>
      id in tables(k) && tables(k)[id].createdAt == at && Eligible(tables(k)[id], partition, status)
  }

  ghost predicate Lists(items: seq<DocumentMetadata>, id: string, at: int) {
    exists i :: 0 <= i < |items| && items[i].documentId == id && items[i].createdAt == at
  }

  /** Down to `after` no document that was eligible throughout has been missed. */
  ghost predicate NothingMissed(lt: Collation, tables: Tables, requests: nat, partition: DocumentPartition,
                                status: Option<DocumentStatus>, items: seq<DocumentMetadata>, after: Option<Position>)
  {
    forall id, at :: Throughout(tables, requests, id, at, partition, status) && requests > 0 ==>
      Lists(items, id, at) || PastPosition(lt, after, id, at)
  }

  predicate PastPosition(lt: Collation, after: Option<Position>, id: string, at: int) {
    after.None? || Precedes(lt, after.value, Position(at, Points(id)))
  }

  ghost predicate AllListed(tables: Tables, requests: nat, partition: DocumentPartition,
                            status: Option<DocumentStatus>, items: seq<DocumentMetadata>)
  {
    forall id, at :: Throughout(tables, requests, id, at, partition, status) ==> Lists(items, id, at)
  }

  /** Every item came from the table of some request, where it was eligible. */
  ghost predicate FromTables(tables: Tables, requests: nat, partition: DocumentPartition,
                             status: Option<DocumentStatus>, items: seq<DocumentMetadata>)
  {
    forall i :: 0 <= i < |items| ==> InSome(tables, requests, partition, status, items[i])
  }

  ghost predicate InSome(tables: Tables, requests: nat, partition: DocumentPartition,
                         status: Option<DocumentStatus>, m: DocumentMetadata)
  {
    exists k: nat :: k < requests && FromTable(tables(k), partition, status, m)
  }

  predicate FromTable(rows: Rows, partition: DocumentPartition, status: Option<DocumentStatus>, m: DocumentMetadata) {
    m.documentId in rows && rows[m.documentId] == m && Eligible(m, partition, status)
  }

  lemma NextPageMissesNothing(lt: Collation, tables: Tables, k: nat, partition: DocumentPartition,
                              status: Option<DocumentStatus>, items: seq<DocumentMetadata>, after: Option<Position>,
                              limit: nat, more: seq<DocumentMetadata>, hasMore: bool)
    requires IsCollation(lt) && WellKeyed(tables(k)) && ListedTo(lt, items, after)
    requires k > 0 ==> NothingMissed(lt, tables, k, partition, status, items, after)
    requires k == 0 ==> after.None?
    requires IsPageOf(lt, tables(k), partition, status, after, limit, more, hasMore)
    ensures hasMore && more != [] ==>
              NothingMissed(lt, tables, k + 1, partition, status, items + more, Some(PositionOf(more[|more| - 1])))
    ensures !hasMore ==> AllListed(tables, k + 1, partition, status, items + more)
  {
    forall id, at | Throughout(tables, k + 1, id, at, partition, status)
      ensures Lists(items + more, id, at)
              || (hasMore && more != [] && PastPosition(lt, Some(PositionOf(more[|more| - 1])), id, at))
    {
      assert Throughout(tables, k, id, at, partition, status);
      if Lists(items, id, at) {
        var i :| 0 <= i < |items| && items[i].documentId == id && items[i].createdAt == at;
        assert (items + more)[i] == items[i];
      } else {
        var m := tables(k)[id];
        assert PositionOf(m) == Position(at, Points(id));
        assert PastCursor(lt, after, m);
        assert id in Selected(lt, tables(k), partition, status, after);
        if m in more {
          var i :| 0 <= i < |more| && more[i] == m;
          assert (items + more)[|items| + i] == m;
        }
      }
    }
  }

  lemma AppendFromTables(tables: Tables, k: nat, partition: DocumentPartition, status: Option<DocumentStatus>,
                         items: seq<DocumentMetadata>, more: seq<DocumentMetadata>)
    requires FromTables(tables, k, partition, status, items)
    requires forall i :: 0 <= i < |more| ==> FromTable(tables(k), partition, status, more[i])
    ensures FromTables(tables, k + 1, partition, status, items + more)
  {
    var all := items + more;
    forall i | 0 <= i < |all| ensures InSome(tables, k + 1, partition, status, all[i]) {
      if i < |items| {
        assert InSome(tables, k, partition, status, items[i]);
        var j: nat :| j < k && FromTable(tables(j), partition, status, items[i]);
        assert FromTable(tables(j), partition, status, all[i]);
      } else {
        assert FromTable(tables(k), partition, status, all[i]);
      }
    }
  }

  // ---- Rows without a cursor ------------------------------------------------------------

  /** A page size from 1 to 1000, and no hidden status. */
  predicate ValidQuery(q: Query) {
    !(q.status.Some? && Hidden(q.status.value)) && 0 < q.pageSize <= MAX_PAGE_LIMIT
  }

  function Maker(codec: Codec, q: Query): DocumentMetadata -> Option<Text> {
    CursorMaker(codec, q.partition, q.status, q.pageSize)
  }

  /** The next page from `after` is not the last, and its last row has no cursor. */
  ghost predicate Stuck(codec: Codec, lt: Collation, rows: Rows, q: Query, after: Option<Position>) {
    && IsCollation(lt) && WellKeyed(rows) && ValidQuery(q)
    && StuckAt(Maker(codec, q), q.pageSize, Listing(lt, rows, Selected(lt, rows, q.partition, q.status, after)))
  }

  predicate StuckAt(make: DocumentMetadata -> Option<Text>, p: nat, all: seq<DocumentMetadata>) {
    0 < p < |all| && make(all[p - 1]).None?
  }

  lemma ListPageIsPageOf(codec: Codec, lt: Collation, rows: Rows, partition: DocumentPartition,
                         cursor: Option<Text>, limit: int, status: Option<DocumentStatus>)
    requires IsCollation(lt) && WellKeyed(rows) && 0 < limit <= MAX_PAGE_LIMIT
    requires !(status.Some? && Hidden(status.value)) && ResolveCursor(codec, partition, cursor, limit, status).Ok?
    ensures var after := ResolveCursor(codec, partition, cursor, limit, status).value;
            ListPage(codec, lt, rows, partition, cursor, limit, status)
            == PageOf(CursorMaker(codec, partition, status, limit),
                      Take(Listing(lt, rows, Selected(lt, rows, partition, status, after)), limit + 1), limit)
  {
  }

  lemma ValidPageRaises(codec: Codec, lt: Collation, rows: Rows, q: Query, cursor: Option<Text>)
    requires IsCollation(lt) && WellKeyed(rows) && ValidQuery(q)
    requires ResolveCursor(codec, q.partition, cursor, q.pageSize, q.status).Ok?
    ensures var page := ListPage(codec, lt, rows, q.partition, cursor, q.pageSize, q.status);
            var after := ResolveCursor(codec, q.partition, cursor, q.pageSize, q.status).value;
            && (page.Err? <==> Stuck(codec, lt, rows, q, after))
            && (page.Err? ==> page.error == NoCursor)
  {
    var after := ResolveCursor(codec, q.partition, cursor, q.pageSize, q.status).value;
    ListPageIsPageOf(codec, lt, rows, q.partition, cursor, q.pageSize, q.status);
    PageOfParts(Maker(codec, q), Listing(lt, rows, Selected(lt, rows, q.partition, q.status, after)), q.pageSize);
  }

  /** Every error of a page request, and when: the validation errors in their order, and
      otherwise exactly a last row without a cursor on a page that is not the last. */
  lemma PageRaises(codec: Codec, lt: Collation, rows: Rows, q: Query, cursor: Option<Text>)
    requires IsCollation(lt) && WellKeyed(rows)
    ensures var page := ListPage(codec, lt, rows, q.partition, cursor, q.pageSize, q.status);
            var after := ResolveCursor(codec, q.partition, cursor, q.pageSize, q.status);
            if q.status.Some? && Hidden(q.status.value) then page == Err(InvalidStatus)
            else if !(0 < q.pageSize <= MAX_PAGE_LIMIT) then page == Err(InvalidLimit)
            else if after.Err? then page == Err(after.error)
            else (page.Err? <==> Stuck(codec, lt, rows, q, after.value)) && (page.Err? ==> page.error == NoCursor)
  {
    if ValidQuery(q) && ResolveCursor(codec, q.partition, cursor, q.pageSize, q.status).Ok? {
      ValidPageRaises(codec, lt, rows, q, cursor);
    }
  }

  /** The last row of the `j`-th full page of `p` rows has a cursor. */
  predicate PageEndFits(make: DocumentMetadata -> Option<Text>, p: nat, items: seq<DocumentMetadata>, j: int) {
    var end := j * p;
    0 < end <= |items| ==> make(items[end - 1]).Some?
  }

  ghost predicate CursorsFit(make: DocumentMetadata -> Option<Text>, p: nat, items: seq<DocumentMetadata>, pages: int) {
    forall j :: 0 < j <= pages ==> PageEndFits(make, p, items, j)
  }

  lemma EarlierPageEnds(j: int, k: int, p: int)
    requires 0 <= j <= k && 0 <= p
    ensures 0 <= j * p <= k * p
  {
  }

  lemma PageEndStays(make: DocumentMetadata -> Option<Text>, p: nat, items: seq<DocumentMetadata>,
                     more: seq<DocumentMetadata>, j: nat, k: nat)
    requires |items| == k * p && j <= k && PageEndFits(make, p, items, j)
    ensures PageEndFits(make, p, items + more, j)
  {
    EarlierPageEnds(j, k, p);
    var end := j * p;
    if 0 < end {
      assert (items + more)[end - 1] == items[end - 1];
    }
  }

  lemma NewPageEnd(make: DocumentMetadata -> Option<Text>, p: nat, items: seq<DocumentMetadata>,
                   more: seq<DocumentMetadata>, k: nat)
    requires 0 < p && |items| == k * p && |more| == p && make(more[|more| - 1]).Some?
    ensures PageEndFits(make, p, items + more, k + 1)
  {
    var end := (k + 1) * p;
    assert end == |items + more|;
    assert (items + more)[end - 1] == more[|more| - 1];
  }

  lemma FitsAppend(make: DocumentMetadata -> Option<Text>, p: nat, items: seq<DocumentMetadata>,
                   more: seq<DocumentMetadata>, k: nat)
    requires 0 < p && |items| == k * p && CursorsFit(make, p, items, k)
    ensures CursorsFit(make, p, items + more, k)
    ensures |more| == p && make(more[|more| - 1]).Some? ==> CursorsFit(make, p, items + more, k + 1)
  {
    forall j | 0 < j <= k ensures PageEndFits(make, p, items + more, j) {
      PageEndStays(make, p, items, more, j, k);
    }
    if |more| == p && make(more[|more| - 1]).Some? {
      NewPageEnd(make, p, items, more, k);
    }
  }

  // ---- The iteration -----------------------------------------------------------------------

  /** After `requests` full pages, with more to come past `after`. */
  ghost predicate Progress(codec: Codec, lt: Collation, tables: Tables, q: Query, items: seq<DocumentMetadata>,
                           cursor: Option<Text>, after: Option<Position>, requests: nat)
  {
    && ResolveCursor(codec, q.partition, cursor, q.pageSize, q.status) == Ok(after)
    && ListedTo(lt, items, after) && (requests == 0 <==> after.None?)
    && |items| == requests * q.pageSize
    && Descending(lt, items)
    && FromTables(tables, requests, q.partition, q.status, items)
    && (requests > 0 ==>
          && ValidQuery(q) && CursorsFit(Maker(codec, q), q.pageSize, items, requests)
          && NothingMissed(lt, tables, requests, q.partition, q.status, items, after)
          && Selected(lt, tables(requests - 1), q.partition, q.status, after) != {})
  }

  /** The iteration has ended after `requests` requests. */
  ghost predicate Complete(lt: Collation, tables: Tables, q: Query, items: seq<DocumentMetadata>, requests: nat) {
    && Descending(lt, items)
    && FromTables(tables, requests, q.partition, q.status, items)
    && AllListed(tables, requests, q.partition, q.status, items)
    && requests > 0 && (requests - 1) * q.pageSize <= |items| <= requests * q.pageSize
    && (requests > 1 && tables(requests - 1) == tables(requests - 2) ==> (requests - 1) * q.pageSize < |items|)
  }

  lemma PagesJoin(codec: Codec, lt: Collation, tables: Tables, q: Query, items: seq<DocumentMetadata>,
                  cursor: Option<Text>, after: Option<Position>, k: nat, more: seq<DocumentMetadata>, hasMore: bool)
    requires IsCollation(lt) && WellKeyed(tables(k)) && 0 < q.pageSize
    requires Progress(codec, lt, tables, q, items, cursor, after, k)
    requires IsPageOf(lt, tables(k), q.partition, q.status, after, q.pageSize, more, hasMore)
    ensures Descending(lt, items + more) && FromTables(tables, k + 1, q.partition, q.status, items + more)
    ensures hasMore ==> NothingMissed(lt, tables, k + 1, q.partition, q.status, items + more,
                                      Some(PositionOf(more[|more| - 1])))
    ensures !hasMore ==> AllListed(tables, k + 1, q.partition, q.status, items + more)
  {
    AppendDescending(lt, items, more, after);
    NextPageMissesNothing(lt, tables, k, q.partition, q.status, items, after, q.pageSize, more, hasMore);
    AppendFromTables(tables, k, q.partition, q.status, items, more);
  }

  lemma PagesCount(lt: Collation, q: Query, before: Rows, rows: Rows, after: Option<Position>, k: nat, items: nat,
                   more: seq<DocumentMetadata>, hasMore: bool)
    requires 0 < q.pageSize && items == k * q.pageSize
    requires k > 0 ==> Selected(lt, before, q.partition, q.status, after) != {}
    requires IsPageOf(lt, rows, q.partition, q.status, after, q.pageSize, more, hasMore)
    ensures hasMore ==> items + |more| == (k + 1) * q.pageSize
    ensures k * q.pageSize <= items + |more| <= (k + 1) * q.pageSize
    ensures k > 0 && rows == before ==> k * q.pageSize < items + |more|
  {
    assert (k + 1) * q.pageSize == k * q.pageSize + q.pageSize;
    if k > 0 && rows == before {
      var id :| id in Selected(lt, rows, q.partition, q.status, after);
      assert rows[id] in more || hasMore;
    }
  }

  lemma PageFits(codec: Codec, lt: Collation, rows: Rows, q: Query, cursor: Option<Text>,
                 items: seq<DocumentMetadata>, k: nat)
    requires IsCollation(lt) && WellKeyed(rows) && ValidQuery(q)
    requires ResolveCursor(codec, q.partition, cursor, q.pageSize, q.status).Ok?
    requires ListPage(codec, lt, rows, q.partition, cursor, q.pageSize, q.status).Ok?
    requires |items| == k * q.pageSize && CursorsFit(Maker(codec, q), q.pageSize, items, k)
    ensures var page := ListPage(codec, lt, rows, q.partition, cursor, q.pageSize, q.status).value;
            CursorsFit(Maker(codec, q), q.pageSize, items + page.items, if page.hasMore then k + 1 else k)
  {
    var page := ListPage(codec, lt, rows, q.partition, cursor, q.pageSize, q.status).value;
    var after := ResolveCursor(codec, q.partition, cursor, q.pageSize, q.status).value;
    var all := Listing(lt, rows, Selected(lt, rows, q.partition, q.status, after));
    PageParts(codec, lt, rows, q.partition, cursor, q.pageSize, q.status);
    ValidPageRaises(codec, lt, rows, q, cursor);
    assert page.items == Take(all, q.pageSize) && !StuckAt(Maker(codec, q), q.pageSize, all);
    FitsAppend(Maker(codec, q), q.pageSize, items, page.items, k);
  }

  /** What a page adds to an iteration. */
  ghost predicate Adds(codec: Codec, lt: Collation, tables: Tables, q: Query, items: seq<DocumentMetadata>,
                       page: Page, k: nat)
  {
    && page.hasMore == page.nextCursor.Some?
    && if page.hasMore then
      page.items != []
      && Progress(codec, lt, tables, q, items + page.items, page.nextCursor,
                  Some(PositionOf(page.items[|page.items| - 1])), k + 1)
    else
      Complete(lt, tables, q, items + page.items, k + 1)
      && CursorsFit(Maker(codec, q), q.pageSize, items + page.items, k)
  }

  lemma PageAdds(codec: Codec, lt: Collation, tables: Tables, q: Query, items: seq<DocumentMetadata>,
                 cursor: Option<Text>, after: Option<Position>, k: nat, page: Page)
    requires IsCollation(lt) && WellKeyed(tables(k)) && ValidQuery(q)
    requires Progress(codec, lt, tables, q, items, cursor, after, k)
    requires IsPageOf(lt, tables(k), q.partition, q.status, after, q.pageSize, page.items, page.hasMore)
    requires page.hasMore == page.nextCursor.Some?
    requires page.hasMore ==>
               ResolveCursor(codec, q.partition, page.nextCursor, q.pageSize, q.status)
               == Ok(Some(PositionOf(page.items[|page.items| - 1])))
    requires CursorsFit(Maker(codec, q), q.pageSize, items + page.items, if page.hasMore then k + 1 else k)
    ensures Adds(codec, lt, tables, q, items, page, k)
  {
    PagesJoin(codec, lt, tables, q, items, cursor, after, k, page.items, page.hasMore);
    PagesCount(lt, q, if k > 0 then tables(k - 1) else map[], tables(k), after, k, |items|, page.items, page.hasMore);
    assert page.items != [] ==> (items + page.items)[|items + page.items| - 1] == page.items[|page.items| - 1];
  }

  lemma PageAdvances(codec: Codec, lt: Collation, tables: Tables, q: Query, items: seq<DocumentMetadata>,
                     cursor: Option<Text>, after: Option<Position>, k: nat)
    requires IsCollation(lt) && SaneTable(codec, q, tables(k))
    requires Progress(codec, lt, tables, q, items, cursor, after, k)
    requires ListPage(codec, lt, tables(k), q.partition, cursor, q.pageSize, q.status).Ok?
    ensures ValidQuery(q)
    ensures Adds(codec, lt, tables, q, items,
                 ListPage(codec, lt, tables(k), q.partition, cursor, q.pageSize, q.status).value, k)
  {
    var page := ListPage(codec, lt, tables(k), q.partition, cursor, q.pageSize, q.status).value;
    PageRaises(codec, lt, tables(k), q, cursor);
    PageIsRight(codec, lt, tables(k), q, cursor);
    PageFits(codec, lt, tables(k), q, cursor, items, k);
    PageAdds(codec, lt, tables, q, items, cursor, after, k, page);
  }

  /** Where an iteration stands. It may raise on its first request for an invalid query, and
      later only where a page that is not the last ends in a row without a cursor. */
  ghost predicate Iterating(codec: Codec, lt: Collation, tables: Tables, q: Query, items: seq<DocumentMetadata>,
                            cursor: Option<Text>, after: Option<Position>, requests: nat, outcome: Outcome)
  {
    match outcome
    case StillRunning => Progress(codec, lt, tables, q, items, cursor, after, requests)
    case Finished =>
      && ValidQuery(q) && Complete(lt, tables, q, items, requests)
      && CursorsFit(Maker(codec, q), q.pageSize, items, requests - 1)
    case Raised(error) =>
      && Progress(codec, lt, tables, q, items, cursor, after, requests)
      && if q.status.Some? && Hidden(q.status.value) then error == InvalidStatus
         else if !(0 < q.pageSize <= MAX_PAGE_LIMIT) then error == InvalidLimit
         else error == NoCursor && Stuck(codec, lt, tables(requests), q, after)
  }

  ghost predicate AllSane(codec: Codec, q: Query, tables: Tables) {
    forall k: nat :: SaneTable(codec, q, tables(k))
  }

  function LastPosition(items: seq<DocumentMetadata>): Option<Position> {
    if items == [] then None else Some(PositionOf(items[|items| - 1]))
  }

  lemma RequestLeads(codec: Codec, lt: Collation, tables: Tables, q: Query, items: seq<DocumentMetadata>,
                     cursor: Option<Text>, after: Option<Position>, k: nat)
    requires IsCollation(lt) && SaneTable(codec, q, tables(k))
    requires Progress(codec, lt, tables, q, items, cursor, after, k)
    ensures match ListPage(codec, lt, tables(k), q.partition, cursor, q.pageSize, q.status)
            case Err(error) => Iterating(codec, lt, tables, q, items, cursor, after, k, Raised(error))
            case Ok(page) =>
              Iterating(codec, lt, tables, q, items + page.items, page.nextCursor, LastPosition(page.items), k + 1,
                        if page.nextCursor.None? then Finished else StillRunning)
  {
    if ListPage(codec, lt, tables(k), q.partition, cursor, q.pageSize, q.status).Ok? {
      PageAdvances(codec, lt, tables, q, items, cursor, after, k);
    } else {
      PageRaises(codec, lt, tables(k), q, cursor);
    }
  }

  /** One request of an iteration, and where it leads. */
  method RequestPage(codec: Codec, lt: Collation, tables: Tables, q: Query, items: seq<DocumentMetadata>,
                     cursor: Option<Text>, k: nat, ghost after: Option<Position>)
    returns (items': seq<DocumentMetadata>, cursor': Option<Text>, k': nat, outcome: Outcome,
             ghost after': Option<Position>)
    requires IsCollation(lt) && SaneTable(codec, q, tables(k))
    requires Iterating(codec, lt, tables, q, items, cursor, after, k, StillRunning)
    ensures Iterating(codec, lt, tables, q, items', cursor', after', k', outcome)
    ensures k' == if outcome.Raised? then k else k + 1
  {
    var answer := ListPage(codec, lt, tables(k), q.partition, cursor, q.pageSize, q.status);
    RequestLeads(codec, lt, tables, q, items, cursor, after, k);
    match answer {
      case Err(error) =>
        items', cursor', k', outcome, after' := items, cursor, k, Raised(error), after;
      case Ok(page) =>
        outcome := if page.nextCursor.None? then Finished else StillRunning;
        items', cursor', k', after' := items + page.items, page.nextCursor, k + 1, LastPosition(page.items);
    }
  }

  lemma IterationBegins(codec: Codec, lt: Collation, tables: Tables, q: Query)
    ensures Iterating(codec, lt, tables, q, [], None, None, 0, StillRunning)
  {
  }

  lemma SaneAt(codec: Codec, q: Query, tables: Tables, k: nat)
    requires AllSane(codec, q, tables)
    ensures SaneTable(codec, q, tables(k))
  {
  }

  /** Follows `next_cursor` until it is absent, for at most `window` requests; request `k`
      finds the table `tables(k)`. The last cursor and the place it stands for are returned
      with the items. */
  method IterDocuments(codec: Codec, lt: Collation, tables: Tables, q: Query, window: nat)
    returns (items: seq<DocumentMetadata>, outcome: Outcome, requests: nat,
             cursor: Option<Text>, ghost after: Option<Position>)
    requires IsCollation(lt) && AllSane(codec, q, tables)
    ensures Iterating(codec, lt, tables, q, items, cursor, after, requests, outcome)
    ensures Descending(lt, items) && FromTables(tables, requests, q.partition, q.status, items)
    ensures requests <= window && (outcome.StillRunning? ==> requests == window)
  {
    items, outcome, requests, cursor, after := [], StillRunning, 0, None, None;
    IterationBegins(codec, lt, tables, q);
    while requests < window && outcome.StillRunning?
      invariant Iterating(codec, lt, tables, q, items, cursor, after, requests, outcome)
      invariant requests <= window
      decreases window - requests, outcome.StillRunning?
    {
      SaneAt(codec, q, tables, requests);
      items, cursor, requests, outcome, after := RequestPage(codec, lt, tables, q, items, cursor, requests, after);
    }
    IteratingMeans(codec, lt, tables, q, items, cursor, after, requests, outcome);
  }

  /** In every case the items are strictly descending, and each was eligible in the table of
      its request. */
  lemma IteratingMeans(codec: Codec, lt: Collation, tables: Tables, q: Query, items: seq<DocumentMetadata>,
                       cursor: Option<Text>, after: Option<Position>, requests: nat, outcome: Outcome)
    requires Iterating(codec, lt, tables, q, items, cursor, after, requests, outcome)
    ensures Descending(lt, items) && FromTables(tables, requests, q.partition, q.status, items)
  {
  }

  // ---- Arithmetic ------------------------------------------------------------------------------

  lemma QuotientIs(x: int, p: int, q: int, r: int)
    requires 0 < p && x == q * p + r && 0 <= r < p
    ensures x / p == q
  {
    var d := x / p - q;
    assert x == p * (x / p) + x % p;
    assert d * p == r - x % p;
    MultipleIsFar(d, p);
  }

  lemma MultipleIsFar(d: int, p: int)
    requires 0 < p
    ensures (d > 0 ==> d * p >= p) && (d < 0 ==> d * p <= -p)
  {
  }

  // ---- Recovery candidates, by offset ----------------------------------------------------------

  datatype RecoveryListError = InvalidRecoveryStatus | NegativeOffset | InvalidRecoveryLimit

  function CandidateIds(rows: Rows, partition: DocumentPartition, status: DocumentStatus): set<string> {
    set id | id in rows && rows[id].partition == partition && rows[id].status == status
  }

  function Window<T>(s: seq<T>, offset: nat, limit: nat): seq<T> {
    if offset <= |s| then Take(s[offset..], limit) else []
  }

  lemma WindowExtends<T>(s: seq<T>, offset: nat, limit: nat)
    requires offset <= |s| && 0 < limit
    ensures var w := Window(s, offset, limit);
            && offset + |w| <= |s| && s[..offset] + w == s[..offset + |w|]
            && (|w| < limit ==> s[..offset + |w|] == s)
  {
  }

  /** `list_recovery_candidates`: `OFFSET offset LIMIT limit` of the filtered listing. */
  function ListCandidates(lt: Collation, rows: Rows, partition: DocumentPartition, status: DocumentStatus,
                          offset: int, limit: int): Result<seq<DocumentMetadata>, RecoveryListError>
    requires IsCollation(lt) && WellKeyed(rows)
  {
    if !status.Failed? && !status.Deleting? then Err(InvalidRecoveryStatus)
    else if offset < 0 then Err(NegativeOffset)
    else if limit <= 0 || limit > 1000 then Err(InvalidRecoveryLimit)
    else Ok(Window(Listing(lt, rows, CandidateIds(rows, partition, status)), offset, limit))
  }

  lemma ListingLength(lt: Collation, rows: Rows, ids: set<string>)
    requires IsCollation(lt) && WellKeyed(rows) && ids <= rows.Keys
    ensures |Listing(lt, rows, ids)| == |ids|
  {
    ListingIsRight(lt, rows, ids);
  }

  /** Walks the candidates of an unchanging table: all of them in listing order, in floor(n / p) + 1 requests. */
  method IterRecoveryCandidates(lt: Collation, rows: Rows, partition: DocumentPartition, status: DocumentStatus,
                                pageSize: int)
    returns (items: seq<DocumentMetadata>, requests: nat, error: Option<RecoveryListError>)
    requires IsCollation(lt) && WellKeyed(rows)
    ensures error.None? <==> (status.Failed? || status.Deleting?) && 0 < pageSize <= 1000
    ensures error.Some? ==> items == [] && requests == 1
    ensures error.Some? ==>
              error.value == if status.Failed? || status.Deleting? then InvalidRecoveryLimit else InvalidRecoveryStatus
    ensures error.None? ==> items == Listing(lt, rows, CandidateIds(rows, partition, status))
    ensures error.None? ==> requests == |CandidateIds(rows, partition, status)| / pageSize + 1
  {
    items, requests, error := [], 0, None;
    var offset := 0;
    ghost var all := Listing(lt, rows, CandidateIds(rows, partition, status));
    ListingLength(lt, rows, CandidateIds(rows, partition, status));
    while true
      invariant offset == |items| <= |all| && items == all[..offset] && offset == requests * pageSize
      invariant requests > 0 ==> (status.Failed? || status.Deleting?) && 0 < pageSize <= 1000
      invariant error.None?
      decreases |all| - offset
    {
      var answer := ListCandidates(lt, rows, partition, status, offset, pageSize);
      requests := requests + 1;
      if answer.Err? {
        error := Some(answer.error);
        return;
      }
      var page := answer.value;
      WindowExtends(all, offset, pageSize);
      if page == [] {
        QuotientIs(|all|, pageSize, requests - 1, 0);
        return;
      }
      items := items + page;
      if |page| < pageSize {
        QuotientIs(|all|, pageSize, requests - 1, |page|);
        return;
      }
      assert requests * pageSize == (requests - 1) * pageSize + pageSize;
      offset := offset + |page|;
    }
  }
}

/** What a page, an iteration and a recovery listing hold, in the fields of the rows, and what a
    request is refused for. */
module ListingMeaning {
  import opened Domain
  import opened Text
  import opened Pagination
  import opened PaginationLoops
  import PaginationTheorems
  import Cursor

  /** The rows a listing is asked for. */
  ghost predicate Wanted(m: DocumentMetadata, partition: DocumentPartition, status: Option<DocumentStatus>) {
    && m.partition == partition && m.status != Deleting && m.status != Deleted
    && (status.Some? ==> m.status == status.value)
  }

  /** Newest first, and by id, last first, where they are equally old. */
  ghost predicate NewestFirst(lt: Collation, items: seq<DocumentMetadata>) {
    forall i, j :: 0 <= i < j < |items| ==>
      || items[j].createdAt < items[i].createdAt
      || (items[j].createdAt == items[i].createdAt && lt(Points(items[j].documentId), Points(items[i].documentId)))
  }

  lemma WantedIsEligible(m: DocumentMetadata, partition: DocumentPartition, status: Option<DocumentStatus>)
    ensures Eligible(m, partition, status) <==> Wanted(m, partition, status)
  {
  }

  lemma OrderMeans(lt: Collation, items: seq<DocumentMetadata>)
    ensures Descending(lt, items) <==> NewestFirst(lt, items)
  {
    if Descending(lt, items) {
      forall i, j | 0 <= i < j < |items|
        ensures items[j].createdAt < items[i].createdAt
                || (items[j].createdAt == items[i].createdAt
                    && lt(Points(items[j].documentId), Points(items[i].documentId)))
      {
        assert Before(lt, items[i], items[j]);
      }
    }
  }

  // ---- One page -----------------------------------------------------------------------

  /** Older than the place a cursor stands for, or equally old with a lower id. */
  ghost predicate Beyond(lt: Collation, after: Option<Position>, m: DocumentMetadata) {
    after.Some? ==>
      || m.createdAt < after.value.createdAt
      || (m.createdAt == after.value.createdAt && lt(Points(m.documentId), after.value.documentId))
  }

  /** A page holds, newest first, wanted rows beyond the cursor's place, `limit` of them if there
      are more; and every such row that is not on it comes after its last item. */
  lemma PageMeans(codec: Codec, lt: Collation, rows: Rows, q: Query, cursor: Option<Text>)
    requires IsCollation(lt) && SaneTable(codec, q, rows)
    requires ListPage(codec, lt, rows, q.partition, cursor, q.pageSize, q.status).Ok?
    ensures ResolveCursor(codec, q.partition, cursor, q.pageSize, q.status).Ok?
    ensures var page := ListPage(codec, lt, rows, q.partition, cursor, q.pageSize, q.status).value;
            var after := ResolveCursor(codec, q.partition, cursor, q.pageSize, q.status).value;
            && NewestFirst(lt, page.items) && |page.items| <= q.pageSize
            && (page.hasMore ==> |page.items| == q.pageSize)
            && (forall m :: m in page.items ==>
                  m.documentId in rows && rows[m.documentId] == m && Wanted(m, q.partition, q.status)
                  && Beyond(lt, after, m))
            && (forall id :: id in rows && Wanted(rows[id], q.partition, q.status) && Beyond(lt, after, rows[id]) ==>
                  rows[id] in page.items || (page.hasMore && NewestFirst(lt, page.items + [rows[id]])))
  {
    var page := ListPage(codec, lt, rows, q.partition, cursor, q.pageSize, q.status).value;
    var after := ResolveCursor(codec, q.partition, cursor, q.pageSize, q.status).value;
    PageIsRight(codec, lt, rows, q, cursor);
    OrderMeans(lt, page.items);
    forall id | id in rows && Wanted(rows[id], q.partition, q.status) && Beyond(lt, after, rows[id])
      ensures rows[id] in page.items || (page.hasMore && NewestFirst(lt, page.items + [rows[id]]))
    {
      assert id in Selected(lt, rows, q.partition, q.status, after);
      if rows[id] !in page.items { AfterTheLast(lt, page.items, rows[id]); }
    }
  }

  lemma AfterTheLast(lt: Collation, items: seq<DocumentMetadata>, m: DocumentMetadata)
    requires IsCollation(lt) && Descending(lt, items) && items != [] && Before(lt, items[|items| - 1], m)
    ensures NewestFirst(lt, items + [m])
  {
    forall i | 0 <= i < |items| ensures Before(lt, items[i], m) {
      if i < |items| - 1 { BeforeTransitive(lt, items[i], items[|items| - 1], m); }
    }
    OrderMeans(lt, items + [m]);
  }

  /** What a request is refused for, first reason first: a hidden status, a limit outside 1 to 1000,
      a cursor that does not decode, one of another status, page size or partition. */
  lemma RequestRefused(codec: Codec, lt: Collation, rows: Rows, q: Query, cursor: Option<Text>)
    requires IsCollation(lt) && WellKeyed(rows)
    ensures var page := ListPage(codec, lt, rows, q.partition, cursor, q.pageSize, q.status);
            var read := if cursor.Some? then codec.decode(cursor.value) else None;
            if q.status == Some(Deleting) || q.status == Some(Deleted) then page == Err(InvalidStatus)
            else if q.pageSize < 1 || q.pageSize > 1000 then page == Err(InvalidLimit)
            else if cursor.Some? && read.None? then page == Err(BadCursor)
            else if cursor.Some? && (read.value.status != q.status || read.value.pageSize != q.pageSize
                                     || read.value.kind != q.partition.kind
                                     || read.value.partitionId != Points(q.partition.partitionId))
            then page == Err(CursorMismatch)
            else page.Err? ==> page == Err(NoCursor)
  {
    PageRaises(codec, lt, rows, q, cursor);
  }

  /** And the place a cursor that is accepted stands for is the one written in it. */
  lemma AcceptedCursorRead(codec: Codec, q: Query, cursor: Text)
    requires ResolveCursor(codec, q.partition, Some(cursor), q.pageSize, q.status).Ok?
    ensures codec.decode(cursor).Some?
    ensures var read := codec.decode(cursor).value;
            ResolveCursor(codec, q.partition, Some(cursor), q.pageSize, q.status).value
            == Some(Position(read.createdAt.micros, read.documentId))
  {
  }

  // ---- Iterations ------------------------------------------------------------------------

  /** Whatever an iteration has listed, over changing tables, finished or not, is newest first and
      was a wanted row in the table of some request. */
  lemma IterationMeans(codec: Codec, lt: Collation, tables: Tables, q: Query, items: seq<DocumentMetadata>,
                       cursor: Option<Text>, after: Option<Position>, requests: nat, outcome: Outcome)
    requires Iterating(codec, lt, tables, q, items, cursor, after, requests, outcome)
    ensures NewestFirst(lt, items)
    ensures forall m :: m in items ==> Wanted(m, q.partition, q.status)
    ensures forall m :: m in items ==>
              exists k: nat :: k < requests && m.documentId in tables(k) && tables(k)[m.documentId] == m
  {
    IteratingMeans(codec, lt, tables, q, items, cursor, after, requests, outcome);
    OrderMeans(lt, items);
    forall m | m in items
      ensures Wanted(m, q.partition, q.status)
      ensures exists k: nat :: k < requests && m.documentId in tables(k) && tables(k)[m.documentId] == m
    {
      var i :| 0 <= i < |items| && items[i] == m;
      assert InSome(tables, requests, q.partition, q.status, items[i]);
      var k: nat :| k < requests && FromTable(tables(k), q.partition, q.status, m);
      WantedIsEligible(m, q.partition, q.status);
    }
  }

  /** A finished iteration of a table that does not change has listed exactly the wanted rows. */
  lemma UnchangedIterationMeans(codec: Codec, lt: Collation, rows: Rows, q: Query, items: seq<DocumentMetadata>,
                                cursor: Option<Text>, after: Option<Position>, requests: nat)
    requires IsCollation(lt) && WellKeyed(rows)
    requires Iterating(codec, lt, _ => rows, q, items, cursor, after, requests, Finished)
    ensures NewestFirst(lt, items)
    ensures forall m :: m in items <==>
              m.documentId in rows && rows[m.documentId] == m && Wanted(m, q.partition, q.status)
  {
    IterationMeans(codec, lt, _ => rows, q, items, cursor, after, requests, Finished);
    var ids := EligibleIds(rows, q.partition, q.status);
    PaginationTheorems.UnchangedTableListed(lt, rows, q, items, requests);
    ListingIsRight(lt, rows, ids);
    forall m ensures m in items <==>
                     m.documentId in rows && rows[m.documentId] == m && Wanted(m, q.partition, q.status)
    {
      WantedIsEligible(m, q.partition, q.status);
      if m.documentId in rows && rows[m.documentId] == m && Wanted(m, q.partition, q.status) {
        assert m.documentId in ids;
      }
    }
  }

  /** A document that every request finds wanted, under one created_at, is listed exactly once. */
  lemma WantedListedOnce(codec: Codec, lt: Collation, tables: Tables, q: Query, items: seq<DocumentMetadata>,
                         cursor: Option<Text>, after: Option<Position>, requests: nat, id: string, at: int)
    returns (i: nat)
    requires IsCollation(lt) && Iterating(codec, lt, tables, q, items, cursor, after, requests, Finished)
    requires forall k: nat :: k < requests ==>
               id in tables(k) && tables(k)[id].createdAt == at && Wanted(tables(k)[id], q.partition, q.status)
    ensures i < |items| && items[i].documentId == id && items[i].createdAt == at
    ensures forall j :: 0 <= j < |items| && items[j].documentId == id ==> j == i
  {
    forall k: nat | k < requests ensures Eligible(tables(k)[id], q.partition, q.status) {
      WantedIsEligible(tables(k)[id], q.partition, q.status);
    }
    i := PaginationTheorems.ListedExactlyOnce(lt, tables, q, items, requests, id, at);
  }

  // ---- Recovery candidates ----------------------------------------------------------------

  /** The candidates are exactly the partition's rows of the status asked for, newest first. */
  lemma CandidatesMean(lt: Collation, rows: Rows, partition: DocumentPartition, status: DocumentStatus)
    requires IsCollation(lt) && WellKeyed(rows)
    ensures var all := Listing(lt, rows, CandidateIds(rows, partition, status));
            && NewestFirst(lt, all)
            && forall m :: m in all <==>
                 m.documentId in rows && rows[m.documentId] == m && m.partition == partition && m.status == status
  {
    var ids := CandidateIds(rows, partition, status);
    var all := Listing(lt, rows, ids);
    ListingIsRight(lt, rows, ids);
    OrderMeans(lt, all);
    forall m ensures m in all <==>
                     m.documentId in rows && rows[m.documentId] == m && m.partition == partition && m.status == status
    {
      if m.documentId in rows && rows[m.documentId] == m && m.partition == partition && m.status == status {
        assert m.documentId in ids;
      }
    }
  }

  /** One request for candidates: refused for the status, the offset or the limit, in that order, and
      otherwise the rows from `offset` on, at most `limit` of them. */
  lemma CandidatePageMeans(lt: Collation, rows: Rows, partition: DocumentPartition, status: DocumentStatus,
                           offset: int, limit: int)
    requires IsCollation(lt) && WellKeyed(rows)
    ensures var all := Listing(lt, rows, CandidateIds(rows, partition, status));
            var page := ListCandidates(lt, rows, partition, status, offset, limit);
            if status != DocumentStatus.Failed && status != Deleting then page == Err(InvalidRecoveryStatus)
            else if offset < 0 then page == Err(NegativeOffset)
            else if limit < 1 || limit > 1000 then page == Err(InvalidRecoveryLimit)
            else
              && page.Ok? && |page.value| <= limit
              && (forall i :: 0 <= i < |page.value| ==> offset + i < |all| && page.value[i] == all[offset + i])
              && (|page.value| < limit ==> |all| <= offset + |page.value|)
  {
  }
}

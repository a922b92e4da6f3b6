/** Listing: the ordered query over the metadata table, and one page of it. */
module Pagination {
  import opened Domain
  import opened Text
  import Cursor

  /** The collation the database orders ids by: any strict total order. */
  type Collation = (Text, Text) -> bool

  ghost predicate IsCollation(lt: Collation) {
    && (forall x :: !lt(x, x))
    && (forall x, y, z :: lt(x, y) && lt(y, z) ==> lt(x, z))
    && (forall x, y :: x != y ==> lt(x, y) || lt(y, x))
  }

  /** A place in the listing: (created_at, document_id), both descending. */
  datatype Position = Position(createdAt: int, documentId: Text)

  function PositionOf(m: DocumentMetadata): Position {
    Position(m.createdAt, Points(m.documentId))
  }

  predicate Precedes(lt: Collation, p: Position, q: Position) {
    q.createdAt < p.createdAt || (q.createdAt == p.createdAt && lt(q.documentId, p.documentId))
  }

  predicate Before(lt: Collation, a: DocumentMetadata, b: DocumentMetadata) {
    Precedes(lt, PositionOf(a), PositionOf(b))
  }

  lemma BeforeIsTotal(lt: Collation, a: DocumentMetadata, b: DocumentMetadata)
    requires IsCollation(lt) && a.documentId != b.documentId
    ensures Before(lt, a, b) || Before(lt, b, a)
  {
    PointsInjective(a.documentId, b.documentId);
  }

  lemma BeforeTransitive(lt: Collation, a: DocumentMetadata, b: DocumentMetadata, c: DocumentMetadata)
    requires IsCollation(lt) && Before(lt, a, b) && Before(lt, b, c)
    ensures Before(lt, a, c)
  {
  }

  ghost predicate Descending(lt: Collation, list: seq<DocumentMetadata>) {
    forall i, j :: 0 <= i < j < |list| ==> Before(lt, list[i], list[j])
  }

  // ---- Sorting a set of rows ------------------------------------------------------

  predicate IsFirst(lt: Collation, rows: Rows, ids: set<string>, id: string)
    requires ids <= rows.Keys
  {
    id in ids && forall j :: j in ids && j != id ==> Before(lt, rows[id], rows[j])
  }

  lemma FirstExists(lt: Collation, rows: Rows, ids: set<string>) returns (id: string)
    requires IsCollation(lt) && WellKeyed(rows) && ids <= rows.Keys && ids != {}
    ensures IsFirst(lt, rows, ids, id)
    decreases |ids|
  {
    var x :| x in ids;
    var rest := ids - {x};
    assert ids == {x} + rest;
    if rest == {} {
      id := x;
    } else {
      var y := FirstExists(lt, rows, rest);
      BeforeIsTotal(lt, rows[x], rows[y]);
      id := if Before(lt, rows[x], rows[y]) then x else y;
      forall j | j in ids && j != id ensures Before(lt, rows[id], rows[j]) {
        assert j == x || j == y || Before(lt, rows[y], rows[j]);
        if id == x && j != y { BeforeTransitive(lt, rows[x], rows[y], rows[j]); }
      }
    }
  }

  lemma FirstIsUnique(lt: Collation, rows: Rows, ids: set<string>)
    requires IsCollation(lt) && WellKeyed(rows) && ids <= rows.Keys
    ensures forall x, y :: IsFirst(lt, rows, ids, x) && IsFirst(lt, rows, ids, y) ==> x == y
  {
    forall x, y | IsFirst(lt, rows, ids, x) && IsFirst(lt, rows, ids, y) ensures x == y {
      if x != y { BeforeTransitive(lt, rows[x], rows[y], rows[x]); }
    }
  }

  /** `ORDER BY created_at DESC, document_id DESC` over the rows of `ids`. */
  function Listing(lt: Collation, rows: Rows, ids: set<string>): seq<DocumentMetadata>
    requires IsCollation(lt) && WellKeyed(rows) && ids <= rows.Keys
    decreases |ids|
  {
    if ids == {} then []
    else
      assert exists id :: IsFirst(lt, rows, ids, id) by { var id := FirstExists(lt, rows, ids); }
      FirstIsUnique(lt, rows, ids);
      var id :| id in ids && IsFirst(lt, rows, ids, id);
      [rows[id]] + Listing(lt, rows, ids - {id})
  }

  /** A list of exactly the rows of `ids`. */
  predicate ListsExactly(rows: Rows, ids: set<string>, list: seq<DocumentMetadata>)
    requires ids <= rows.Keys
  {
    && |list| == |ids|
    && (forall i :: 0 <= i < |list| ==> list[i].documentId in ids && list[i] == rows[list[i].documentId])
    && (forall id :: id in ids ==> rows[id] in list)
  }

  lemma FirstThenRest(lt: Collation, rows: Rows, ids: set<string>, id: string, rest: seq<DocumentMetadata>)
    requires IsCollation(lt) && WellKeyed(rows) && ids <= rows.Keys && id in ids && IsFirst(lt, rows, ids, id)
    requires Descending(lt, rest) && ListsExactly(rows, ids - {id}, rest)
    ensures Descending(lt, [rows[id]] + rest) && ListsExactly(rows, ids, [rows[id]] + rest)
  {
    var list := [rows[id]] + rest;
    forall i, j | 0 <= i < j < |list| ensures Before(lt, list[i], list[j]) {
      assert list[j] == rest[j - 1];
      assert rest[j - 1].documentId != id;
    }
    forall j | j in ids ensures rows[j] in list {
      assert j != id ==> rows[j] in rest;
    }
  }

  lemma {:induction false} ListingIsRight(lt: Collation, rows: Rows, ids: set<string>)
    requires IsCollation(lt) && WellKeyed(rows) && ids <= rows.Keys
    ensures Descending(lt, Listing(lt, rows, ids)) && ListsExactly(rows, ids, Listing(lt, rows, ids))
    decreases |ids|
  {
    if ids != {} {
      var id := FirstExists(lt, rows, ids);
      FirstIsUnique(lt, rows, ids);
      ListingIsRight(lt, rows, ids - {id});
      FirstThenRest(lt, rows, ids, id, Listing(lt, rows, ids - {id}));
    }
  }

  /** A descending list is determined by its elements. */
  lemma {:induction false} DescendingIsUnique(lt: Collation, a: seq<DocumentMetadata>, b: seq<DocumentMetadata>)
    requires IsCollation(lt) && Descending(lt, a) && Descending(lt, b)
    requires forall m :: m in a <==> m in b
    ensures a == b
    decreases |a|
  {
    assert |a| > 0 ==> a[0] in a && a[0] in b;
    assert |b| > 0 ==> b[0] in b && b[0] in a;
    if a != [] {
      var i :| 0 <= i < |b| && b[i] == a[0];
      var j :| 0 <= j < |a| && a[j] == b[0];
      assert i == 0 || Before(lt, b[0], b[i]);
      assert j == 0 || Before(lt, a[0], a[j]);
      assert a[0] == b[0];
      forall m ensures m in a[1..] <==> m in b[1..] {
        TailMembers(lt, a, m);
        TailMembers(lt, b, m);
      }
      DescendingIsUnique(lt, a[1..], b[1..]);
      assert a == [a[0]] + a[1..] && b == [b[0]] + b[1..];
    }
  }

  lemma TailMembers(lt: Collation, a: seq<DocumentMetadata>, m: DocumentMetadata)
    requires IsCollation(lt) && Descending(lt, a) && a != []
    ensures m in a[1..] <==> m in a && m != a[0]
  {
    if m in a[1..] {
      var k :| 0 <= k < |a[1..]| && a[1..][k] == m;
      assert Before(lt, a[0], a[k + 1]);
    }
    if m in a && m != a[0] {
      var k :| 0 <= k < |a| && a[k] == m;
      assert a[1..][k - 1] == m;
    }
  }

  // ---- The query and the page ---------------------------------------------------------

  predicate Hidden(s: DocumentStatus) {
    s.Deleting? || s.Deleted?
  }

  predicate Eligible(m: DocumentMetadata, partition: DocumentPartition, status: Option<DocumentStatus>) {
    m.partition == partition && (status.Some? ==> m.status == status.value) && !Hidden(m.status)
  }

  function EligibleIds(rows: Rows, partition: DocumentPartition, status: Option<DocumentStatus>): set<string> {
    set id | id in rows && Eligible(rows[id], partition, status)
  }

  /** The rows a page request selects: eligible, and past the cursor. */
  function Selected(lt: Collation, rows: Rows, partition: DocumentPartition, status: Option<DocumentStatus>,
                    after: Option<Position>): set<string>
  {
    set id | id in rows && Eligible(rows[id], partition, status)
             && (after.None? || Precedes(lt, after.value, PositionOf(rows[id])))
  }

  function Take<T>(s: seq<T>, n: nat): seq<T> {
    if n <= |s| then s[..n] else s
  }

  datatype Page = Page(items: seq<DocumentMetadata>, nextCursor: Option<Text>, hasMore: bool)

  datatype PageError = InvalidStatus | InvalidLimit | BadCursor | CursorMismatch | NoCursor

  const MAX_PAGE_LIMIT := 1000

  /** The database gives its timestamps back in UTC. */
  function Utc(t: int): Cursor.Instant {
    Cursor.Instant(t, Some(0))
  }

  function CursorStateOf(m: DocumentMetadata, partition: DocumentPartition, status: Option<DocumentStatus>,
                         limit: int): Cursor.CursorState
  {
    Cursor.CursorState(Utc(m.createdAt), Points(m.documentId), status, limit, partition.kind,
                       Points(partition.partitionId))
  }

  /** Writing and reading cursors; `None` is an error. */
  datatype Codec = Codec(
    encode: Cursor.CursorState -> Option<Text>,
    decode: Text -> Option<Cursor.CursorState>)

  /** The position a request's cursor stands for, if it belongs to this request. */
  function ResolveCursor(codec: Codec, partition: DocumentPartition, cursor: Option<Text>, limit: int,
                         status: Option<DocumentStatus>): Result<Option<Position>, PageError>
  {
    match cursor
    case None => Ok(None)
    case Some(text) =>
      match codec.decode(text)
      case None => Err(BadCursor)
      case Some(st) =>
        if st.status != status || st.pageSize != limit || st.kind != partition.kind
           || st.partitionId != Points(partition.partitionId)
        then Err(CursorMismatch)
        else Ok(Some(Position(st.createdAt.micros, st.documentId)))
  }

  /** The cursor that stands for a row, if there can be one. */
  function CursorMaker(codec: Codec, partition: DocumentPartition, status: Option<DocumentStatus>, limit: int)
    : DocumentMetadata -> Option<Text>
  {
    m => codec.encode(CursorStateOf(m, partition, status, limit))
  }

  /** One row more than asked for tells whether there is a next page. */
  function PageOf(make: DocumentMetadata -> Option<Text>, found: seq<DocumentMetadata>, limit: nat)
    : Result<Page, PageError>
  {
    var hasMore := |found| > limit;
    var items := Take(found, limit);
    if !hasMore || items == [] then Ok(Page(items, None, hasMore))
    else match make(items[|items| - 1])
      case Some(next) => Ok(Page(items, Some(next), true))
      case None => Err(NoCursor)
  }

  function ListPage(codec: Codec, lt: Collation, rows: Rows, partition: DocumentPartition,
                    cursor: Option<Text>, limit: int, status: Option<DocumentStatus>): Result<Page, PageError>
    requires IsCollation(lt) && WellKeyed(rows)
  {
    if status.Some? && Hidden(status.value) then Err(InvalidStatus)
    else if limit <= 0 || limit > MAX_PAGE_LIMIT then Err(InvalidLimit)
    else match ResolveCursor(codec, partition, cursor, limit, status)
      case Err(e) => Err(e)
      case Ok(after) =>
        var found := Take(Listing(lt, rows, Selected(lt, rows, partition, status, after)), limit + 1);
        PageOf(CursorMaker(codec, partition, status, limit), found, limit)
  }
}

/** The three stores the SDK drives, as objects that change in place. Any call may raise;
    what a raising call may have done is part of its contract, and `raised` remembers that
    one did. */
module Stores {
  import opened Domain
  import opened Text
  import opened Lifecycle
  import opened ClaimProtocol
  import Like
  import opened Streams

  datatype StoreError = Missing | Conflict | Unavailable

  /** What the three stores hold; without an operation store there are no operations. */
  datatype Contents = Contents(rows: Rows, objects: Objects, operations: Operations)

  // ---- Sizes --------------------------------------------------------------------

  lemma RemovalSize<K, V>(m: map<K, V>, k: K)
    requires k in m
    ensures |m - {k}| == |m| - 1
  {
    assert (m - {k}).Keys == m.Keys - {k};
  }

  lemma OneLess<K, V>(m: map<K, V>, selected: set<K>, rest: set<K>, k: K)
    requires k in rest && rest <= selected
    ensures m - (selected - rest) - {k} == m - (selected - (rest - {k}))
  {
  }

  /** Deletes the selected records one by one, counting them. */
  method RemoveAll<K(==), V>(m: map<K, V>, selected: set<K>) returns (left: map<K, V>, count: nat)
    requires selected <= m.Keys
    ensures left == m - selected && |m| == |left| + count && count == |selected|
  {
    left, count := m, 0;
    var rest := selected;
    while rest != {}
      invariant rest <= selected && left == m - (selected - rest)
      invariant |m| == |left| + count && count + |rest| == |selected|
      decreases |rest|
    {
      var k :| k in rest;
      RemovalSize(left, k);
      OneLess(m, selected, rest, k);
      left := left - {k};
      rest := rest - {k};
      count := count + 1;
    }
  }

  /** How clearing one store ended: with everything removed, with some removals failed, or not at all. */
  datatype Clearing = Cleared(count: nat) | PartlyCleared(count: nat, failures: nat) | NotCleared
  {
    function Count(): nat {
      if NotCleared? then 0 else count
    }
  }

  // ---- Clearing a prefix ----------------------------------------------------------

  /** The keys under a prefix. */
  ghost function Under(objects: Objects, prefix: string): set<string> {
    set k | k in objects && prefix <= k
  }

  /** Nothing outside the prefix is touched, what is left is as it was, the count is exact, and
      without a failure nothing is left under the prefix. */
  ghost predicate PrefixCleared(prefix: string, before: Objects, after: Objects, count: nat, failed: bool) {
    && |before| == |after| + count
    && (forall k :: k in before && !(prefix <= k) ==> k in after)
    && (forall k :: k in after ==> k in before && after[k] == before[k])
    && (!failed ==> Under(after, prefix) == {})
  }

  /** Each key under the prefix, once. */
  ghost predicate Listed(names: seq<string>, objects: Objects, prefix: string) {
    && (forall k :: k in names <==> k in objects && prefix <= k)
    && (forall i, j :: 0 <= i < j < |names| ==> names[i] != names[j])
  }

  /** The listed keys not yet reached. */
  ghost function Ahead(names: seq<string>, i: nat): set<string>
    requires i <= |names|
  {
    set k | k in names[i..]
  }

  /** The first `i` of the listed keys are removed, but for those left because a removal failed. */
  ghost predicate ClearedTo(prefix: string, names: seq<string>, i: nat, before: Objects, after: Objects,
                            left: set<string>, removed: nat)
  {
    && i <= |names| && |before| == |after| + removed
    && (forall j, k :: 0 <= j < k < |names| ==> names[j] != names[k])
    && (forall k :: k in before && !(prefix <= k) ==> k in after)
    && (forall k :: k in after ==> k in before && after[k] == before[k])
    && Under(after, prefix) == left + Ahead(names, i) && left * Ahead(names, i) == {}
  }

  lemma NothingCleared(prefix: string, names: seq<string>, objects: Objects)
    requires Listed(names, objects, prefix)
    ensures ClearedTo(prefix, names, 0, objects, objects, {}, 0)
  {
    assert names[0..] == names;
    assert Ahead(names, 0) == Under(objects, prefix);
  }

  lemma NextName(names: seq<string>, i: nat)
    requires i < |names| && forall j, k :: 0 <= j < k < |names| ==> names[j] != names[k]
    ensures Ahead(names, i) == {names[i]} + Ahead(names, i + 1) && names[i] !in Ahead(names, i + 1)
  {
    assert names[i..] == [names[i]] + names[i + 1..];
  }

  lemma StepsPast(prefix: string, names: seq<string>, i: nat, before: Objects, after: Objects, left: set<string>,
                  removed: nat)
    requires ClearedTo(prefix, names, i, before, after, left, removed) && i < |names|
    ensures ClearedTo(prefix, names, i + 1, before, after, left + {names[i]}, removed)
    ensures |left + {names[i]}| == |left| + 1
  {
    NextName(names, i);
  }

  lemma StepsOver(prefix: string, names: seq<string>, i: nat, before: Objects, after: Objects, left: set<string>,
                  removed: nat)
    requires ClearedTo(prefix, names, i, before, after, left, removed) && i < |names|
    ensures ClearedTo(prefix, names, i + 1, before, after - {names[i]}, left, removed + 1)
  {
    NextName(names, i);
    assert names[i] in Under(after, prefix);
    RemovalSize(after, names[i]);
    RemovalUnder(after, prefix, names[i]);
  }

  lemma RemovalUnder(objects: Objects, prefix: string, key: string)
    ensures Under(objects - {key}, prefix) == Under(objects, prefix) - {key}
  {
  }

  lemma AllStepped(prefix: string, names: seq<string>, before: Objects, after: Objects, left: set<string>, removed: nat)
    requires ClearedTo(prefix, names, |names|, before, after, left, removed)
    ensures PrefixCleared(prefix, before, after, removed, left != {}) && Under(after, prefix) == left
  {
    assert Ahead(names, |names|) == {};
  }

  // ---- Object store -----------------------------------------------------------------

  class ObjectStore {
    var objects: Objects
    ghost var raised: bool

    constructor ()
      ensures objects == map[] && !raised
    {
      objects := map[];
      raised := false;
    }

    method PutObject(key: string, content: seq<Byte>) returns (r: Result<string, StoreError>)
      modifies this
      ensures r.Ok? ==> r.value == key && objects == old(objects)[key := content]
      ensures r.Err? ==> objects == old(objects) || objects == old(objects)[key := content]
      ensures raised == (old(raised) || r.Err?)
    {
      var reply: Reply := *;
      raised := raised || !reply.Answered?;
      if !reply.FailedBefore? { objects := objects[key := content]; }
      r := if reply.Answered? then Ok(key) else Err(Unavailable);
    }

    /** Stores what it reads from the stream, which is the declared size or all there is, in
        chunks of any length; a call that raises may have left anything under the key. */
    method PutObjectStream(key: string, reader: HashingReader, size: nat, chunkSize: nat)
      returns (r: Result<string, StoreError>)
      requires reader.Valid() && reader.hashed == [] && chunkSize > 0
      modifies this, reader, reader.stream
      ensures reader.Valid()
      ensures r.Ok? ==> r.value == key && objects == old(objects)[key := reader.hashed]
      ensures r.Ok? ==> reader.bytesRead == size || reader.stream.rest == []
      ensures r.Err? ==> objects - {key} == old(objects) - {key}
      ensures raised == (old(raised) || r.Err?)
    {
      var untilEnd: bool := *;
      var content: seq<Byte> := [];
      var ended := false;
      while !ended && (untilEnd || |content| < size)
        invariant reader.Valid() && content == reader.hashed && unchanged(this)
        invariant ended ==> reader.stream.rest == []
        invariant !untilEnd ==> |content| <= size
        decreases !ended, |reader.stream.rest|
      {
        var want := if untilEnd || chunkSize <= size - |content| then chunkSize else size - |content|;
        var chunk := reader.Read(want);
        if chunk.None? {
          raised := true;
          return Err(Unavailable);
        }
        content := content + chunk.value;
        ended := chunk.value == [];
      }
      r := PutObject(key, content);
    }

    method DeleteObject(key: string) returns (done: bool)
      modifies this
      ensures done ==> objects == old(objects) - {key}
      ensures !done ==> objects == old(objects) || objects == old(objects) - {key}
      ensures raised == (old(raised) || !done)
    {
      var reply: Reply := *;
      raised := raised || !reply.Answered?;
      if !reply.FailedBefore? { objects := objects - {key}; }
      done := reply.Answered?;
    }

    method ObjectExists(key: string) returns (r: Result<bool, StoreError>)
      modifies this`raised
      ensures r.Ok? ==> r.value == (key in objects)
      ensures raised == (old(raised) || r.Err?)
    {
      var reply: Reply := *;
      raised := raised || !reply.Answered?;
      r := if reply.Answered? then Ok(key in objects) else Err(Unavailable);
    }

    method ListObjects(prefix: string) returns (r: Result<seq<string>, StoreError>)
      modifies this`raised
      ensures raised == (old(raised) || r.Err?)
      ensures r.Ok? ==> Listed(r.value, objects, prefix)
    {
      var reply: Reply := *;
      raised := raised || !reply.Answered?;
      if !reply.Answered? { return Err(Unavailable); }
      var names: seq<string> := [];
      var rest := objects.Keys;
      while rest != {}
        invariant rest <= objects.Keys
        invariant forall k :: k in names <==> k in objects && prefix <= k && k !in rest
        invariant forall i, j :: 0 <= i < j < |names| ==> names[i] != names[j]
        decreases |rest|
      {
        var k :| k in rest;
        rest := rest - {k};
        if prefix <= k { names := names + [k]; }
      }
      r := Ok(names);
    }

    /** Removes every listed object, goes on past removals that fail (and have no effect),
        and counts exactly what went: what is left under the prefix are the failures. */
    method ClearPrefix(prefix: string) returns (r: Clearing)
      modifies this
      ensures PrefixCleared(prefix, old(objects), objects, r.Count(), !r.Cleared?)
      ensures r.NotCleared? ==> objects == old(objects)
      ensures r.PartlyCleared? ==> |Under(objects, prefix)| == r.failures > 0
      ensures raised == (old(raised) || !r.Cleared?)
    {
      var listed := ListObjects(prefix);
      if listed.Err? { return NotCleared; }
      var names := listed.value;
      var removed, failures := 0, 0;
      NothingCleared(prefix, names, objects);
      ghost var before, left: set<string> := objects, {};
      for i := 0 to |names|
        invariant ClearedTo(prefix, names, i, before, objects, left, removed)
        invariant raised == (old(raised) || failures > 0) && |left| == failures
      {
        var fails: bool := *;
        raised := raised || fails;
        if fails {
          StepsPast(prefix, names, i, before, objects, left, removed);
          failures := failures + 1;
          left := left + {names[i]};
        } else {
          StepsOver(prefix, names, i, before, objects, left, removed);
          objects := objects - {names[i]};
          removed := removed + 1;
        }
      }
      AllStepped(prefix, names, before, objects, left, removed);
      r := if failures > 0 then PartlyCleared(removed, failures) else Cleared(removed);
    }
  }

  // ---- Metadata store -----------------------------------------------------------------

  class MetadataStore {
    var rows: Rows
    var lastId: nat
    ghost var raised: bool

    constructor ()
      ensures rows == map[] && lastId == 0 && !raised
    {
      rows := map[];
      lastId := 0;
      raised := false;
    }

    ghost predicate Valid()
      reads this
    {
      WellKeyed(rows)
    }

    method Exists(id: string) returns (r: Result<bool, StoreError>)
      modifies this`raised
      ensures r.Ok? ==> r.value == (id in rows)
      ensures raised == (old(raised) || r.Err?)
    {
      var reply: Reply := *;
      raised := raised || !reply.Answered?;
      r := if reply.Answered? then Ok(id in rows) else Err(Unavailable);
    }

    /** Inserts under a primary key; a save that raises has rolled back. */
    method SaveMetadata(m: DocumentMetadata) returns (r: Result<DocumentMetadata, StoreError>)
      requires Valid()
      modifies this`rows, this`raised
      ensures Valid()
      ensures r.Ok? ==> m.documentId !in old(rows) && r.value == m && rows == old(rows)[m.documentId := m]
      ensures r.Err? ==> rows == old(rows)
      ensures r.Err? ==> r.error == Unavailable || (r.error == Conflict && m.documentId in rows)
      ensures raised == (old(raised) || r == Err(Unavailable))
    {
      var reply: Reply := *;
      raised := raised || !reply.Answered?;
      if !reply.Answered? { return Err(Unavailable); }
      if m.documentId in rows { return Err(Conflict); }
      rows := rows[m.documentId := m];
      r := Ok(m);
    }

    method GetMetadata(id: string, partition: DocumentPartition) returns (r: Result<DocumentMetadata, StoreError>)
      requires Valid()
      modifies this`raised
      ensures Valid()
      ensures r.Ok? ==> Lookup(rows, id, partition) == Some(r.value)
      ensures r.Err? ==> r.error == Unavailable || (r.error == Missing && Lookup(rows, id, partition).None?)
      ensures raised == (old(raised) || r == Err(Unavailable))
    {
      var reply: Reply := *;
      raised := raised || !reply.Answered?;
      if !reply.Answered? { return Err(Unavailable); }
      match Lookup(rows, id, partition)
      case Some(m) => r := Ok(m);
      case None => r := Err(Missing);
    }

    /** Overwrites the whole row found under the id and partition. */
    method UpdateMetadata(m: DocumentMetadata) returns (r: Result<DocumentMetadata, StoreError>)
      requires Valid()
      modifies this`rows, this`raised
      ensures Valid()
      ensures r.Ok? ==>
                Lookup(old(rows), m.documentId, m.partition).Some? && r.value == m && rows == UpdateRow(old(rows), m)
      ensures r.Err? ==> rows == old(rows)
      ensures r.Err? ==> r.error == Unavailable || (r.error == Missing && Lookup(rows, m.documentId, m.partition).None?)
      ensures raised == (old(raised) || r == Err(Unavailable))
    {
      var reply: Reply := *;
      raised := raised || !reply.Answered?;
      if !reply.Answered? { return Err(Unavailable); }
      if Lookup(rows, m.documentId, m.partition).None? { return Err(Missing); }
      rows := UpdateRow(rows, m);
      r := Ok(m);
    }

    /** Reads the row and writes it back as DELETED: two transactions. */
    method MarkDeleted(id: string, partition: DocumentPartition, now: int)
      returns (r: Result<DocumentMetadata, StoreError>)
      requires Valid()
      modifies this`rows, this`raised
      ensures Valid()
      ensures r.Ok? ==> Lookup(old(rows), id, partition).Some? && r.value == WithStatus(old(rows)[id], Deleted, now)
                        && rows == old(rows)[id := r.value]
      ensures r.Ok? ==> r.value == old(rows)[id].(status := Deleted, updatedAt := now, deletedAt := Some(now))
      ensures r.Err? ==> rows == old(rows)
      ensures r.Err? ==> r.error == Unavailable || (r.error == Missing && Lookup(rows, id, partition).None?)
      ensures raised == (old(raised) || r == Err(Unavailable))
    {
      var found := GetMetadata(id, partition);
      if found.Err? { return Err(found.error); }
      r := UpdateMetadata(WithStatus(found.value, Deleted, now));
    }

    method HardDelete(id: string, partition: DocumentPartition) returns (r: Result<(), StoreError>)
      requires Valid()
      modifies this`rows, this`raised
      ensures Valid()
      ensures r.Ok? ==> Lookup(old(rows), id, partition).Some? && rows == old(rows) - {id}
      ensures r.Err? ==> rows == old(rows)
      ensures r.Err? ==> r.error == Unavailable || (r.error == Missing && Lookup(rows, id, partition).None?)
      ensures raised == (old(raised) || r == Err(Unavailable))
    {
      var reply: Reply := *;
      raised := raised || !reply.Answered?;
      if !reply.Answered? { return Err(Unavailable); }
      if Lookup(rows, id, partition).None? { return Err(Missing); }
      rows := rows - {id};
      r := Ok(());
    }

    /** The next sequence value whose decimal text is not yet a document id: every value
        skipped on the way is one. */
    method AllocateDocumentId() returns (r: Result<string, StoreError>)
      modifies this`lastId, this`raised
      ensures r.Ok? ==> old(lastId) < lastId && r.value == Decimal(lastId) && r.value !in rows
      ensures r.Ok? ==> forall n :: old(lastId) < n < lastId ==> Decimal(n) in rows
      ensures r.Err? ==> r.error == Unavailable && lastId == old(lastId)
      ensures raised == (old(raised) || r.Err?)
    {
      var reply: Reply := *;
      raised := raised || !reply.Answered?;
      if !reply.Answered? { return Err(Unavailable); }
      lastId := lastId + 1;
      var id := Decimal(lastId);
      while id in rows
        invariant old(lastId) < lastId && id == Decimal(lastId)
        invariant raised == old(raised)
        invariant forall n :: old(lastId) < n < lastId ==> Decimal(n) in rows
        decreases IdsFrom(rows, lastId)
      {
        IdsFromShrinks(rows, lastId);
        lastId := lastId + 1;
        id := Decimal(lastId);
      }
      r := Ok(id);
    }

    /** Deletes the selected rows in one transaction; a clear that raises has rolled back. */
    method ClearRows(partition: Option<DocumentPartition>) returns (r: Clearing)
      requires Valid()
      modifies this`rows, this`raised
      ensures Valid()
      ensures r.Cleared? || r.NotCleared?
      ensures r.NotCleared? ==> rows == old(rows)
      ensures r.Cleared? ==> rows == old(rows) - RowsOf(old(rows), partition)
      ensures raised == (old(raised) || r.NotCleared?)
      ensures |old(rows)| == |rows| + r.Count()
    {
      var reply: Reply := *;
      raised := raised || !reply.Answered?;
      if !reply.Answered? { return NotCleared; }
      var count;
      rows, count := RemoveAll(rows, RowsOf(rows, partition));
      r := Cleared(count);
    }
  }

  /** The ids that are decimal texts of sequence values from `n` on. */
  ghost function IdsFrom(rows: Rows, n: nat): set<string> {
    set id | id in rows && IsValueFrom(id, n)
  }

  ghost predicate IsValueFrom(id: string, n: nat) {
    exists k: nat :: k >= n && id == Decimal(k)
  }

  lemma IdsFromShrinks(rows: Rows, n: nat)
    requires Decimal(n) in rows
    ensures IdsFrom(rows, n + 1) < IdsFrom(rows, n)
  {
    assert IsValueFrom(Decimal(n), n);
    forall k: nat | k > n ensures Decimal(k) != Decimal(n) {
      DecimalInjective(k, n);
    }
    assert !IsValueFrom(Decimal(n), n + 1);
    assert Decimal(n) in IdsFrom(rows, n) && Decimal(n) !in IdsFrom(rows, n + 1);
  }

  function RowsOf(rows: Rows, partition: Option<DocumentPartition>): set<string> {
    set id | id in rows && (partition.Some? ==> rows[id].partition == partition.value)
  }

  // ---- Upload-operation store ------------------------------------------------------------

  class UploadOperationStore {
    var operations: Operations
    ghost var raised: bool

    constructor ()
      ensures operations == map[] && !raised
    {
      operations := map[];
      raised := false;
    }

    /** Insert, or read and reclaim. The loop re-reads only while the record is gone, which takes
        another client: here it runs once, and `ClaimProtocol` has the re-reading. A claim that
        raises may have been stored. */
    method Claim(key: OperationKey, fingerprint: string, documentId: string)
      returns (r: Result<ClaimResult, ClaimError>)
      modifies this
      ensures r != Err(ClaimUnavailable) ==>
                (operations, r) == ClaimAlone(old(operations), key, fingerprint, documentId)
      ensures operations == old(operations) || operations == ClaimAlone(old(operations), key, fingerprint, documentId).0
      ensures raised == (old(raised) || r == Err(ClaimUnavailable))
    {
      var reply: Reply := *;
      raised := raised || !reply.Answered?;
      if reply.FailedBefore? { return Err(ClaimUnavailable); }
      if key !in operations {
        operations := Insert(operations, key, fingerprint, documentId);
        return if reply.Answered? then Ok(ClaimResult(operations[key], true)) else Err(ClaimUnavailable);
      }
      var answer: Option<Result<ClaimResult, ClaimError>> := None;
      while answer.None?
        invariant answer.None? ==> operations == old(operations) && key in operations
        invariant answer.Some? ==>
                    (operations, answer.value) == ClaimAlone(old(operations), key, fingerprint, documentId)
        invariant raised == (old(raised) || !reply.Answered?)
        decreases answer.None?
      {
        var record := operations[key];
        if record.fingerprint != fingerprint {
          answer := Some(Err(IdempotencyConflict));
        } else if record.state.Failed? {
          operations := Reclaim(operations, key);
          answer := Some(Ok(ClaimResult(record.(state := Pending), true)));
        } else {
          answer := Some(Ok(ClaimResult(record, false)));
        }
      }
      r := if reply.Answered? then answer.value else Err(ClaimUnavailable);
    }

    method Get(key: OperationKey) returns (r: Option<Operation>)
      ensures r == if key in operations then Some(operations[key]) else None
    {
      r := if key in operations then Some(operations[key]) else None;
    }

    /** Guarded on PENDING; a mark that raises may or may not have been stored. */
    method MarkState(key: OperationKey, state: OperationState) returns (done: bool)
      modifies this
      ensures done ==> operations == Mark(old(operations), key, state)
      ensures !done ==> operations == old(operations) || operations == Mark(old(operations), key, state)
      ensures raised == (old(raised) || !done)
    {
      var reply: Reply := *;
      raised := raised || !reply.Answered?;
      if !reply.FailedBefore? { operations := Mark(operations, key, state); }
      done := reply.Answered?;
    }

    /** Deletes the records whose scope is LIKE the pattern, or all of them. */
    method ClearAll(rule: Like.CaseRule, pattern: Option<string>) returns (r: Clearing)
      modifies this
      ensures r.Cleared? || r.NotCleared?
      ensures r.NotCleared? ==> operations == old(operations)
      ensures r.Cleared? ==> operations == old(operations) - OperationsLike(rule, old(operations), pattern)
      ensures raised == (old(raised) || r.NotCleared?)
      ensures |old(operations)| == |operations| + r.Count()
    {
      var reply: Reply := *;
      raised := raised || !reply.Answered?;
      if !reply.Answered? { return NotCleared; }
      var count;
      operations, count := RemoveAll(operations, OperationsLike(rule, operations, pattern));
      r := Cleared(count);
    }
  }

  function OperationsLike(rule: Like.CaseRule, operations: Operations, pattern: Option<string>): set<OperationKey> {
    set k | k in operations && (pattern.Some? ==> Like.Matches(rule, pattern.value, k.scope))
  }
}

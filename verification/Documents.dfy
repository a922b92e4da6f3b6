/** The document service: deleting content and row in order. One call runs here without
    interference; `Lifecycle` interleaves the same steps. */
module Documents {
  import opened Domain
  import opened Namespaces
  import opened Lifecycle
  import opened Stores

  datatype DeleteError = DocumentNotFound | StoreFailure | StorageFailure | Inconsistent

  datatype DeleteResult = DeleteResult(documentId: string, hardDeleted: bool, status: DocumentStatus)

  /** The stores after a deletion of `m` that went all the way. */
  function Gone(s: Stored, m: DocumentMetadata, hard: bool, now: int): Stored {
    Stored(if hard then s.rows - {m.documentId} else s.rows[m.documentId := WithStatus(m, Deleted, now)],
           s.objects - {m.storageKey})
  }

  /** How a deletion may end: not begun, stopped at the object with the row FAILED or still
      DELETING, stopped at the row with the object gone, or done. */
  ghost predicate DeletionEnded(id: string, partition: DocumentPartition, hard: bool, now: int,
                                a: Stored, b: Stored, raised: bool, r: Result<DeleteResult, DeleteError>)
  {
    match Lookup(a.rows, id, partition)
    case None => b == a && (r == Err(DocumentNotFound) || (raised && r == Err(StoreFailure)))
    case Some(m) =>
      var deleting := WithStatus(m, Deleting, now);
      var marked := a.rows[id := deleting];
      || (raised && r == Err(StoreFailure) && b == a)
      || (&& raised && r == Err(StorageFailure)
          && (b.rows == marked || b.rows == a.rows[id := WithStatus(deleting, DocumentStatus.Failed, now)])
          && (b.objects == a.objects || b.objects == a.objects - {m.storageKey}))
      || (raised && r == Err(Inconsistent) && b == Stored(marked, a.objects - {m.storageKey}))
      || (r == Ok(DeleteResult(id, hard, Deleted)) && b == Gone(a, m, hard, now))
  }

  /** Removing the object of one document changes no other row's object. */
  lemma OwnObjectRemoved(g: Setting, rows: Rows, objects: Objects, id: string, other: string)
    requires Sound(g) && RowsInv(g, rows) && StoresAgree(rows, objects)
    requires id in rows && other in rows && other != id
    ensures RowMatchesObject(rows[other], objects - {rows[id].storageKey})
  {
    var m, o := rows[id], rows[other];
    assert WellStored(g, m) && WellStored(g, o) && RowMatchesObject(o, objects);
    StorageKeyInjective(g.h, m.partition, m.documentId, m.originalFilename, o.partition, o.documentId,
                        o.originalFilename);
  }

  /** A status other than AVAILABLE may be written over one row, with or without removing its
      object; DELETED only with. */
  lemma OwnWriteKeeps(g: Setting, rows: Rows, objects: Objects, id: string, m': DocumentMetadata, objects': Objects)
    requires Sound(g) && RowsInv(g, rows) && StoresAgree(rows, objects) && id in rows
    requires SameIdentity(rows[id], m') && !m'.status.Available?
    requires objects' == objects - {rows[id].storageKey} || (objects' == objects && !m'.status.Deleted?)
    ensures RowsInv(g, rows[id := m']) && StoresAgree(rows[id := m'], objects')
  {
    assert WellStored(g, rows[id]);
    forall other | other in rows && other != id ensures RowMatchesObject(rows[other], objects') {
      assert RowMatchesObject(rows[other], objects);
      OwnObjectRemoved(g, rows, objects, id, other);
    }
  }

  lemma OwnRowRemovalKeeps(g: Setting, rows: Rows, objects: Objects, id: string)
    requires Sound(g) && RowsInv(g, rows) && StoresAgree(rows, objects) && id in rows
    ensures RowsInv(g, rows - {id}) && StoresAgree(rows - {id}, objects - {rows[id].storageKey})
  {
    forall other | other in rows - {id} ensures RowMatchesObject(rows[other], objects - {rows[id].storageKey}) {
      OwnObjectRemoved(g, rows, objects, id, other);
    }
    assert forall other :: other in rows - {id} ==> WellStored(g, rows[other]);
  }

  /** However a deletion ends, rows and objects keep agreeing, and no other row is touched. */
  lemma DeletionKeepsAgreement(g: Setting, id: string, partition: DocumentPartition, hard: bool, now: int,
                               a: Stored, b: Stored, raised: bool, r: Result<DeleteResult, DeleteError>)
    requires Sound(g) && RowsInv(g, a.rows) && StoresAgree(a.rows, a.objects)
    requires DeletionEnded(id, partition, hard, now, a, b, raised, r)
    ensures RowsInv(g, b.rows) && StoresAgree(b.rows, b.objects)
    ensures b.rows - {id} == a.rows - {id}
  {
    if Lookup(a.rows, id, partition).Some? && b != a {
      DeletionWrites(id, partition, hard, now, a, b, raised, r);
      if id in b.rows {
        OwnWriteKeeps(g, a.rows, a.objects, id, b.rows[id], b.objects);
      } else {
        OwnRowRemovalKeeps(g, a.rows, a.objects, id);
      }
    }
  }

  /** A deletion that did something wrote its own row, or removed it, and at most its own object. */
  lemma DeletionWrites(id: string, partition: DocumentPartition, hard: bool, now: int,
                       a: Stored, b: Stored, raised: bool, r: Result<DeleteResult, DeleteError>)
    requires WellKeyed(a.rows) && Lookup(a.rows, id, partition).Some? && b != a
    requires DeletionEnded(id, partition, hard, now, a, b, raised, r)
    ensures b.rows - {id} == a.rows - {id}
    ensures if id !in b.rows then b == Stored(a.rows - {id}, a.objects - {a.rows[id].storageKey})
            else
              && b.rows == a.rows[id := b.rows[id]]
              && SameIdentity(a.rows[id], b.rows[id]) && !b.rows[id].status.Available?
              && (b.objects == a.objects - {a.rows[id].storageKey}
                  || (b.objects == a.objects && !b.rows[id].status.Deleted?))
  {
  }

  /** Each ending of a deletion in the fields of the row: what the caller is told, and what the two
      stores then hold. Without a store failure the document is deleted if it is there. */
  lemma DeletionMeans(id: string, partition: DocumentPartition, hard: bool, now: int,
                      a: Stored, b: Stored, raised: bool, r: Result<DeleteResult, DeleteError>)
    requires WellKeyed(a.rows) && DeletionEnded(id, partition, hard, now, a, b, raised, r)
    ensures var there := id in a.rows && a.rows[id].partition == partition;
            && (!raised ==> if there then r.Ok? else r == Err(DocumentNotFound))
            && (r.Ok? ==> there && r.value == DeleteResult(id, hard, Deleted))
            && (r == Err(DocumentNotFound) ==> !there)
            && (!there || r == Err(StoreFailure) ==> b == a)
            && (there && r != Err(StoreFailure) ==>
                  var m := a.rows[id];
                  var left := m.(status := Deleting, updatedAt := now);
                  && (r.Ok? || r == Err(Inconsistent) ==> b.objects == a.objects - {m.storageKey})
                  && (r.Ok? && hard ==> b.rows == a.rows - {id})
                  && (r.Ok? && !hard ==>
                        b.rows == a.rows[id := m.(status := Deleted, updatedAt := now, deletedAt := Some(now))])
                  && (r == Err(Inconsistent) ==> b.rows == a.rows[id := left])
                  && (r == Err(StorageFailure) ==>
                        && (b.rows == a.rows[id := left]
                            || b.rows == a.rows[id := left.(status := DocumentStatus.Failed)])
                        && (b.objects == a.objects || b.objects == a.objects - {m.storageKey}))
                  && (r.Ok? || r == Err(Inconsistent) || r == Err(StorageFailure)))
  {
  }

  class DocumentService {
    const metadataStore: MetadataStore
    const objectStore: ObjectStore

    constructor (metadataStore: MetadataStore, objectStore: ObjectStore)
      ensures this.metadataStore == metadataStore && this.objectStore == objectStore
    {
      this.metadataStore := metadataStore;
      this.objectStore := objectStore;
    }

    ghost function Now(): Stored
      reads metadataStore, objectStore
    {
      Stored(metadataStore.rows, objectStore.objects)
    }

    ghost predicate Raised()
      reads metadataStore, objectStore
    {
      metadataStore.raised || objectStore.raised
    }

    /** Writes the whole row with a new status; any failure is one kind of error. */
    method SetStatus(m: DocumentMetadata, status: DocumentStatus, now: int) returns (r: Option<DocumentMetadata>)
      requires metadataStore.Valid()
      modifies metadataStore`rows, metadataStore`raised
      ensures metadataStore.Valid()
      ensures r.Some? ==>
                r.value == WithStatus(m, status, now)
                    && Lookup(old(metadataStore.rows), m.documentId, m.partition).Some?
                && metadataStore.rows == old(metadataStore.rows)[m.documentId := r.value]
      ensures r.Some? ==>
                r.value == m.(status := status, updatedAt := now,
                              deletedAt := if status == Deleted then Some(now) else m.deletedAt)
      ensures r.None? ==> metadataStore.rows == old(metadataStore.rows)
      ensures r.None? ==> metadataStore.raised || Lookup(old(metadataStore.rows), m.documentId, m.partition).None?
      ensures old(metadataStore.raised) ==> metadataStore.raised
      ensures r.Some? ==> metadataStore.raised == old(metadataStore.raised)
    {
      var updated := metadataStore.UpdateMetadata(WithStatus(m, status, now));
      r := if updated.Ok? then Some(updated.value) else None;
    }

    method SetStatusBestEffort(m: DocumentMetadata, status: DocumentStatus, now: int)
      requires metadataStore.Valid()
      modifies metadataStore`rows, metadataStore`raised
      ensures metadataStore.Valid()
      ensures metadataStore.rows == old(metadataStore.rows)
              || metadataStore.rows == old(metadataStore.rows)[m.documentId := WithStatus(m, status, now)]
      ensures old(metadataStore.raised) ==> metadataStore.raised
    {
      var ignored := SetStatus(m, status, now);
    }

    /** Marks the row DELETING, removes the object, then removes the row or marks it DELETED. */
    method Delete(id: string, hard: bool, partition: DocumentPartition, now: int)
      returns (r: Result<DeleteResult, DeleteError>)
      requires metadataStore.Valid()
      modifies metadataStore`rows, metadataStore`raised, objectStore
      ensures metadataStore.Valid()
      ensures DeletionEnded(id, partition, hard, now, old(Now()), Now(), Raised(), r)
      ensures old(Raised()) ==> Raised()
    {
      var found := metadataStore.GetMetadata(id, partition);
      if found.Err? { return Err(if found.error.Missing? then DocumentNotFound else StoreFailure); }
      var deleting := SetStatus(found.value, Deleting, now);
      if deleting.None? { return Err(StoreFailure); }
      var removed := objectStore.DeleteObject(found.value.storageKey);
      if !removed {
        SetStatusBestEffort(deleting.value, DocumentStatus.Failed, now);
        return Err(StorageFailure);
      }
      if hard {
        var erased := metadataStore.HardDelete(id, partition);
        if erased.Err? { return Err(Inconsistent); }
        return Ok(DeleteResult(id, true, Deleted));
      }
      var marked := metadataStore.MarkDeleted(id, partition, now);
      if marked.Err? { return Err(Inconsistent); }
      r := Ok(DeleteResult(id, false, marked.value.status));
    }
  }
}

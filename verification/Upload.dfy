/** The upload service: storing content and row in order, rolling back, and the idempotent
    upload on top. One upload runs here without interference; `Lifecycle` and
    `ClaimProtocol` interleave the same steps. */
module Upload {
  import opened Domain
  import opened Text
  import opened Namespaces
  import opened Lifecycle
  import opened ClaimProtocol
  import opened Stores
  import opened Streams
  import Fingerprint

  datatype UploadRequest = UploadRequest(
    documentId: Option<string>,
    filename: string,
    contentType: string,
    content: seq<Byte>,
    checksum: Option<string>,
    idempotencyKey: Option<string>,
    idempotencyScope: Option<string>)

  datatype UploadResult = UploadResult(documentId: string, metadata: DocumentMetadata, created: bool)

  datatype UploadError =
    | DuplicateDocument
    | StorageFailure
    | RolledBack
    | CleanupFailed
    | StoreFailure
    | SizeMismatch
    | InvalidIdempotency
    | InProgress
    | FingerprintConflict
    | DocumentNotFound

  /** The digests in use: of partition ids, of content, and of the fingerprint's text. */
  datatype Digests = Digests(ids: Hash, content: Streams.Digest, text: Fingerprint.Digest, lower: Fingerprint.LowerCase)

  /** `value or ...`: the empty string counts as absent. */
  function Given(value: Option<string>): Option<string> {
    if value == Some("") then None else value
  }

  /** The row an upload saves. */
  function RowFor(h: Hash, id: string, partition: DocumentPartition, filename: string, contentType: string,
                  content: seq<Byte>, checksum: string, now: int): DocumentMetadata
  {
    UploadedRow(h, id, partition, Job.Upload(content, filename, contentType, checksum), now)
  }

  function StreamRow(d: Digests, id: string, partition: DocumentPartition, filename: string, contentType: string,
                     read: seq<Byte>, now: int): DocumentMetadata
  {
    RowFor(d.ids, id, partition, filename, contentType, read, d.content(read), now)
  }

  function RequestRow(d: Digests, id: string, partition: DocumentPartition, request: UploadRequest, now: int)
    : DocumentMetadata
  {
    var given := Given(request.checksum);
    var checksum := if given.Some? then given.value else d.content(request.content);
    RowFor(d.ids, id, partition, request.filename, request.contentType, request.content, checksum, now)
  }

  // ---- What an upload leaves, whatever fails --------------------------------------

  /** How one upload of `m` with `content` may end, and what the two stores then hold. */
  ghost predicate UploadEnded(m: DocumentMetadata, content: seq<Byte>, rows: Rows, objects: Objects,
                          rows': Rows, objects': Objects, r: Result<UploadResult, UploadError>)
  {
    match r
    case Ok(u) =>
      && u == UploadResult(m.documentId, m, true) && m.documentId !in rows
      && rows' == rows[m.documentId := m] && objects' == objects[m.storageKey := content]
    case Err(e) =>
      && rows' == rows
      && (e.DuplicateDocument? || e.StoreFailure? || e.StorageFailure? || e.RolledBack? || e.CleanupFailed?
          || e.SizeMismatch?)
      && (e.DuplicateDocument? ==> m.documentId in rows && objects' == objects)
      && (e.StoreFailure? ==> objects' == objects)
      && (e.RolledBack? || e.SizeMismatch? ==> m.documentId !in rows && objects' == objects - {m.storageKey})
      && (e.StorageFailure? || e.CleanupFailed? ==>
            m.documentId !in rows && objects' - {m.storageKey} == objects - {m.storageKey})
  }

  /** How saving the row of an object already put may end; a failed save removes the object. */
  ghost predicate SaveEnded(m: DocumentMetadata, rows: Rows, objects: Objects, rows': Rows, objects': Objects,
                            r: Result<UploadResult, UploadError>)
  {
    match r
    case Ok(u) =>
      && u == UploadResult(m.documentId, m, true) && m.documentId !in rows
      && rows' == rows[m.documentId := m] && objects' == objects
    case Err(e) =>
      && rows' == rows && (e.DuplicateDocument? || e.RolledBack? || e.CleanupFailed?)
      && (e.DuplicateDocument? ==> m.documentId in rows)
      && (e.CleanupFailed? ==> objects' - {m.storageKey} == objects - {m.storageKey})
      && (!e.CleanupFailed? ==> objects' == objects - {m.storageKey})
  }

  lemma PutThenSave(m: DocumentMetadata, content: seq<Byte>, rows: Rows, objects: Objects, rows': Rows,
                    objects': Objects,
                    r: Result<UploadResult, UploadError>)
    requires m.documentId !in rows
    requires SaveEnded(m, rows, objects[m.storageKey := content], rows', objects', r)
    ensures UploadEnded(m, content, rows, objects, rows', objects', r)
  {
    assert objects[m.storageKey := content] - {m.storageKey} == objects - {m.storageKey};
  }

  /** All or nothing: a normal return leaves row and object agreeing; any error but a storage
      failure or a failed cleanup leaves the stores as they were, or no row and no object.
      In every case the agreement of all rows with their objects is kept. */
  lemma UploadKeepsAgreement(g: Setting, id: string, partition: DocumentPartition, filename: string,
                             contentType: string,
                              content: seq<Byte>, checksum: string, now: int, rows: Rows, objects: Objects,
                              rows': Rows, objects': Objects, r: Result<UploadResult, UploadError>)
    requires Sound(g) && RowsInv(g, rows) && StoresAgree(rows, objects)
    requires partition.partitionId in g.partitionIds && SlashFree(id)
    requires UploadEnded(RowFor(g.h, id, partition, filename, contentType, content, checksum, now), content,
                     rows, objects, rows', objects', r)
    ensures RowsInv(g, rows')
    ensures StoresAgree(rows', objects')
    ensures r.Ok? ==> id in rows' && rows'[id].status.Available? && RowMatchesObject(rows'[id], objects')
    ensures r.Err? && !r.error.StorageFailure? && !r.error.CleanupFailed? ==>
              (rows' == rows && objects' == objects)
              || (id !in rows' && StorageKey(g.h, partition, id, filename) !in objects')
  {
    var m := RowFor(g.h, id, partition, filename, contentType, content, checksum, now);
    if id !in rows {
      assert WellStored(g, m);
      assert objects' - {m.storageKey} == objects - {m.storageKey};
      forall other | other in rows ensures RowMatchesObject(rows[other], objects') {
        OthersKeepObject(g, id, partition, filename, rows, objects, objects', other);
      }
    }
  }

  /** What happens under one document's key is nothing to the other rows. */
  lemma OthersKeepObject(g: Setting, id: string, partition: DocumentPartition, filename: string, rows: Rows,
                         objects: Objects, objects': Objects, other: string)
    requires Sound(g) && RowsInv(g, rows) && StoresAgree(rows, objects)
    requires partition.partitionId in g.partitionIds && other in rows && other != id
    requires var key := StorageKey(g.h, partition, id, filename); objects' - {key} == objects - {key}
    ensures RowMatchesObject(rows[other], objects')
  {
    var key, m := StorageKey(g.h, partition, id, filename), rows[other];
    assert WellStored(g, m) && RowMatchesObject(m, objects);
    StorageKeyInjective(g.h, partition, id, filename, m.partition, m.documentId, m.originalFilename);
    assert m.storageKey in objects' <==> m.storageKey in objects' - {key};
    assert m.storageKey in objects <==> m.storageKey in objects - {key};
    assert m.storageKey in objects ==> objects'[m.storageKey] == (objects' - {key})[m.storageKey];
  }

  /** What an upload that puts its object in one call leaves under the key when a call on
      the object store raised. */
  ghost predicate PutWhole(key: string, content: seq<Byte>, objects: Objects, objects': Objects,
                           r: Result<UploadResult, UploadError>)
  {
    && r != Err(UploadError.SizeMismatch)
    && (r == Err(StorageFailure) ==> objects' == objects || objects' == objects[key := content])
    && (r == Err(CleanupFailed) ==> objects' == objects[key := content] || objects' == objects - {key})
  }

  // ---- The idempotent upload ----------------------------------------------------------

  function RequestPayload(d: Digests, partition: DocumentPartition, request: UploadRequest): Payload {
    Payload(d.content(request.content), request.filename, request.contentType, |request.content|, request.documentId,
            partition)
  }

  /** Every record names a document: claims are made with a non-empty id. */
  ghost predicate IdsPresent(operations: Operations) {
    forall k :: k in operations ==> operations[k].documentId != ""
  }

  predicate Keyless(request: UploadRequest) {
    request.idempotencyKey.None?
  }

  /** A key and a scope, neither of them blank. */
  predicate KeyUsable(request: UploadRequest) {
    && request.idempotencyKey.Some? && !Blank(Points(request.idempotencyKey.value))
    && request.idempotencyScope.Some? && !Blank(Points(request.idempotencyScope.value))
  }

  function RequestKey(d: Digests, partition: DocumentPartition, key: string, scope: string): OperationKey {
    OperationKey(OperationScope(d.ids, partition, scope), key)
  }

  function RequestClaim(d: Digests, key: OperationKey, proposedId: string, partition: DocumentPartition,
                        request: UploadRequest, operations: Operations): (Operations, Result<ClaimResult, ClaimError>)
  {
    var fingerprint := Fingerprint.BuildFingerprint(d.text, d.lower, RequestPayload(d, partition, request));
    ClaimAlone(operations, key, fingerprint, proposedId)
  }

  /** How an owner's part may end: it uploads under the claimed id and gives the claim back. A
      mark of success that raises turns a finished upload into an error. */
  ghost predicate OwnerEnded(m: DocumentMetadata, key: OperationKey, content: seq<Byte>, a: Contents, b: Contents,
                             raised: bool, r: Result<UploadResult, UploadError>)
  {
    var failed := Mark(a.operations, key, OperationState.Failed);
    var succeeded := Mark(a.operations, key, Succeeded);
    && (!raised ==> if m.documentId in a.rows then r == Err(DuplicateDocument) else r.Ok?)
    && if r.Ok? then
      UploadEnded(m, content, a.rows, a.objects, b.rows, b.objects, r) && b.operations == succeeded
    else
      || (&& UploadEnded(m, content, a.rows, a.objects, b.rows, b.objects, r)
          && (b.operations == failed || (raised && b.operations == a.operations)))
      || (&& raised && r.error.StoreFailure?
          && UploadEnded(m, content, a.rows, a.objects, b.rows, b.objects, Ok(UploadResult(m.documentId, m, true)))
          && (b.operations == failed || b.operations == a.operations || b.operations == succeeded))
  }

  /** How the SDK answers a request whose key is taken: from the stored row, or not at all. */
  ghost predicate ReplayEnded(record: Operation, partition: DocumentPartition, rows: Rows, raised: bool,
                              r: Result<UploadResult, UploadError>)
  {
    if record.state.Pending? then r == Err(InProgress)
    else
      || (raised && r == Err(StoreFailure))
      || (match Lookup(rows, record.documentId, partition)
          case Some(m) => r == Ok(UploadResult(record.documentId, m, false))
          case None => r == Err(DocumentNotFound))
  }

  /** How an idempotent upload under `key` may end: the claim decides, an owner uploads, and
      everybody else leaves the stores alone. */
  ghost predicate IdempotentEnded(d: Digests, key: OperationKey, proposedId: string, partition: DocumentPartition,
                                  request: UploadRequest, now: int, a: Contents, b: Contents, raised: bool,
                                  r: Result<UploadResult, UploadError>)
  {
    var (claimed, answer) := RequestClaim(d, key, proposedId, partition, request, a.operations);
    || (raised && r == Err(StoreFailure) && (b == a || b == a.(operations := claimed)))
    || (match answer
        case Err(_) => b == a && r == Err(FingerprintConflict)
        case Ok(claim) =>
          if claim.claimed then
            OwnerEnded(RequestRow(d, claim.operation.documentId, partition, request, now), key, request.content,
                       a.(operations := claimed), b, raised, r)
          else b == a && ReplayEnded(claim.operation, partition, a.rows, raised, r))
  }

  /** After a success the record is SUCCEEDED and names the returned document, whose row is there. */
  lemma SuccessIsRecorded(d: Digests, key: OperationKey, proposedId: string, partition: DocumentPartition,
                          request: UploadRequest, now: int, a: Contents, b: Contents, raised: bool,
                          r: Result<UploadResult, UploadError>)
    requires WellKeyed(a.rows) && r.Ok?
    requires IdempotentEnded(d, key, proposedId, partition, request, now, a, b, raised, r)
    ensures key in b.operations && b.operations[key].state.Succeeded?
    ensures b.operations[key].documentId == r.value.documentId
    ensures b.operations[key].fingerprint
            == Fingerprint.BuildFingerprint(d.text, d.lower, RequestPayload(d, partition, request))
    ensures Lookup(b.rows, r.value.documentId, partition) == Some(r.value.metadata)
  {
    var (claimed, answer) := RequestClaim(d, key, proposedId, partition, request, a.operations);
    if answer.Ok? && answer.value.claimed {
      assert claimed[key].state.Pending?;
      assert b.operations == Mark(claimed, key, Succeeded);
    }
  }

  /** Sending the same request again after it succeeded answers with the stored row, creates
      nothing and changes nothing, whatever id is proposed the second time. */
  lemma ReplayIsQuiet(d: Digests, key: OperationKey, firstId: string, secondId: string, partition: DocumentPartition,
                      request: UploadRequest, t: int, u: int, a: Contents, b: Contents, c: Contents,
                      firstRaised: bool, secondRaised: bool,
                      first: Result<UploadResult, UploadError>, second: Result<UploadResult, UploadError>)
    requires WellKeyed(a.rows)
    requires IdempotentEnded(d, key, firstId, partition, request, t, a, b, firstRaised, first) && first.Ok?
    requires IdempotentEnded(d, key, secondId, partition, request, u, b, c, secondRaised, second)
    ensures c == b
    ensures second == Ok(UploadResult(first.value.documentId, first.value.metadata, false))
            || (secondRaised && second == Err(StoreFailure))
  {
    SuccessIsRecorded(d, key, firstId, partition, request, t, a, b, firstRaised, first);
    var (claimed, answer) := RequestClaim(d, key, secondId, partition, request, b.operations);
    assert answer == Ok(ClaimResult(b.operations[key], false));
  }

  /** A request is refused as a different upload exactly when the key's record has another
      fingerprint, and then, also if a store raised on the way, nothing changes. */
  lemma OtherUploadRefused(d: Digests, key: OperationKey, proposedId: string, partition: DocumentPartition,
                           request: UploadRequest, now: int, a: Contents, b: Contents, raised: bool,
                           r: Result<UploadResult, UploadError>)
    requires IdempotentEnded(d, key, proposedId, partition, request, now, a, b, raised, r)
    ensures var other := key in a.operations
                         && a.operations[key].fingerprint
                            != Fingerprint.BuildFingerprint(d.text, d.lower, RequestPayload(d, partition, request));
            && (r == Err(FingerprintConflict) ==> other)
            && (other ==> b == a && (r == Err(FingerprintConflict) || (raised && r == Err(StoreFailure))))
  {
    var (claimed, answer) := RequestClaim(d, key, proposedId, partition, request, a.operations);
  }

  /** Without a store failure the outcome is determined: the claim and the rows decide it. */
  lemma UndisturbedIsDetermined(d: Digests, key: OperationKey, proposedId: string, partition: DocumentPartition,
                                request: UploadRequest, now: int, a: Contents, b: Contents, c: Contents,
                                r: Result<UploadResult, UploadError>, r': Result<UploadResult, UploadError>)
    requires IdempotentEnded(d, key, proposedId, partition, request, now, a, b, false, r)
    requires IdempotentEnded(d, key, proposedId, partition, request, now, a, c, false, r')
    ensures b == c && r == r'
  {
    var (claimed, answer) := RequestClaim(d, key, proposedId, partition, request, a.operations);
    if answer.Ok? && answer.value.claimed {
      OwnerDetermined(RequestRow(d, answer.value.operation.documentId, partition, request, now), key, request.content,
                      a.(operations := claimed), b, c, r, r');
    }
  }

  lemma OwnerDetermined(m: DocumentMetadata, key: OperationKey, content: seq<Byte>, a: Contents, b: Contents,
                        c: Contents,
                        r: Result<UploadResult, UploadError>, r': Result<UploadResult, UploadError>)
    requires OwnerEnded(m, key, content, a, b, false, r) && OwnerEnded(m, key, content, a, c, false, r')
    ensures b == c && r == r'
  {
  }

  /** A key never gets a second document: while its record is there, every attempt uploads
      under the record's document id and no other row changes. */
  lemma KeyKeepsItsId(d: Digests, key: OperationKey, proposedId: string, partition: DocumentPartition,
                      request: UploadRequest, now: int, a: Contents, b: Contents, raised: bool,
                      r: Result<UploadResult, UploadError>)
    requires WellKeyed(a.rows) && key in a.operations
    requires IdempotentEnded(d, key, proposedId, partition, request, now, a, b, raised, r)
    ensures key in b.operations && b.operations[key].documentId == a.operations[key].documentId
    ensures b.operations[key].fingerprint == a.operations[key].fingerprint
    ensures a.operations[key].state.Succeeded? ==> b == a
    ensures r.Ok? ==> r.value.documentId == a.operations[key].documentId
    ensures b.rows - {a.operations[key].documentId} == a.rows - {a.operations[key].documentId}
  {
    var record := a.operations[key];
    var (claimed, answer) := RequestClaim(d, key, proposedId, partition, request, a.operations);
    assert claimed[key].documentId == record.documentId && claimed[key].fingerprint == record.fingerprint;
    if answer.Ok? && answer.value.claimed && !(raised && r == Err(StoreFailure)
                                               && (b == a || b == a.(operations := claimed))) {
      OwnerTouchesItsDocument(RequestRow(d, record.documentId, partition, request, now), key, request.content,
                              a.(operations := claimed), b, raised, r);
    }
  }

  lemma IdsStay(d: Digests, key: OperationKey, proposedId: string, partition: DocumentPartition,
                request: UploadRequest, now: int, a: Contents, b: Contents, raised: bool,
                r: Result<UploadResult, UploadError>)
    requires IdsPresent(a.operations) && proposedId != ""
    requires IdempotentEnded(d, key, proposedId, partition, request, now, a, b, raised, r)
    ensures IdsPresent(b.operations)
  {
    var (claimed, answer) := RequestClaim(d, key, proposedId, partition, request, a.operations);
    assert IdsPresent(claimed);
    assert IdsPresent(Mark(claimed, key, Succeeded)) && IdsPresent(Mark(claimed, key, OperationState.Failed));
  }

  lemma OwnerTouchesItsDocument(m: DocumentMetadata, key: OperationKey, content: seq<Byte>, a: Contents, b: Contents,
                                raised: bool, r: Result<UploadResult, UploadError>)
    requires key in a.operations && OwnerEnded(m, key, content, a, b, raised, r)
    ensures b.rows - {m.documentId} == a.rows - {m.documentId}
    ensures key in b.operations && b.operations[key].(state := Pending) == a.operations[key].(state := Pending)
    ensures r.Ok? ==> r.value.documentId == m.documentId
  {
  }

  class UploadService {
    const metadataStore: MetadataStore
    const objectStore: ObjectStore
    const operationStore: UploadOperationStore?

    constructor (metadataStore: MetadataStore, objectStore: ObjectStore, operationStore: UploadOperationStore?)
      ensures this.metadataStore == metadataStore && this.objectStore == objectStore
      ensures this.operationStore == operationStore
    {
      this.metadataStore := metadataStore;
      this.objectStore := objectStore;
      this.operationStore := operationStore;
    }

    ghost predicate Raised()
      reads metadataStore, objectStore, operationStore
    {
      metadataStore.raised || objectStore.raised || (operationStore != null && operationStore.raised)
    }

    /** The request's id, or an allocated one, if no document has it. */
    method FreeId(documentId: Option<string>) returns (id: string, e: Option<UploadError>)
      modifies metadataStore`lastId, metadataStore`raised
      ensures Given(documentId).Some? ==> id == documentId.value
      ensures e.None? ==> id !in metadataStore.rows
      ensures Given(documentId).None? ==> e != Some(DuplicateDocument)
      ensures e.Some? ==> e.value.StoreFailure? || (e.value.DuplicateDocument? && id in metadataStore.rows)
      ensures metadataStore.raised == (old(metadataStore.raised) || e == Some(StoreFailure))
    {
      if Given(documentId).Some? {
        id := documentId.value;
      } else {
        var drawn := metadataStore.AllocateDocumentId();
        if drawn.Err? { return "", Some(StoreFailure); }
        id := drawn.value;
      }
      var exists_ := metadataStore.Exists(id);
      if exists_.Err? { return id, Some(StoreFailure); }
      e := if exists_.value then Some(DuplicateDocument) else None;
    }

    /** Saves the row of an object already put, or removes the object again. */
    method SaveOrRollBack(m: DocumentMetadata) returns (r: Result<UploadResult, UploadError>)
      requires metadataStore.Valid()
      modifies metadataStore`rows, metadataStore`raised, objectStore
      ensures metadataStore.Valid()
      ensures SaveEnded(m, old(metadataStore.rows), old(objectStore.objects),
                        metadataStore.rows, objectStore.objects, r)
      ensures objectStore.objects == old(objectStore.objects)
              || objectStore.objects == old(objectStore.objects) - {m.storageKey}
      ensures old(metadataStore.raised) ==> metadataStore.raised
      ensures old(objectStore.raised) ==> objectStore.raised
      ensures !metadataStore.raised && !objectStore.raised && m.documentId !in old(metadataStore.rows) ==> r.Ok?
    {
      var saved := metadataStore.SaveMetadata(m);
      if saved.Ok? { return Ok(UploadResult(m.documentId, saved.value, true)); }
      var cleaned := objectStore.DeleteObject(m.storageKey);
      r := Err(if !cleaned then CleanupFailed else if saved.error.Conflict? then DuplicateDocument else RolledBack);
    }

    /** Checks that the id is free, puts the object, saves the row; a failed save removes the
        object again. Without a store failure the upload succeeds exactly when the id is free. */
    method UploadDocument(d: Digests, request: UploadRequest, partition: DocumentPartition, now: int)
      returns (id: string, r: Result<UploadResult, UploadError>)
      requires metadataStore.Valid()
      modifies metadataStore, objectStore
      ensures metadataStore.Valid()
      ensures Given(request.documentId).Some? ==> id == request.documentId.value
      ensures UploadEnded(RequestRow(d, id, partition, request, now), request.content,
                          old(metadataStore.rows), old(objectStore.objects), metadataStore.rows, objectStore.objects, r)
      ensures PutWhole(StorageKey(d.ids, partition, id, request.filename), request.content,
                       old(objectStore.objects), objectStore.objects, r)
      ensures Given(request.documentId).None? ==> r != Err(DuplicateDocument)
      ensures !metadataStore.raised && !objectStore.raised ==>
                (if id in old(metadataStore.rows) then r == Err(DuplicateDocument) else r.Ok?)
      ensures old(metadataStore.raised) ==> metadataStore.raised
      ensures old(objectStore.raised) ==> objectStore.raised
    {
      var e;
      id, e := FreeId(request.documentId);
      if e.Some? { return id, Err(e.value); }
      var m := RequestRow(d, id, partition, request, now);
      var put := objectStore.PutObject(m.storageKey, request.content);
      if put.Err? { return id, Err(StorageFailure); }
      r := SaveOrRollBack(m);
      PutThenSave(m, request.content, old(metadataStore.rows), old(objectStore.objects),
                  metadataStore.rows, objectStore.objects, r);
    }

    /** The same from a stream: the object holds the bytes that were read, and a row is saved
        only if they are as many as declared; otherwise the object is removed again. */
    method UploadDocumentStream(d: Digests, documentId: Option<string>, filename: string, contentType: string,
                                stream: Source, size: nat, chunkSize: nat, partition: DocumentPartition, now: int)
      returns (id: string, r: Result<UploadResult, UploadError>)
      requires metadataStore.Valid() && stream.Valid() && stream.Delivered() == [] && chunkSize > 0
      modifies metadataStore, objectStore, stream
      ensures metadataStore.Valid() && stream.Valid()
      ensures Given(documentId).Some? ==> id == documentId.value
      ensures UploadEnded(StreamRow(d, id, partition, filename, contentType, stream.Delivered(), now),
                          stream.Delivered(),
                          old(metadataStore.rows), old(objectStore.objects), metadataStore.rows, objectStore.objects, r)
      ensures r.Ok? ==> |stream.Delivered()| == size
      ensures r.Err? && r.error.SizeMismatch? ==> |stream.Delivered()| != size
      ensures !metadataStore.raised && !objectStore.raised ==>
                (if id in old(metadataStore.rows) then r == Err(DuplicateDocument)
                 else if |stream.Delivered()| == size then r.Ok?
                 else r == Err(UploadError.SizeMismatch))
    {
      var e;
      id, e := FreeId(documentId);
      if e.Some? { return id, Err(e.value); }
      var key := StorageKey(d.ids, partition, id, filename);
      var tracked := new HashingReader(stream);
      var put := objectStore.PutObjectStream(key, tracked, size, chunkSize);
      if put.Err? { return id, Err(StorageFailure); }
      if tracked.bytesRead != size {
        var removed := objectStore.DeleteObject(put.value);
        return id, Err(if removed then UploadError.SizeMismatch else CleanupFailed);
      }
      var checksum := tracked.HexDigest(d.content);
      var m := RowFor(d.ids, id, partition, filename, contentType, tracked.hashed, checksum, now);
      r := SaveOrRollBack(m);
      PutThenSave(m, tracked.hashed, old(metadataStore.rows), old(objectStore.objects),
                  metadataStore.rows, objectStore.objects, r);
    }

    ghost function Now(): Contents
      reads metadataStore, objectStore, operationStore
    {
      Contents(metadataStore.rows, objectStore.objects,
               if operationStore == null then map[] else operationStore.operations)
    }

    /** The part of the owner of a claim. */
    method UploadClaimed(d: Digests, key: OperationKey, id: string, request: UploadRequest,
                         partition: DocumentPartition, now: int)
      returns (r: Result<UploadResult, UploadError>)
      requires metadataStore.Valid() && operationStore != null && id != ""
      modifies metadataStore, objectStore, operationStore
      ensures metadataStore.Valid()
      ensures OwnerEnded(RequestRow(d, id, partition, request, now), key, request.content, old(Now()), Now(),
                         Raised(), r)
      ensures old(Raised()) ==> Raised()
    {
      var uploadedId, uploaded := UploadDocument(d, request.(documentId := Some(id)), partition, now);
      if uploaded.Ok? {
        var marked := operationStore.MarkState(key, Succeeded);
        if marked { return uploaded; }
        r := Err(StoreFailure);
      } else {
        r := uploaded;
      }
      var abandoned := operationStore.MarkState(key, OperationState.Failed);
    }

    /** An upload under an idempotency key, or a plain one without a key. */
    method IdempotentUpload(d: Digests, request: UploadRequest, partition: DocumentPartition, now: int)
      returns (id: string, r: Result<UploadResult, UploadError>)
      requires metadataStore.Valid()
      requires operationStore != null ==> IdsPresent(operationStore.operations)
      modifies metadataStore, objectStore, operationStore
      ensures metadataStore.Valid()
      ensures operationStore != null ==> IdsPresent(operationStore.operations)
      ensures Keyless(request) ==>
                UploadEnded(RequestRow(d, id, partition, request, now), request.content,
                            old(Now()).rows, old(Now()).objects, Now().rows, Now().objects, r)
                && Now().operations == old(Now()).operations
                && (!Raised() ==> if id in old(Now()).rows then r == Err(DuplicateDocument) else r.Ok?)
      ensures (Keyless(request) || (operationStore != null && KeyUsable(request)))
              && Given(request.documentId).Some? ==>
                id == request.documentId.value
      ensures !Keyless(request) && (operationStore == null || !KeyUsable(request)) ==>
                r == Err(InvalidIdempotency) && Now() == old(Now())
      ensures !Keyless(request) && operationStore != null && KeyUsable(request) ==>
                IdempotentEnded(d, RequestKey(d, partition, request.idempotencyKey.value,
                                              request.idempotencyScope.value),
                                id, partition, request, now, old(Now()), Now(), Raised(), r)
    {
      if request.idempotencyKey.None? {
        id, r := UploadDocument(d, request, partition, now);
        return;
      }
      if operationStore == null || !KeyUsable(request) { return "", Err(InvalidIdempotency); }
      if Given(request.documentId).Some? {
        id := request.documentId.value;
      } else {
        var drawn := metadataStore.AllocateDocumentId();
        if drawn.Err? { return "", Err(StoreFailure); }
        id := drawn.value;
      }
      r := UploadUnderKey(d, request, partition, now, id);
      IdsStay(d, RequestKey(d, partition, request.idempotencyKey.value, request.idempotencyScope.value),
              id, partition, request, now, old(Now()), Now(), Raised(), r);
    }

    method UploadUnderKey(d: Digests, request: UploadRequest, partition: DocumentPartition, now: int, id: string)
      returns (r: Result<UploadResult, UploadError>)
      requires metadataStore.Valid() && operationStore != null && IdsPresent(operationStore.operations) && id != ""
      requires !Keyless(request) && KeyUsable(request)
      modifies metadataStore, objectStore, operationStore
      ensures metadataStore.Valid()
      ensures IdempotentEnded(d, RequestKey(d, partition, request.idempotencyKey.value, request.idempotencyScope.value),
                              id, partition, request, now, old(Now()), Now(), Raised(), r)
      ensures old(Raised()) ==> Raised()
    {
      var key := RequestKey(d, partition, request.idempotencyKey.value, request.idempotencyScope.value);
      var fingerprint := Fingerprint.BuildFingerprint(d.text, d.lower, RequestPayload(d, partition, request));
      var answer := operationStore.Claim(key, fingerprint, id);
      if answer.Err? {
        return Err(if answer.error.IdempotencyConflict? then FingerprintConflict else StoreFailure);
      }
      var record := answer.value.operation;
      if answer.value.claimed {
        r := UploadClaimed(d, key, record.documentId, request, partition, now);
        return;
      }
      r := AnswerFromRecord(record, partition);
    }

    /** The answer to a request whose key is taken. */
    method AnswerFromRecord(record: Operation, partition: DocumentPartition)
      returns (r: Result<UploadResult, UploadError>)
      requires metadataStore.Valid()
      modifies metadataStore`raised
      ensures metadataStore.Valid()
      ensures ReplayEnded(record, partition, metadataStore.rows, metadataStore.raised, r)
      ensures old(metadataStore.raised) ==> metadataStore.raised
    {
      if record.state.Pending? { return Err(InProgress); }
      var found := metadataStore.GetMetadata(record.documentId, partition);
      if found.Err? { return Err(if found.error.Missing? then DocumentNotFound else StoreFailure); }
      r := Ok(UploadResult(found.value.documentId, found.value, false));
    }
  }
}

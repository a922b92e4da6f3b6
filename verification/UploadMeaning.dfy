/** What an upload means in the fields of its request: the row and the object it leaves, which
    requests share a record, and which are refused as a different upload. */
module UploadMeaning {
  import opened Domain
  import opened Text
  import opened Namespaces
  import opened Lifecycle
  import opened ClaimProtocol
  import opened Stores
  import opened Upload
  import Fingerprint
  import FileNames

  // ---- Keys ---------------------------------------------------------------------------

  /** Two keyed requests share a record exactly if partition, scope and key agree. */
  lemma SharedRecord(d: Digests, p: DocumentPartition, key: string, scope: string,
                     q: DocumentPartition, key': string, scope': string)
    requires HexDigests(d.ids) && NoCollision(d.ids, p.partitionId, q.partitionId)
    ensures RequestKey(d, p, key, scope) == RequestKey(d, q, key', scope') <==>
            p == q && scope == scope' && key == key'
  {
    if RequestKey(d, p, key, scope) == RequestKey(d, q, key', scope') {
      ScopePrefixesDisjoint(d.ids, p, q, scope, scope');
    }
  }

  /** The record's scope and key, character by character. */
  lemma RecordNamed(d: Digests, p: DocumentPartition, key: string, scope: string)
    ensures RequestKey(d, p, key, scope).idempotencyKey == key
    ensures RequestKey(d, p, key, scope).scope
            == "partition:" + (if p.kind.Personal? then "personal" else "group") + ":" + d.ids(p.partitionId)
               + ":" + scope
  {
  }

  /** A key is usable exactly if it and its scope are given and hold something but white space. */
  lemma UsableKeys(request: UploadRequest)
    ensures KeyUsable(request) <==>
            && request.idempotencyKey.Some? && !FileNames.White(request.idempotencyKey.value)
            && request.idempotencyScope.Some? && !FileNames.White(request.idempotencyScope.value)
  {
    if request.idempotencyKey.Some? { FileNames.BlankIsWhite(request.idempotencyKey.value); }
    if request.idempotencyScope.Some? { FileNames.BlankIsWhite(request.idempotencyScope.value); }
  }

  // ---- A second request under a key ------------------------------------------------------

  /** The six things two requests under one key have to agree on; the partition is the key's. */
  ghost predicate SameUpload(d: Digests, r: UploadRequest, q: UploadRequest) {
    && d.lower(d.content(r.content)) == d.lower(d.content(q.content))
    && r.filename == q.filename && r.contentType == q.contentType && |r.content| == |q.content|
    && r.documentId == q.documentId
  }

  /** The text whose digest tells the uploads of one partition apart. */
  ghost function TextOf(d: Digests, partition: DocumentPartition, r: UploadRequest): Text {
    Fingerprint.Serialize(d.lower, Payload(d.content(r.content), r.filename, r.contentType, |r.content|, r.documentId,
                                           partition))
  }

  ghost predicate TextsApart(d: Digests, partition: DocumentPartition, r: UploadRequest, q: UploadRequest) {
    d.text(TextOf(d, partition, r)) == d.text(TextOf(d, partition, q)) ==>
      TextOf(d, partition, r) == TextOf(d, partition, q)
  }

  /** After one request has made the record of a key, an undisturbed request under that key is
      refused as a different upload exactly if they differ in content, filename, content type,
      size or document id, whatever has happened in between and whatever became of the first. */
  lemma SecondRequestRefused(d: Digests, key: OperationKey, firstId: string, secondId: string,
                             partition: DocumentPartition, r: UploadRequest, q: UploadRequest, t: int, u: int,
                             a: Contents, b: Contents, c: Contents, e: Contents, raised: bool,
                             first: Result<UploadResult, UploadError>, second: Result<UploadResult, UploadError>)
    requires key !in a.operations && key in b.operations
    requires IdempotentEnded(d, key, firstId, partition, r, t, a, b, raised, first)
    requires key in c.operations && c.operations[key].fingerprint == b.operations[key].fingerprint
    requires IdempotentEnded(d, key, secondId, partition, q, u, c, e, false, second)
    requires TextsApart(d, partition, r, q)
    ensures second == Err(FingerprintConflict) <==> !SameUpload(d, r, q)
  {
    var mine := Payload(d.content(r.content), r.filename, r.contentType, |r.content|, r.documentId, partition);
    var other := Payload(d.content(q.content), q.filename, q.contentType, |q.content|, q.documentId, partition);
    RecordIsOf(d, key, firstId, partition, r, t, a, b, raised, first);
    Fingerprint.FingerprintsAgree(d.text, d.lower, mine, other);
    assert Fingerprint.SameUpload(d.lower, mine, other) <==> SameUpload(d, r, q) by {
      assert mine.(checksum := "") == other.(checksum := "") <==>
             r.filename == q.filename && r.contentType == q.contentType && |r.content| == |q.content|
             && r.documentId == q.documentId;
    }
    ConflictExactly(d, key, secondId, partition, q, u, c, e, second);
  }

  lemma RecordIsOf(d: Digests, key: OperationKey, id: string, partition: DocumentPartition, r: UploadRequest, t: int,
                   a: Contents, b: Contents, raised: bool, first: Result<UploadResult, UploadError>)
    requires key !in a.operations && key in b.operations
    requires IdempotentEnded(d, key, id, partition, r, t, a, b, raised, first)
    ensures b.operations[key].fingerprint == d.text(TextOf(d, partition, r)) && b.operations[key].documentId == id
  {
    var (claimed, answer) := RequestClaim(d, key, id, partition, r, a.operations);
    assert claimed[key].fingerprint == d.text(TextOf(d, partition, r));
  }

  lemma ConflictExactly(d: Digests, key: OperationKey, id: string, partition: DocumentPartition, q: UploadRequest,
                        u: int, c: Contents, e: Contents, second: Result<UploadResult, UploadError>)
    requires key in c.operations && IdempotentEnded(d, key, id, partition, q, u, c, e, false, second)
    ensures second == Err(FingerprintConflict) <==>
            c.operations[key].fingerprint != d.text(TextOf(d, partition, q))
  {
    OtherUploadRefused(d, key, id, partition, q, u, c, e, false, second);
  }

  /** Hence, after a success, an undisturbed request under its key is answered with the row of the
      first or refused, and which of the two the fields decide. */
  lemma SecondRequestAnswered(d: Digests, key: OperationKey, firstId: string, secondId: string,
                              partition: DocumentPartition, r: UploadRequest, q: UploadRequest, t: int, u: int,
                              a: Contents, b: Contents, e: Contents, raised: bool,
                              first: Result<UploadResult, UploadError>, second: Result<UploadResult, UploadError>)
    requires WellKeyed(a.rows) && key !in a.operations && first.Ok?
    requires IdempotentEnded(d, key, firstId, partition, r, t, a, b, raised, first)
    requires IdempotentEnded(d, key, secondId, partition, q, u, b, e, false, second)
    requires TextsApart(d, partition, r, q)
    ensures e == b
    ensures second == if SameUpload(d, r, q)
                      then Ok(UploadResult(first.value.documentId, first.value.metadata, false))
                      else Err(FingerprintConflict)
  {
    SuccessIsRecorded(d, key, firstId, partition, r, t, a, b, raised, first);
    SecondRequestRefused(d, key, firstId, secondId, partition, r, q, t, u, a, b, b, e, raised, first, second);
    OtherUploadRefused(d, key, secondId, partition, q, u, b, e, false, second);
    KeyKeepsItsId(d, key, secondId, partition, q, u, b, e, false, second);
  }

  // ---- The row and the object -----------------------------------------------------------

  /** Where an upload is stored, character by character. */
  lemma KeySpelled(h: Hash, p: DocumentPartition, id: string, filename: string)
    ensures StorageKey(h, p, id, filename)
            == "documents/partitions/" + (if p.kind.Personal? then "personal" else "group") + "/"
               + h(p.partitionId) + "/" + id + "/" + SanitizeFilename(filename)
  {
  }

  /** The row and the object of an upload that succeeded. */
  ghost predicate Saved(h: Hash, id: string, partition: DocumentPartition, filename: string, contentType: string,
                        content: seq<Byte>, checksum: string, now: int, rows: Rows, objects: Objects, rows': Rows,
                        objects': Objects, r: UploadResult)
  {
    var key := "documents/partitions/" + (if partition.kind.Personal? then "personal" else "group") + "/"
               + h(partition.partitionId) + "/" + id + "/" + SanitizeFilename(filename);
    var m := r.metadata;
    && id !in rows && r.documentId == id && r.created
    && m.documentId == id && m.originalFilename == filename && m.contentType == contentType
    && m.fileSize == |content| && m.storageKey == key && m.status.Available?
    && m.createdAt == now && m.updatedAt == now && m.deletedAt.None?
    && m.partition == partition && m.checksum == Some(checksum)
    && rows' == rows[id := m] && objects' == objects[key := content]
  }

  /** A successful upload has saved its request's own fields, under the given checksum or the
      digest of the content if none, or an empty one, was given. */
  lemma UploadSaves(d: Digests, id: string, request: UploadRequest, partition: DocumentPartition, now: int,
                    rows: Rows, objects: Objects, rows': Rows, objects': Objects, r: Result<UploadResult, UploadError>)
    requires r.Ok?
    requires UploadEnded(RequestRow(d, id, partition, request, now), request.content, rows, objects, rows', objects', r)
    ensures var checksum := if request.checksum.None? || request.checksum.value == "" then d.content(request.content)
                            else request.checksum.value;
            Saved(d.ids, id, partition, request.filename, request.contentType, request.content, checksum, now,
                  rows, objects, rows', objects', r.value)
  {
    KeySpelled(d.ids, partition, id, request.filename);
  }

  /** One from a stream has saved the bytes that were read. */
  lemma StreamUploadSaves(d: Digests, id: string, partition: DocumentPartition, filename: string, contentType: string,
                          read: seq<Byte>, now: int, rows: Rows, objects: Objects, rows': Rows, objects': Objects,
                          r: Result<UploadResult, UploadError>)
    requires r.Ok?
    requires UploadEnded(StreamRow(d, id, partition, filename, contentType, read, now), read, rows, objects, rows',
                         objects', r)
    ensures Saved(d.ids, id, partition, filename, contentType, read, d.content(read), now, rows, objects, rows',
                  objects', r.value)
  {
    KeySpelled(d.ids, partition, id, filename);
  }

  /** A plain name is the last part of the object's key as it is. */
  lemma PlainNameStored(d: Digests, id: string, request: UploadRequest, partition: DocumentPartition, now: int,
                        rows: Rows, objects: Objects, rows': Rows, objects': Objects,
                        r: Result<UploadResult, UploadError>)
    requires r.Ok? && FileNames.Trimmed(request.filename) && FileNames.NoTwoDots(request.filename)
    requires '/' !in request.filename && '\\' !in request.filename
    requires UploadEnded(RequestRow(d, id, partition, request, now), request.content, rows, objects, rows', objects', r)
    ensures var key := "documents/partitions/" + (if partition.kind.Personal? then "personal" else "group") + "/"
                       + d.ids(partition.partitionId) + "/" + id + "/" + request.filename;
            key in objects' && objects'[key] == request.content && rows'[id].storageKey == key
  {
    UploadSaves(d, id, request, partition, now, rows, objects, rows', objects', r);
    FileNames.PlainNameKept(request.filename);
  }
}

/** Values shared by every part of the model: statuses, partitions and the
    metadata row, as the SDK's domain models declare them. */
module Domain {

  datatype Option<+T> = None | Some(value: T)

  datatype Result<+T, +E> = Ok(value: T) | Err(error: E)

  type Byte = b: int | 0 <= b < 256

  datatype DocumentStatus = Uploaded | Available | Deleting | Deleted | Failed

  datatype PartitionKind = Personal | Group

  function KindValue(kind: PartitionKind): string {
    match kind
    case Personal => "personal"
    case Group => "group"
  }

  datatype DocumentPartition = DocumentPartition(kind: PartitionKind, partitionId: string)

  datatype DocumentMetadata = DocumentMetadata(
    documentId: string,
    originalFilename: string,
    contentType: string,
    fileSize: nat,
    storageKey: string,
    status: DocumentStatus,
    createdAt: int,
    updatedAt: int,
    partition: DocumentPartition,
    checksum: Option<string>,
    deletedAt: Option<int>)

  /** What no status change may touch: everything but the status and its two timestamps. */
  predicate SameIdentity(a: DocumentMetadata, b: DocumentMetadata) {
    a.(status := b.status, updatedAt := b.updatedAt, deletedAt := b.deletedAt) == b
  }

  /** The metadata table: the document id is its primary key. */
  type Rows = map<string, DocumentMetadata>

  ghost predicate WellKeyed(rows: Rows) {
    forall id :: id in rows ==> rows[id].documentId == id
  }

  /** A select by id, partition kind and partition id. */
  function Lookup(rows: Rows, id: string, partition: DocumentPartition): Option<DocumentMetadata> {
    if id in rows && rows[id].partition == partition then Some(rows[id]) else None
  }

  /** What one call to a store did: it answered, or it raised before or after taking effect. */
  datatype Reply = Answered | FailedBefore | FailedAfter
}

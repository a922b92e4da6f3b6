/** The consistency inspector: what it reports about one document in one partition. */
module Inspection {
  import opened Domain
  import opened Lifecycle

  datatype RecoveryIssue = NoIssue | MetadataMissing | ObjectMissing | DeletionIncomplete | FailedStatus

  datatype DocumentInspection = DocumentInspection(
    documentId: string,
    metadataExists: bool,
    objectExists: Option<bool>,
    status: Option<DocumentStatus>,
    consistent: bool,
    issue: RecoveryIssue,
    storageKey: Option<string>)

  function Verdict(status: DocumentStatus, objectExists: bool): (bool, RecoveryIssue) {
    if status.Deleted? && !objectExists then (true, NoIssue)
    else if !objectExists then (false, ObjectMissing)
    else if status.Deleting? then (false, DeletionIncomplete)
    else if status.Failed? then (false, FailedStatus)
    else (true, NoIssue)
  }

  function Inspect(rows: Rows, objects: Objects, id: string, partition: DocumentPartition): DocumentInspection {
    match Lookup(rows, id, partition)
    case None => DocumentInspection(id, false, None, None, false, MetadataMissing, None)
    case Some(m) =>
      var exists_ := m.storageKey in objects;
      var (consistent, issue) := Verdict(m.status, exists_);
      DocumentInspection(id, true, Some(exists_), Some(m.status), consistent, issue, Some(m.storageKey))
  }

  /** What consistency of a document means: a readable document has its object, a deleted one has none. */
  predicate TrulyConsistent(m: DocumentMetadata, objects: Objects) {
    ((m.status.Available? || m.status.Uploaded?) && m.storageKey in objects)
    || (m.status.Deleted? && m.storageKey !in objects)
  }

  /** The branch chain decides consistency exactly, but for DELETED with the object still there. */
  lemma ChainExactUnless(rows: Rows, objects: Objects, id: string, partition: DocumentPartition)
    requires Lookup(rows, id, partition).Some?
    ensures var m := rows[id];
            (Inspect(rows, objects, id, partition).consistent <==> TrulyConsistent(m, objects))
            <==> !(m.status.Deleted? && m.storageKey in objects)
  {
  }

  /** The report, field by field, for every row and object: what it says of the document, and the
      one issue it names. */
  lemma InspectionMeans(rows: Rows, objects: Objects, id: string, partition: DocumentPartition)
    ensures var seen := Inspect(rows, objects, id, partition);
            var there := id in rows && rows[id].partition == partition;
            && seen.documentId == id && (seen.metadataExists <==> there)
            && (seen.issue == MetadataMissing <==> !there)
            && (seen.consistent <==> seen.issue == NoIssue)
            && (!there ==> seen.status.None? && seen.objectExists.None? && seen.storageKey.None?)
            && (there ==>
                  var m := rows[id];
                  var stored := m.storageKey in objects;
                  && seen.status == Some(m.status) && seen.objectExists == Some(stored)
                  && seen.storageKey == Some(m.storageKey)
                  && (seen.issue == ObjectMissing <==> !stored && m.status != Deleted)
                  && (seen.issue == DeletionIncomplete <==> stored && m.status == Deleting)
                  && (seen.issue == FailedStatus <==> stored && m.status == DocumentStatus.Failed)
                  && (seen.issue == NoIssue <==>
                        (!stored && m.status == Deleted)
                        || (stored && (m.status == Uploaded || m.status == Available || m.status == Deleted))))
  {
  }
}

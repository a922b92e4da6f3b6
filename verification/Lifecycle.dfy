/** Uploads, deletions and recoveries over two stores that share no transaction, as a
    step system: one step is one metadata transaction or one object-store call of one
    process. Any call may raise before or after taking effect, and a process may crash
    between any two of its calls. */
module Lifecycle {
  import opened Domain
  import opened Namespaces

  type Objects = map<string, seq<Byte>>

  /** What a process was asked to do with its document. */
  datatype Job =
    | Upload(content: seq<Byte>, filename: string, contentType: string, checksum: string)
    | Delete(hard: bool)
    | Complete(hard: bool)
    | MarkFailed
    | Purge(storageKey: string)

  datatype Phase =
    // upload: exists, put_object, save_metadata, and the rollback
    | Checking | Putting | Saving | Cleaning
    // delete: get_metadata, set DELETING, delete_object, set FAILED on failure
    | Reading | Marking(m: DocumentMetadata) | Removing(m: DocumentMetadata) | Failing(m: DocumentMetadata)
    // hard_delete, or the two halves of mark_deleted
    | Finishing(m: DocumentMetadata) | Writing(m: DocumentMetadata)
    // recovery: the two reads of the inspection, then the action
    | Inspecting | Probing(m: DocumentMetadata) | FailReading | PurgeProbing | Purging

  datatype Process = Process(documentId: string, partition: DocumentPartition, job: Job, phase: Phase)

  datatype State = State(rows: Rows, objects: Objects, processes: map<nat, Process>)

  /** What the two document stores hold. */
  datatype Stored = Stored(rows: Rows, objects: Objects)

  /** The step system with these contents and no process in it. */
  function Idle(s: Stored): State {
    State(s.rows, s.objects, map[])
  }

  datatype Step =
    | Start(c: nat, documentId: string, partition: DocumentPartition, job: Job)
    | Advance(c: nat, reply: Reply, now: int)
    | Tear(c: nat, left: Option<seq<Byte>>, raised: bool)
    | Crash(c: nat)

  function FirstPhase(job: Job): Phase {
    match job
    case Upload(_, _, _, _) => Checking
    case Delete(_) => Reading
    case _ => Inspecting
  }

  // ---- Row writes ---------------------------------------------------------------

  function WithStatus(m: DocumentMetadata, status: DocumentStatus, now: int): DocumentMetadata {
    m.(status := status, updatedAt := now, deletedAt := if status.Deleted? then Some(now) else m.deletedAt)
  }

  /** `update_metadata`: writes the whole row, if one exists under that id and partition. */
  function UpdateRow(rows: Rows, m: DocumentMetadata): Rows {
    if Lookup(rows, m.documentId, m.partition).Some? then rows[m.documentId := m] else rows
  }

  function RemoveRow(rows: Rows, id: string, partition: DocumentPartition): Rows {
    if Lookup(rows, id, partition).Some? then rows - {id} else rows
  }

  function UploadedRow(h: Hash, id: string, partition: DocumentPartition, job: Job, now: int): DocumentMetadata
    requires job.Upload?
  {
    DocumentMetadata(id, job.filename, job.contentType, |job.content|, StorageKey(h, partition, id, job.filename),
                     Available, now, now, partition, Some(job.checksum), None)
  }

  function InsertRow(rows: Rows, m: DocumentMetadata): Rows {
    if m.documentId in rows then rows else rows[m.documentId := m]
  }

  // ---- One step -------------------------------------------------------------------

  function Goto(s: State, c: nat, phase: Phase): State
    requires c in s.processes
  {
    s.(processes := s.processes[c := s.processes[c].(phase := phase)])
  }

  function Leave(s: State, c: nat): State {
    s.(processes := s.processes - {c})
  }

  function Remove(s: State, key: string): State {
    s.(objects := s.objects - {key})
  }

  function AfterPut(h: Hash, s: State, c: nat, reply: Reply): State
    requires c in s.processes && s.processes[c].phase.Putting? && s.processes[c].job.Upload?
  {
    var p := s.processes[c];
    var put := s.(objects := s.objects[StorageKey(h, p.partition, p.documentId, p.job.filename) := p.job.content]);
    match reply
    case Answered => Goto(put, c, Saving)
    case FailedBefore => Leave(s, c)
    case FailedAfter => Leave(put, c)
  }

  /** A put from a stream that leaves other bytes, or none, under the key: it raises, or its
      count of bytes is not the declared size and the upload goes to its rollback. */
  function AfterTear(h: Hash, s: State, c: nat, left: Option<seq<Byte>>, raised: bool): State
    requires c in s.processes && s.processes[c].job.Upload?
  {
    var p := s.processes[c];
    var key := StorageKey(h, p.partition, p.documentId, p.job.filename);
    var torn := s.(objects := if left.Some? then s.objects[key := left.value] else s.objects - {key});
    if raised then Leave(torn, c) else Goto(torn, c, Cleaning)
  }

  function AfterSave(h: Hash, s: State, c: nat, reply: Reply, now: int): State
    requires c in s.processes && s.processes[c].phase.Saving? && s.processes[c].job.Upload?
  {
    var p := s.processes[c];
    var saved := s.(rows := InsertRow(s.rows, UploadedRow(h, p.documentId, p.partition, p.job, now)));
    match reply
    case Answered => if p.documentId in s.rows then Goto(s, c, Cleaning) else Leave(saved, c)
    case FailedBefore => Goto(s, c, Cleaning)
    case FailedAfter => Goto(saved, c, Cleaning)
  }

  function AfterClean(h: Hash, s: State, c: nat, reply: Reply): State
    requires c in s.processes && s.processes[c].phase.Cleaning? && s.processes[c].job.Upload?
  {
    var p := s.processes[c];
    if reply.FailedBefore? then Leave(s, c)
    else Leave(Remove(s, StorageKey(h, p.partition, p.documentId, p.job.filename)), c)
  }

  /** A status write that the process needs to have answered before it goes on. */
  function AfterMark(s: State, c: nat, reply: Reply, now: int): State
    requires c in s.processes && s.processes[c].phase.Marking?
  {
    var m := WithStatus(s.processes[c].phase.m, Deleting, now);
    var marked := s.(rows := UpdateRow(s.rows, m));
    match reply
    case Answered =>
      if Lookup(s.rows, m.documentId, m.partition).Some? then Goto(marked, c, Removing(m)) else Leave(s, c)
    case FailedBefore => Leave(s, c)
    case FailedAfter => Leave(marked, c)
  }

  function AfterRemove(s: State, c: nat, reply: Reply): State
    requires c in s.processes && s.processes[c].phase.Removing?
  {
    var m := s.processes[c].phase.m;
    match reply
    case Answered => Goto(Remove(s, m.storageKey), c, Finishing(m))
    case FailedBefore => Goto(s, c, Failing(m))
    case FailedAfter => Goto(Remove(s, m.storageKey), c, Failing(m))
  }

  /** The last write of a status: FAILED after a failed removal, DELETED at the end. */
  function AfterWrite(s: State, c: nat, m: DocumentMetadata, status: DocumentStatus, reply: Reply, now: int): State {
    if reply.FailedBefore? then Leave(s, c)
    else Leave(s.(rows := UpdateRow(s.rows, WithStatus(m, status, now))), c)
  }

  function AfterFinish(s: State, c: nat, reply: Reply): State
    requires c in s.processes && s.processes[c].phase.Finishing?
  {
    var p := s.processes[c];
    if (p.job.Delete? || p.job.Complete?) && p.job.hard then
      if reply.FailedBefore? then Leave(s, c)
      else Leave(s.(rows := RemoveRow(s.rows, p.documentId, p.partition)), c)
    else match Lookup(s.rows, p.documentId, p.partition)
      case Some(m) => if reply.Answered? then Goto(s, c, Writing(m)) else Leave(s, c)
      case None => Leave(s, c)
  }

  function AfterInspect(h: Hash, s: State, c: nat, reply: Reply): State
    requires c in s.processes && s.processes[c].phase.Inspecting?
  {
    var p := s.processes[c];
    if !reply.Answered? then Leave(s, c)
    else match Lookup(s.rows, p.documentId, p.partition)
      case Some(m) => if p.job.Purge? then Leave(s, c) else Goto(s, c, Probing(m))
      case None =>
        if p.job.Purge? && DocumentPrefix(h, p.partition, p.documentId) <= p.job.storageKey
        then Goto(s, c, PurgeProbing) else Leave(s, c)
  }

  function AfterProbe(s: State, c: nat, reply: Reply): State
    requires c in s.processes && s.processes[c].phase.Probing?
  {
    var p := s.processes[c];
    var m := p.phase.m;
    if !reply.Answered? || m.storageKey in s.objects then Leave(s, c)
    else match p.job
      case MarkFailed => Goto(s, c, FailReading)
      case Complete(_) => if m.status.Deleting? then Goto(s, c, Finishing(m)) else Leave(s, c)
      case _ => Leave(s, c)
  }

  /** A read of the document's row, after which the process goes on with what it saw. */
  function AfterRead(s: State, c: nat, reply: Reply): State
    requires c in s.processes
  {
    var p := s.processes[c];
    match Lookup(s.rows, p.documentId, p.partition)
    case Some(m) =>
      if !reply.Answered? then Leave(s, c)
      else if p.phase.Reading? then Goto(s, c, Marking(m)) else Goto(s, c, Failing(m))
    case None => Leave(s, c)
  }

  function AfterPurgeProbe(s: State, c: nat, reply: Reply): State
    requires c in s.processes && s.processes[c].job.Purge?
  {
    if reply.Answered? && s.processes[c].job.storageKey in s.objects then Goto(s, c, Purging) else Leave(s, c)
  }

  function AfterPurge(s: State, c: nat, reply: Reply): State
    requires c in s.processes && s.processes[c].job.Purge?
  {
    if reply.FailedBefore? then Leave(s, c) else Leave(Remove(s, s.processes[c].job.storageKey), c)
  }

  /** Which phases a job goes through. */
  predicate Fits(job: Job, phase: Phase) {
    match phase
    case Checking | Putting | Saving | Cleaning => job.Upload?
    case Reading | Marking(_) | Removing(_) => job.Delete?
    case Failing(_) => job.Delete? || job.MarkFailed?
    case Finishing(_) | Writing(_) => job.Delete? || job.Complete?
    case Inspecting => job.Complete? || job.MarkFailed? || job.Purge?
    case Probing(_) => job.Complete? || job.MarkFailed?
    case FailReading => job.MarkFailed?
    case PurgeProbing | Purging => job.Purge?
  }

  function AdvanceProcess(h: Hash, s: State, c: nat, reply: Reply, now: int): State
    requires c in s.processes && Fits(s.processes[c].job, s.processes[c].phase)
  {
    var p := s.processes[c];
    match p.phase
    case Checking => if reply.Answered? && p.documentId !in s.rows then Goto(s, c, Putting) else Leave(s, c)
    case Putting => AfterPut(h, s, c, reply)
    case Saving => AfterSave(h, s, c, reply, now)
    case Cleaning => AfterClean(h, s, c, reply)
    case Reading | FailReading => AfterRead(s, c, reply)
    case Marking(_) => AfterMark(s, c, reply, now)
    case Removing(_) => AfterRemove(s, c, reply)
    case Failing(m) => AfterWrite(s, c, m, DocumentStatus.Failed, reply, now)
    case Finishing(_) => AfterFinish(s, c, reply)
    case Writing(m) => AfterWrite(s, c, m, Deleted, reply, now)
    case Inspecting => AfterInspect(h, s, c, reply)
    case Probing(_) => AfterProbe(s, c, reply)
    case PurgeProbing => AfterPurgeProbe(s, c, reply)
    case Purging => AfterPurge(s, c, reply)
  }

  /** A step that is not enabled changes nothing. */
  function Exec(h: Hash, s: State, step: Step): State {
    match step
    case Start(c, id, partition, job) =>
      if c in s.processes then s
      else s.(processes := s.processes[c := Process(id, partition, job, FirstPhase(job))])
    case Advance(c, reply, now) =>
      if c in s.processes && Fits(s.processes[c].job, s.processes[c].phase)
      then AdvanceProcess(h, s, c, reply, now) else s
    case Tear(c, left, raised) =>
      if c in s.processes && s.processes[c].phase.Putting? && s.processes[c].job.Upload?
      then AfterTear(h, s, c, left, raised) else s
    case Crash(c) => Leave(s, c)
  }

  function Run(h: Hash, s: State, steps: seq<Step>): State
    decreases |steps|
  {
    if steps == [] then s else Run(h, Exec(h, s, steps[0]), steps[1..])
  }

  // ---- Hypotheses on a run -----------------------------------------------------------

  /** The digests in use: shape, and no collision among the partition ids of the run. */
  datatype Setting = Setting(h: Hash, partitionIds: set<string>)

  ghost predicate Sound(g: Setting) {
    HexDigests(g.h) && forall x, y :: x in g.partitionIds && y in g.partitionIds ==> NoCollision(g.h, x, y)
  }

  /** An upload of a document may not overlap any other operation on that document. */
  ghost predicate MayStart(s: State, id: string, job: Job) {
    forall c :: c in s.processes && s.processes[c].documentId == id ==> !job.Upload? && !s.processes[c].job.Upload?
  }

  /** Ids are slash-free, uploads run alone on their id, and a `save_metadata` that raises has not saved. */
  ghost predicate Permitted(g: Setting, s: State, step: Step) {
    match step
    case Start(_, id, partition, job) =>
      SlashFree(id) && partition.partitionId in g.partitionIds && MayStart(s, id, job)
    case Advance(c, reply, _) => c in s.processes && s.processes[c].phase.Saving? ==> !reply.FailedAfter?
    case Tear(_, _, _) => true
    case Crash(_) => true
  }

  ghost predicate AllPermitted(g: Setting, s: State, steps: seq<Step>)
    decreases |steps|
  {
    steps == [] || (Permitted(g, s, steps[0]) && AllPermitted(g, Exec(g.h, s, steps[0]), steps[1..]))
  }

  // ---- The invariant --------------------------------------------------------------------

  predicate WellStored(g: Setting, m: DocumentMetadata) {
    m.partition.partitionId in g.partitionIds && SlashFree(m.documentId)
    && m.storageKey == StorageKey(g.h, m.partition, m.documentId, m.originalFilename)
  }

  ghost predicate RowsInv(g: Setting, rows: Rows) {
    WellKeyed(rows) && forall id :: id in rows ==> WellStored(g, rows[id])
  }

  ghost predicate ProcessesInv(g: Setting, s: State) {
    forall c :: c in s.processes ==>
      var p := s.processes[c];
      Fits(p.job, p.phase) && p.partition.partitionId in g.partitionIds && SlashFree(p.documentId)
  }

  ghost predicate UploadsAlone(s: State) {
    forall c, d :: c in s.processes && d in s.processes && c != d && s.processes[c].job.Upload? ==>
      s.processes[c].documentId != s.processes[d].documentId
  }

  predicate RowMatchesObject(m: DocumentMetadata, objects: Objects) {
    && (m.status.Available? ==> m.storageKey in objects && |objects[m.storageKey]| == m.fileSize)
    && (m.status.Deleted? ==> m.storageKey !in objects)
  }

  /** The two stores agree: AVAILABLE rows have their object, DELETED rows have none. */
  ghost predicate StoresAgree(rows: Rows, objects: Objects) {
    forall id :: id in rows ==> RowMatchesObject(rows[id], objects)
  }

  predicate HoldsSnapshot(phase: Phase) {
    phase.Marking? || phase.Removing? || phase.Failing? || phase.Finishing? || phase.Writing? || phase.Probing?
  }

  /** What a process knows about its own document, whatever the others do meanwhile. */
  ghost predicate Knows(g: Setting, s: State, p: Process) {
    && (p.phase.Putting? || p.phase.Saving? || p.phase.Cleaning? ==> p.documentId !in s.rows)
    && (p.phase.Saving? && p.job.Upload? ==>
          var key := StorageKey(g.h, p.partition, p.documentId, p.job.filename);
          key in s.objects && s.objects[key] == p.job.content)
    && (HoldsSnapshot(p.phase) ==>
          && p.phase.m.documentId == p.documentId && p.phase.m.partition == p.partition && WellStored(g, p.phase.m)
          && (p.documentId in s.rows ==> SameIdentity(s.rows[p.documentId], p.phase.m)))
    && (p.phase.Removing? ==> p.documentId in s.rows ==> !s.rows[p.documentId].status.Available?)
    && (p.phase.Finishing? || p.phase.Writing? ==> p.phase.m.storageKey !in s.objects)
    && ((p.phase.PurgeProbing? || p.phase.Purging?) && p.job.Purge? ==>
          Lookup(s.rows, p.documentId, p.partition).None?
          && DocumentPrefix(g.h, p.partition, p.documentId) <= p.job.storageKey)
  }

  ghost predicate AllKnow(g: Setting, s: State) {
    forall c :: c in s.processes ==> Knows(g, s, s.processes[c])
  }

  ghost predicate Inv(g: Setting, s: State) {
    RowsInv(g, s.rows) && ProcessesInv(g, s) && UploadsAlone(s) && StoresAgree(s.rows, s.objects) && AllKnow(g, s)
  }
}

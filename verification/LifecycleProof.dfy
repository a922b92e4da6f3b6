/** Every permitted step keeps the lifecycle invariant. Each lemma is about one kind of
    effect on the stores; `StepKeeps` puts them together and `RunKeeps` is the induction. */
module LifecycleProof {
  import opened Domain
  import opened Namespaces
  import opened Lifecycle

  lemma LeaveKeeps(g: Setting, s: State, c: nat)
    requires Inv(g, s)
    ensures Inv(g, Leave(s, c))
  {
  }

  /** A move that changes no store, to a phase whose knowledge already holds. */
  lemma GotoKeeps(g: Setting, s: State, c: nat, phase: Phase)
    requires Inv(g, s) && c in s.processes && Fits(s.processes[c].job, phase)
    requires Knows(g, s, s.processes[c].(phase := phase))
    ensures Inv(g, Goto(s, c, phase))
  {
    var s' := Goto(s, c, phase);
    forall d | d in s'.processes ensures Knows(g, s', s'.processes[d]) {
      assert d == c || Knows(g, s, s.processes[d]);
    }
  }

  /** Overwriting a row by the same row under another status, never AVAILABLE. */
  lemma StatusWriteKeeps(g: Setting, s: State, m: DocumentMetadata)
    requires Inv(g, s) && m.documentId in s.rows && SameIdentity(s.rows[m.documentId], m)
    requires !m.status.Available? && (m.status.Deleted? ==> m.storageKey !in s.objects)
    ensures Inv(g, s.(rows := s.rows[m.documentId := m]))
  {
    var s' := s.(rows := s.rows[m.documentId := m]);
    forall d | d in s'.processes ensures Knows(g, s', s'.processes[d]) {
      StatusWriteKnown(g, s, m, s.processes[d]);
    }
    assert forall id :: id in s.rows ==> WellStored(g, s.rows[id]) && RowMatchesObject(s.rows[id], s.objects);
  }

  lemma StatusWriteKnown(g: Setting, s: State, m: DocumentMetadata, p: Process)
    requires Knows(g, s, p) && m.documentId in s.rows && SameIdentity(s.rows[m.documentId], m) && !m.status.Available?
    ensures Knows(g, s.(rows := s.rows[m.documentId := m]), p)
  {
  }

  lemma RowRemovalKeeps(g: Setting, s: State, id: string)
    requires Inv(g, s)
    ensures Inv(g, s.(rows := s.rows - {id}))
  {
    var s' := s.(rows := s.rows - {id});
    forall d | d in s'.processes ensures Knows(g, s', s'.processes[d]) {
      assert Knows(g, s, s.processes[d]);
    }
  }

  lemma RowInsertKeeps(g: Setting, s: State, m: DocumentMetadata)
    requires Inv(g, s) && m.documentId !in s.rows && WellStored(g, m) && RowMatchesObject(m, s.objects)
    requires forall d :: d in s.processes ==> s.processes[d].documentId != m.documentId
    ensures Inv(g, s.(rows := s.rows[m.documentId := m]))
  {
    var s' := s.(rows := s.rows[m.documentId := m]);
    forall d | d in s'.processes ensures Knows(g, s', s'.processes[d]) {
      RowInsertKnown(g, s, m, s.processes[d]);
    }
    assert forall id :: id in s.rows ==> WellStored(g, s.rows[id]) && RowMatchesObject(s.rows[id], s.objects);
  }

  lemma RowInsertKnown(g: Setting, s: State, m: DocumentMetadata, p: Process)
    requires Knows(g, s, p) && p.documentId != m.documentId
    ensures Knows(g, s.(rows := s.rows[m.documentId := m]), p)
  {
  }

  function UploadKey(g: Setting, p: Process): string
    requires p.job.Upload?
  {
    StorageKey(g.h, p.partition, p.documentId, p.job.filename)
  }

  /** Removing an object that no AVAILABLE row and no upload about to save relies on. */
  lemma ObjectRemovalKeeps(g: Setting, s: State, key: string)
    requires Inv(g, s)
    requires forall id :: id in s.rows && s.rows[id].status.Available? ==> s.rows[id].storageKey != key
    requires forall d :: d in s.processes && s.processes[d].phase.Saving? && s.processes[d].job.Upload? ==>
               UploadKey(g, s.processes[d]) != key
    ensures Inv(g, Remove(s, key))
  {
    var s' := Remove(s, key);
    forall d | d in s'.processes ensures Knows(g, s', s'.processes[d]) {
      assert Knows(g, s, s.processes[d]);
    }
    forall id | id in s.rows ensures RowMatchesObject(s.rows[id], s'.objects) {
      assert RowMatchesObject(s.rows[id], s.objects);
    }
  }

  /** Putting an object under a key that belongs to nobody else. */
  lemma ObjectPutKeeps(g: Setting, s: State, c: nat, key: string, content: seq<Byte>)
    requires Inv(g, s) && c in s.processes && s.processes[c].phase.Putting?
    requires forall id :: id in s.rows ==> s.rows[id].storageKey != key
    requires forall d :: d in s.processes && HoldsSnapshot(s.processes[d].phase) ==>
               s.processes[d].phase.m.storageKey != key
    requires forall d :: d in s.processes && s.processes[d].phase.Saving? && s.processes[d].job.Upload? ==>
               UploadKey(g, s.processes[d]) != key
    ensures Inv(g, s.(objects := s.objects[key := content]))
  {
    var s' := s.(objects := s.objects[key := content]);
    forall d | d in s'.processes ensures Knows(g, s', s'.processes[d]) {
      assert Knows(g, s, s.processes[d]);
    }
    forall id | id in s.rows ensures RowMatchesObject(s.rows[id], s'.objects) {
      assert RowMatchesObject(s.rows[id], s.objects);
    }
  }

  // ---- Keys of different documents differ ------------------------------------------

  lemma KeysDiffer(g: Setting, m: DocumentMetadata, p: Process)
    requires Sound(g) && WellStored(g, m) && p.partition.partitionId in g.partitionIds && p.job.Upload?
    requires m.documentId != p.documentId
    ensures m.storageKey != UploadKey(g, p)
  {
    StorageKeyInjective(g.h, m.partition, m.documentId, m.originalFilename, p.partition, p.documentId, p.job.filename);
  }

  lemma UploadKeysDiffer(g: Setting, p: Process, q: Process)
    requires Sound(g) && p.job.Upload? && q.job.Upload? && p.documentId != q.documentId
    requires p.partition.partitionId in g.partitionIds && q.partition.partitionId in g.partitionIds
    ensures UploadKey(g, p) != UploadKey(g, q)
  {
    StorageKeyInjective(g.h, p.partition, p.documentId, p.job.filename, q.partition, q.documentId, q.job.filename);
  }

  /** An upload whose id has no row shares its key with no row, no snapshot and no other upload. */
  lemma UploadKeyIsPrivate(g: Setting, s: State, c: nat)
    requires Sound(g) && Inv(g, s) && c in s.processes && s.processes[c].job.Upload?
    requires s.processes[c].documentId !in s.rows
    ensures var key := UploadKey(g, s.processes[c]);
            && (forall id :: id in s.rows ==> s.rows[id].storageKey != key)
            && (forall d :: d in s.processes && HoldsSnapshot(s.processes[d].phase) ==>
                  s.processes[d].phase.m.storageKey != key)
            && (forall d :: d in s.processes && d != c && s.processes[d].job.Upload? ==>
                  UploadKey(g, s.processes[d]) != key)
  {
    var p := s.processes[c];
    forall id | id in s.rows ensures s.rows[id].storageKey != UploadKey(g, p) {
      KeysDiffer(g, s.rows[id], p);
    }
    forall d | d in s.processes && HoldsSnapshot(s.processes[d].phase)
      ensures s.processes[d].phase.m.storageKey != UploadKey(g, p)
    {
      assert Knows(g, s, s.processes[d]);
      KeysDiffer(g, s.processes[d].phase.m, p);
    }
    forall d | d in s.processes && d != c && s.processes[d].job.Upload?
      ensures UploadKey(g, s.processes[d]) != UploadKey(g, p)
    {
      UploadKeysDiffer(g, s.processes[d], p);
    }
  }

  /** A deletion's key can only be that of its own document's row. */
  lemma SnapshotKeyIsPrivate(g: Setting, s: State, c: nat)
    requires Sound(g) && Inv(g, s) && c in s.processes && HoldsSnapshot(s.processes[c].phase)
    requires !s.processes[c].job.Upload?
    ensures var m := s.processes[c].phase.m;
            && (forall id :: id in s.rows && id != m.documentId ==> s.rows[id].storageKey != m.storageKey)
            && (forall d :: d in s.processes && s.processes[d].job.Upload? ==>
                UploadKey(g, s.processes[d]) != m.storageKey)
  {
    assert Knows(g, s, s.processes[c]);
    var m := s.processes[c].phase.m;
    forall id | id in s.rows && id != m.documentId ensures s.rows[id].storageKey != m.storageKey {
      var r := s.rows[id];
      StorageKeyInjective(g.h, r.partition, r.documentId, r.originalFilename, m.partition, m.documentId,
                          m.originalFilename);
    }
    forall d | d in s.processes && s.processes[d].job.Upload? ensures UploadKey(g, s.processes[d]) != m.storageKey {
      KeysDiffer(g, m, s.processes[d]);
    }
  }

  /** An orphan purge reaches neither a row's object nor an upload's. */
  lemma PurgeKeyIsPrivate(g: Setting, s: State, c: nat)
    requires Sound(g) && Inv(g, s) && c in s.processes && s.processes[c].phase.Purging? && s.processes[c].job.Purge?
    ensures var key := s.processes[c].job.storageKey;
            && (forall id :: id in s.rows ==> s.rows[id].storageKey != key)
            && (forall d :: d in s.processes && s.processes[d].job.Upload? ==> UploadKey(g, s.processes[d]) != key)
  {
    var p := s.processes[c];
    assert Knows(g, s, p);
    forall id | id in s.rows ensures s.rows[id].storageKey != p.job.storageKey {
      SlashFreePurgeIsPrivate(g.h, p.partition, p.documentId, s.rows[id].partition, id, s.rows[id].originalFilename);
    }
    forall d | d in s.processes && s.processes[d].job.Upload? ensures UploadKey(g, s.processes[d]) != p.job.storageKey {
      var q := s.processes[d];
      SlashFreePurgeIsPrivate(g.h, p.partition, p.documentId, q.partition, q.documentId, q.job.filename);
    }
  }

  // ---- The steps ------------------------------------------------------------------

  lemma PutKeeps(g: Setting, s: State, c: nat, reply: Reply)
    requires Sound(g) && Inv(g, s) && c in s.processes && s.processes[c].phase.Putting? && s.processes[c].job.Upload?
    ensures Inv(g, AfterPut(g.h, s, c, reply))
  {
    var p := s.processes[c];
    assert Knows(g, s, p);
    UploadKeyIsPrivate(g, s, c);
    ObjectPutKeeps(g, s, c, UploadKey(g, p), p.job.content);
    var put := s.(objects := s.objects[UploadKey(g, p) := p.job.content]);
    GotoKeeps(g, put, c, Saving);
    LeaveKeeps(g, put, c);
    LeaveKeeps(g, s, c);
  }

  lemma TearKeeps(g: Setting, s: State, c: nat, left: Option<seq<Byte>>, raised: bool)
    requires Sound(g) && Inv(g, s) && c in s.processes && s.processes[c].phase.Putting? && s.processes[c].job.Upload?
    ensures Inv(g, AfterTear(g.h, s, c, left, raised))
  {
    var p := s.processes[c];
    var key := UploadKey(g, p);
    assert Knows(g, s, p);
    UploadKeyIsPrivate(g, s, c);
    if left.Some? { ObjectPutKeeps(g, s, c, key, left.value); } else { ObjectRemovalKeeps(g, s, key); }
    var torn := s.(objects := if left.Some? then s.objects[key := left.value] else s.objects - {key});
    GotoKeeps(g, torn, c, Cleaning);
    LeaveKeeps(g, torn, c);
  }

  lemma SaveKeeps(g: Setting, s: State, c: nat, reply: Reply, now: int)
    requires Sound(g) && Inv(g, s) && c in s.processes && s.processes[c].phase.Saving? && s.processes[c].job.Upload?
    requires !reply.FailedAfter?
    ensures Inv(g, AfterSave(g.h, s, c, reply, now))
  {
    var p := s.processes[c];
    assert Knows(g, s, p);
    GotoKeeps(g, s, c, Cleaning);
    LeaveKeeps(g, s, c);
    var row := UploadedRow(g.h, p.documentId, p.partition, p.job, now);
    RowInsertKeeps(g, Leave(s, c), row);
    assert Leave(s.(rows := InsertRow(s.rows, row)), c) == Leave(s, c).(rows := s.rows[p.documentId := row]);
  }

  lemma CleanKeeps(g: Setting, s: State, c: nat, reply: Reply)
    requires Sound(g) && Inv(g, s) && c in s.processes && s.processes[c].phase.Cleaning? && s.processes[c].job.Upload?
    ensures Inv(g, AfterClean(g.h, s, c, reply))
  {
    var p := s.processes[c];
    assert Knows(g, s, p);
    UploadKeyIsPrivate(g, s, c);
    ObjectRemovalKeeps(g, s, UploadKey(g, p));
    LeaveKeeps(g, s, c);
    LeaveKeeps(g, Remove(s, UploadKey(g, p)), c);
  }

  lemma MarkKeeps(g: Setting, s: State, c: nat, reply: Reply, now: int)
    requires Inv(g, s) && c in s.processes && s.processes[c].phase.Marking? && s.processes[c].job.Delete?
    ensures Inv(g, AfterMark(s, c, reply, now))
  {
    assert Knows(g, s, s.processes[c]);
    var m := WithStatus(s.processes[c].phase.m, Deleting, now);
    LeaveKeeps(g, s, c);
    if Lookup(s.rows, m.documentId, m.partition).Some? {
      StatusWriteKeeps(g, s, m);
      var marked := s.(rows := s.rows[m.documentId := m]);
      GotoKeeps(g, marked, c, Removing(m));
      LeaveKeeps(g, marked, c);
    }
  }

  lemma RemoveKeeps(g: Setting, s: State, c: nat, reply: Reply)
    requires Sound(g) && Inv(g, s) && c in s.processes && s.processes[c].phase.Removing? && s.processes[c].job.Delete?
    ensures Inv(g, AfterRemove(s, c, reply))
  {
    assert Knows(g, s, s.processes[c]);
    var m := s.processes[c].phase.m;
    SnapshotKeyIsPrivate(g, s, c);
    ObjectRemovalKeeps(g, s, m.storageKey);
    GotoKeeps(g, s, c, Failing(m));
    GotoKeeps(g, Remove(s, m.storageKey), c, Failing(m));
    GotoKeeps(g, Remove(s, m.storageKey), c, Finishing(m));
  }

  lemma WriteKeeps(g: Setting, s: State, c: nat, status: DocumentStatus, reply: Reply, now: int)
    requires Inv(g, s) && c in s.processes
    requires (s.processes[c].phase.Failing? && status == DocumentStatus.Failed)
             || (s.processes[c].phase.Writing? && status == Deleted)
    ensures Inv(g, AfterWrite(s, c, s.processes[c].phase.m, status, reply, now))
  {
    assert Knows(g, s, s.processes[c]);
    var m := WithStatus(s.processes[c].phase.m, status, now);
    LeaveKeeps(g, s, c);
    if Lookup(s.rows, m.documentId, m.partition).Some? {
      StatusWriteKeeps(g, s, m);
      LeaveKeeps(g, s.(rows := s.rows[m.documentId := m]), c);
    }
  }

  lemma FinishKeeps(g: Setting, s: State, c: nat, reply: Reply)
    requires Inv(g, s) && c in s.processes && s.processes[c].phase.Finishing?
    ensures Inv(g, AfterFinish(s, c, reply))
  {
    var p := s.processes[c];
    assert Knows(g, s, p);
    LeaveKeeps(g, s, c);
    RowRemovalKeeps(g, s, p.documentId);
    LeaveKeeps(g, s.(rows := s.rows - {p.documentId}), c);
    match Lookup(s.rows, p.documentId, p.partition)
    case Some(m) => GotoKeeps(g, s, c, Writing(m));
    case None =>
  }

  /** Steps that change no store. */
  lemma ReadsKeep(g: Setting, s: State, c: nat, reply: Reply)
    requires Inv(g, s) && c in s.processes && Fits(s.processes[c].job, s.processes[c].phase)
    ensures s.processes[c].phase.Reading? || s.processes[c].phase.FailReading? ==> Inv(g, AfterRead(s, c, reply))
    ensures s.processes[c].phase.PurgeProbing? ==> Inv(g, AfterPurgeProbe(s, c, reply))
    ensures s.processes[c].phase.Checking? && s.processes[c].documentId !in s.rows ==> Inv(g, Goto(s, c, Putting))
  {
    var p := s.processes[c];
    assert Knows(g, s, p);
    LeaveKeeps(g, s, c);
    if p.phase.PurgeProbing? { GotoKeeps(g, s, c, Purging); }
    if p.phase.Checking? && p.documentId !in s.rows { GotoKeeps(g, s, c, Putting); }
    match Lookup(s.rows, p.documentId, p.partition)
    case Some(m) =>
      if p.phase.Reading? { GotoKeeps(g, s, c, Marking(m)); }
      if p.phase.FailReading? { GotoKeeps(g, s, c, Failing(m)); }
    case None =>
  }

  lemma InspectKeeps(g: Setting, s: State, c: nat, reply: Reply)
    requires Inv(g, s) && c in s.processes && Fits(s.processes[c].job, s.processes[c].phase)
    requires s.processes[c].phase.Inspecting?
    ensures Inv(g, AfterInspect(g.h, s, c, reply))
  {
    var p := s.processes[c];
    assert Knows(g, s, p);
    LeaveKeeps(g, s, c);
    match Lookup(s.rows, p.documentId, p.partition)
    case Some(m) =>
      if !p.job.Purge? { GotoKeeps(g, s, c, Probing(m)); }
    case None =>
      if p.job.Purge? && DocumentPrefix(g.h, p.partition, p.documentId) <= p.job.storageKey {
        GotoKeeps(g, s, c, PurgeProbing);
      }
  }

  lemma ProbeKeeps(g: Setting, s: State, c: nat, reply: Reply)
    requires Inv(g, s) && c in s.processes && s.processes[c].phase.Probing?
    ensures Inv(g, AfterProbe(s, c, reply))
  {
    var p := s.processes[c];
    assert Knows(g, s, p);
    LeaveKeeps(g, s, c);
    if p.job.MarkFailed? { GotoKeeps(g, s, c, FailReading); }
    if p.job.Complete? && p.phase.m.storageKey !in s.objects { GotoKeeps(g, s, c, Finishing(p.phase.m)); }
  }

  lemma PurgeKeeps(g: Setting, s: State, c: nat, reply: Reply)
    requires Sound(g) && Inv(g, s) && c in s.processes && s.processes[c].phase.Purging? && s.processes[c].job.Purge?
    ensures Inv(g, AfterPurge(s, c, reply))
  {
    PurgeKeyIsPrivate(g, s, c);
    LeaveKeeps(g, s, c);
    ObjectRemovalKeeps(g, s, s.processes[c].job.storageKey);
    LeaveKeeps(g, Remove(s, s.processes[c].job.storageKey), c);
  }

  lemma StartKeeps(g: Setting, s: State, c: nat, id: string, partition: DocumentPartition, job: Job)
    requires Inv(g, s) && c !in s.processes && Permitted(g, s, Start(c, id, partition, job))
    ensures Inv(g, Exec(g.h, s, Start(c, id, partition, job)))
  {
    var s' := Exec(g.h, s, Start(c, id, partition, job));
    forall d | d in s'.processes ensures Knows(g, s', s'.processes[d]) {
      assert d == c || Knows(g, s, s.processes[d]);
    }
  }

  lemma StepKeeps(g: Setting, s: State, step: Step)
    requires Sound(g) && Inv(g, s) && Permitted(g, s, step)
    ensures Inv(g, Exec(g.h, s, step))
  {
    match step
    case Start(c, id, partition, job) => if c !in s.processes { StartKeeps(g, s, c, id, partition, job); }
    case Crash(c) => LeaveKeeps(g, s, c);
    case Tear(c, left, raised) =>
      if c in s.processes && s.processes[c].phase.Putting? && s.processes[c].job.Upload? {
        TearKeeps(g, s, c, left, raised);
      }
    case Advance(c, reply, now) =>
      if c in s.processes {
        match s.processes[c].phase
        case Checking => ReadsKeep(g, s, c, reply); LeaveKeeps(g, s, c);
        case Putting => PutKeeps(g, s, c, reply);
        case Saving => SaveKeeps(g, s, c, reply, now);
        case Cleaning => CleanKeeps(g, s, c, reply);
        case Marking(_) => MarkKeeps(g, s, c, reply, now);
        case Removing(_) => RemoveKeeps(g, s, c, reply);
        case Failing(_) => WriteKeeps(g, s, c, DocumentStatus.Failed, reply, now);
        case Finishing(_) => FinishKeeps(g, s, c, reply);
        case Writing(_) => WriteKeeps(g, s, c, Deleted, reply, now);
        case Inspecting => InspectKeeps(g, s, c, reply);
        case Probing(_) => ProbeKeeps(g, s, c, reply);
        case Purging => PurgeKeeps(g, s, c, reply);
        case _ => ReadsKeep(g, s, c, reply);
      }
  }

  lemma {:induction false} RunKeeps(g: Setting, s: State, steps: seq<Step>)
    requires Sound(g) && Inv(g, s) && AllPermitted(g, s, steps)
    ensures Inv(g, Run(g.h, s, steps))
    decreases |steps|
  {
    if steps != [] {
      StepKeeps(g, s, steps[0]);
      RunKeeps(g, Exec(g.h, s, steps[0]), steps[1..]);
    }
  }
}

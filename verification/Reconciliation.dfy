/** Recovery of single documents and of batches. A call runs here without interference;
    `Lifecycle` interleaves the same steps. */
module Reconciliation {
  import opened Domain
  import opened Text
  import opened Namespaces
  import opened Lifecycle
  import opened LifecycleTheorems
  import opened Inspection
  import opened Runs
  import opened Documents
  import FileNames

  datatype RecoveryAction = CompleteSoft | CompleteHard | MarkAsFailed | PurgeOrphan

  datatype RecoveryError = ValidationError | NotFoundError | StoreError

  datatype ReconciliationResult = ReconciliationResult(
    documentId: string,
    action: RecoveryAction,
    applied: bool,
    inspection: Option<DocumentInspection>,
    error: Option<RecoveryError>)

  // ---- One recovery, undisturbed ----------------------------------------------------

  /** What an action demands of the document, in the order the errors are raised. */
  function Refusal(h: Hash, s: Stored, id: string, action: RecoveryAction, storageKey: Option<string>,
                   partition: DocumentPartition): Option<RecoveryError>
  {
    var seen := Inspect(s.rows, s.objects, id, partition);
    if action.PurgeOrphan? then
      if seen.metadataExists || storageKey.None? || Blank(Points(storageKey.value))
         || !(DocumentPrefix(h, partition, id) <= storageKey.value) || storageKey.value !in s.objects
      then Some(ValidationError) else None
    else if !seen.metadataExists then Some(NotFoundError)
    else if action.MarkAsFailed? then
      if seen.objectExists != Some(false) then Some(ValidationError) else None
    else if seen.status != Some(Deleting) || seen.objectExists != Some(false) then Some(ValidationError)
    else None
  }

  /** What an accepted action does to the stores. */
  function Effect(s: Stored, id: string, action: RecoveryAction, storageKey: Option<string>, now: int): Stored
    requires if action.PurgeOrphan? then storageKey.Some? else id in s.rows
  {
    match action
    case PurgeOrphan => s.(objects := s.objects - {storageKey.value})
    case CompleteHard => s.(rows := s.rows - {id})
    case CompleteSoft => s.(rows := s.rows[id := WithStatus(s.rows[id], Deleted, now)])
    case MarkAsFailed => s.(rows := s.rows[id := WithStatus(s.rows[id], DocumentStatus.Failed, now)])
  }

  function ApplyAlone(h: Hash, s: Stored, id: string, action: RecoveryAction, storageKey: Option<string>, dryRun: bool,
                      partition: DocumentPartition, now: int): (Stored, Result<ReconciliationResult, RecoveryError>)
  {
    var refusal := Refusal(h, s, id, action, storageKey, partition);
    if refusal.Some? then (s, Err(refusal.value))
    else
      var s' := if dryRun then s else Effect(s, id, action, storageKey, now);
      (s', Ok(ReconciliationResult(id, action, !dryRun, Some(Inspect(s'.rows, s'.objects, id, partition)), None)))
  }

  /** A batch item: an error becomes part of the result, with a second inspection. */
  function ItemAlone(h: Hash, s: Stored, id: string, action: RecoveryAction, storageKey: Option<string>, dryRun: bool,
                     partition: DocumentPartition, now: int): (Stored, ReconciliationResult)
  {
    var (s', r) := ApplyAlone(h, s, id, action, storageKey, dryRun, partition, now);
    match r
    case Ok(result) => (s', result)
    case Err(e) =>
      (s', ReconciliationResult(id, action, false, Some(Inspect(s'.rows, s'.objects, id, partition)), Some(e)))
  }

  /** When an action is refused, and why: an absent row for the actions on rows is NOT_FOUND, every
      other unmet condition is a validation error. */
  lemma RefusedExactly(h: Hash, s: Stored, id: string, action: RecoveryAction, storageKey: Option<string>,
                       partition: DocumentPartition)
    ensures var r := Refusal(h, s, id, action, storageKey, partition);
            var there := id in s.rows && s.rows[id].partition == partition;
            && (r.Some? ==> r == Some(NotFoundError) || r == Some(ValidationError))
            && (r == Some(NotFoundError) <==> action != PurgeOrphan && !there)
            && (action == PurgeOrphan ==>
                  (r.None? <==>
                     && !there && storageKey.Some? && storageKey.value in s.objects
                     && !FileNames.White(storageKey.value)
                     && "documents/partitions/" + (if partition.kind.Personal? then "personal" else "group") + "/"
                        + h(partition.partitionId) + "/" + id + "/" <= storageKey.value))
            && (action != PurgeOrphan && there ==>
                  (r.None? <==>
                     && s.rows[id].storageKey !in s.objects
                     && (action == MarkAsFailed || s.rows[id].status == Deleting)))
  {
    if storageKey.Some? { FileNames.BlankIsWhite(storageKey.value); }
  }

  /** What an accepted action leaves, in the fields of the row, and what the caller is told. */
  lemma RecoveryMeans(h: Hash, s: Stored, id: string, action: RecoveryAction, storageKey: Option<string>,
                      dryRun: bool, partition: DocumentPartition, now: int)
    ensures var refusal := Refusal(h, s, id, action, storageKey, partition);
            var (s', r) := ApplyAlone(h, s, id, action, storageKey, dryRun, partition, now);
            && (dryRun || refusal.Some? ==> s' == s)
            && (refusal.Some? ==> r == Err(refusal.value))
            && (refusal.None? ==>
                  r == Ok(ReconciliationResult(id, action, !dryRun, Some(Inspect(s'.rows, s'.objects, id, partition)),
                                               None)))
            && (refusal.None? && !dryRun ==>
                  match action
                  case PurgeOrphan => storageKey.Some? && s' == Stored(s.rows, s.objects - {storageKey.value})
                  case CompleteHard => s' == Stored(s.rows - {id}, s.objects)
                  case CompleteSoft =>
                    id in s.rows
                    && s' == Stored(s.rows[id := s.rows[id].(status := Deleted, updatedAt := now,
                                                             deletedAt := Some(now))], s.objects)
                  case MarkAsFailed =>
                    id in s.rows
                    && s' == Stored(s.rows[id := s.rows[id].(status := DocumentStatus.Failed, updatedAt := now)],
                                    s.objects))
  {
  }

  // ---- What a recovery keeps ------------------------------------------------------------

  /** No recovery breaks the agreement of rows and objects: with slash-free ids an orphan
      purge never removes an object that any row refers to. */
  lemma RecoveryKeepsAgreement(g: Setting, s: Stored, id: string, action: RecoveryAction, storageKey: Option<string>,
                               dryRun: bool, partition: DocumentPartition, now: int)
    requires Sound(g) && RowsInv(g, s.rows) && StoresAgree(s.rows, s.objects) && partition.partitionId in g.partitionIds
    ensures var s' := ApplyAlone(g.h, s, id, action, storageKey, dryRun, partition, now).0;
            && RowsInv(g, s'.rows) && StoresAgree(s'.rows, s'.objects)
            && (action.PurgeOrphan? ==> forall other :: other in s.rows ==>
                  (s.rows[other].storageKey in s'.objects <==> s.rows[other].storageKey in s.objects))
  {
    if Refusal(g.h, s, id, action, storageKey, partition).None? && !dryRun {
      match action {
        case PurgeOrphan =>
          forall other | other in s.rows ensures s.rows[other].storageKey != storageKey.value {
            var m := s.rows[other];
            assert WellStored(g, m);
            SlashFreePurgeIsPrivate(g.h, partition, id, m.partition, m.documentId, m.originalFilename);
          }
          forall other | other in s.rows
            ensures RowMatchesObject(s.rows[other], s.objects - {storageKey.value})
          {
            assert RowMatchesObject(s.rows[other], s.objects);
          }
        case CompleteHard =>
          assert s.objects - {s.rows[id].storageKey} == s.objects;
          OwnRowRemovalKeeps(g, s.rows, s.objects, id);
        case CompleteSoft =>
          assert s.objects - {s.rows[id].storageKey} == s.objects;
          OwnWriteKeeps(g, s.rows, s.objects, id, WithStatus(s.rows[id], Deleted, now), s.objects);
        case MarkAsFailed =>
          OwnWriteKeeps(g, s.rows, s.objects, id, WithStatus(s.rows[id], DocumentStatus.Failed, now), s.objects);
      }
    }
  }

  /** A deletion interrupted after the object went can be completed by exactly its own kind of
      recovery, which then leaves what the deletion would have left, up to timestamps. */
  lemma InterruptedDeletionCompletes(h: Hash, id: string, partition: DocumentPartition, hard: bool, t: int, u: int,
                                     a: Stored, b: Stored)
    requires WellKeyed(a.rows) && Lookup(a.rows, id, partition).Some?
    requires DeletionEnded(id, partition, hard, t, a, b, true, Err(Inconsistent))
    ensures var action := if hard then CompleteHard else CompleteSoft;
            var (done, r) := ApplyAlone(h, b, id, action, None, false, partition, u);
            && r.Ok? && r.value.applied
            && done.objects == Gone(a, a.rows[id], hard, t).objects
            && SameUpToTimes(done.rows, Gone(a, a.rows[id], hard, t).rows)
  {
    var m := a.rows[id];
    assert b.rows == a.rows[id := WithStatus(m, Deleting, t)];
    assert b.rows - {id} == a.rows - {id};
  }

  function JobOf(action: RecoveryAction, storageKey: Option<string>): Job
    requires action.PurgeOrphan? ==> storageKey.Some?
  {
    match action
    case CompleteSoft => Complete(false)
    case CompleteHard => Complete(true)
    case MarkAsFailed => MarkFailed
    case PurgeOrphan => Purge(storageKey.value)
  }

  /** Two more steps of a process. */
  function Twice(now: int): seq<Step> {
    [Go(0, now)] + ([Go(0, now)] + [])
  }

  /** A process and up to four of its calls. */
  function RecoverySteps(id: string, partition: DocumentPartition, job: Job, now: int): seq<Step> {
    ([Start(0, id, partition, job)] + Twice(now)) + Twice(now)
  }

  lemma RunTwice(h: Hash, s: State, now: int)
    ensures Run(h, s, Twice(now)) == Exec(h, Exec(h, s, Go(0, now)), Go(0, now))
  {
    RunFirst(h, s, Go(0, now), [Go(0, now)] + []);
    RunFirst(h, Exec(h, s, Go(0, now)), Go(0, now), []);
  }

  /** The steps in two halves: the inspection, and what follows. */
  lemma RunHalves(h: Hash, s: Stored, id: string, partition: DocumentPartition, job: Job, now: int)
    ensures var started := Exec(h, Idle(s), Start(0, id, partition, job));
            Run(h, Idle(s), RecoverySteps(id, partition, job, now)) == Run(h, Run(h, started, Twice(now)), Twice(now))
  {
    var x0 := Start(0, id, partition, job);
    RunConcat(h, Idle(s), [x0] + Twice(now), Twice(now));
    RunFirst(h, Idle(s), x0, Twice(now));
  }

  lemma CompletionIsARun(h: Hash, s: Stored, id: string, hard: bool, partition: DocumentPartition, now: int)
    requires WellKeyed(s.rows)
    ensures var action := if hard then CompleteHard else CompleteSoft;
            Run(h, Idle(s), RecoverySteps(id, partition, Complete(hard), now))
            == Idle(ApplyAlone(h, s, id, action, None, false, partition, now).0)
  {
    var started := Exec(h, Idle(s), Start(0, id, partition, Complete(hard)));
    RunHalves(h, s, id, partition, Complete(hard), now);
    CompletionAcceptsExactly(h, Idle(s), 0, id, partition, hard, now);
    RunFirst(h, Idle(s), Start(0, id, partition, Complete(hard)), Twice(now));
    var found := Lookup(s.rows, id, partition);
    if found.Some? && found.value.status.Deleting? && found.value.storageKey !in s.objects {
      EndingEnds(h, Idle(s), 0, found.value, Complete(hard), now);
    } else {
      RunTwice(h, Idle(s), now);
    }
  }

  function FourSteps(h: Hash, s: Stored, id: string, partition: DocumentPartition, job: Job, now: int): State {
    var x := Go(0, now);
    Exec(h, Exec(h, Exec(h, Exec(h, Started(s, id, partition, job, FirstPhase(job)), x), x), x), x)
  }

  lemma RunIsFourSteps(h: Hash, s: Stored, id: string, partition: DocumentPartition, job: Job, now: int)
    ensures Run(h, Idle(s), RecoverySteps(id, partition, job, now)) == FourSteps(h, s, id, partition, job, now)
  {
    var s1 := Started(s, id, partition, job, FirstPhase(job));
    assert Exec(h, Idle(s), Start(0, id, partition, job)) == s1;
    RunHalves(h, s, id, partition, job, now);
    RunTwice(h, s1, now);
    RunTwice(h, Exec(h, Exec(h, s1, Go(0, now)), Go(0, now)), now);
  }

  lemma MarkFailedSteps(h: Hash, s: Stored, id: string, partition: DocumentPartition, now: int)
    requires WellKeyed(s.rows)
    ensures FourSteps(h, s, id, partition, MarkFailed, now)
            == Idle(ApplyAlone(h, s, id, MarkAsFailed, None, false, partition, now).0)
  {
    var x := Go(0, now);
    var s1 := Started(s, id, partition, MarkFailed, Inspecting);
    var s2 := Exec(h, s1, x);
    assert s2 == AfterInspect(h, s1, 0, Answered);
    Moves(s, id, partition, MarkFailed, Inspecting, Inspecting);
    if Lookup(s.rows, id, partition).None? {
      assert s2 == Idle(s);
    } else {
      var m := s.rows[id];
      Moves(s, id, partition, MarkFailed, Inspecting, Probing(m));
      Moves(s, id, partition, MarkFailed, Probing(m), FailReading);
      var s3 := Exec(h, s2, x);
      assert s3 == AfterProbe(s2, 0, Answered);
      if m.storageKey in s.objects {
        assert s3 == Idle(s);
      } else {
        MarkFailedWrites(h, s, id, partition, now);
      }
    }
  }

  lemma MarkFailedWrites(h: Hash, s: Stored, id: string, partition: DocumentPartition, now: int)
    requires WellKeyed(s.rows) && Lookup(s.rows, id, partition).Some?
    ensures Exec(h, Exec(h, Started(s, id, partition, MarkFailed, FailReading), Go(0, now)), Go(0, now))
            == Idle(Effect(s, id, MarkAsFailed, None, now))
  {
    var x := Go(0, now);
    var s3 := Started(s, id, partition, MarkFailed, FailReading);
    var s4 := Exec(h, s3, x);
    var m := s.rows[id];
    Moves(s, id, partition, MarkFailed, FailReading, Failing(m));
    assert s4 == AfterRead(s3, 0, Answered) == Started(s, id, partition, MarkFailed, Failing(m));
    assert Exec(h, s4, x) == AfterWrite(s4, 0, m, DocumentStatus.Failed, Answered, now);
    Moves(Effect(s, id, MarkAsFailed, None, now), id, partition, MarkFailed, Failing(m), Failing(m));
  }

  lemma PurgeSteps(h: Hash, s: Stored, id: string, key: string, partition: DocumentPartition, now: int)
    ensures FourSteps(h, s, id, partition, Purge(key), now)
            == Idle(ApplyAlone(h, s, id, PurgeOrphan, Some(key), false, partition, now).0)
  {
    var x := Go(0, now);
    var s1 := Started(s, id, partition, Purge(key), Inspecting);
    var s2 := Exec(h, s1, x);
    assert s2 == AfterInspect(h, s1, 0, Answered);
    Moves(s, id, partition, Purge(key), Inspecting, PurgeProbing);
    if Lookup(s.rows, id, partition).Some? || !(DocumentPrefix(h, partition, id) <= key) {
      assert s2 == Idle(s);
    } else {
      NotBlank(h, partition, id, key);
      PurgeEnds(h, s, id, key, partition, now);
    }
  }

  lemma PurgeEnds(h: Hash, s: Stored, id: string, key: string, partition: DocumentPartition, now: int)
    ensures var x := Go(0, now);
            Exec(h, Exec(h, Exec(h, Started(s, id, partition, Purge(key), PurgeProbing), x), x), x)
            == Idle(s.(objects := s.objects - {key}))
  {
    var x := Go(0, now);
    var s2 := Started(s, id, partition, Purge(key), PurgeProbing);
    var s3 := Exec(h, s2, x);
    assert s3 == AfterPurgeProbe(s2, 0, Answered);
    Moves(s, id, partition, Purge(key), PurgeProbing, Purging);
    if key in s.objects {
      var s4 := Exec(h, s3, x);
      assert s4 == AfterPurge(s3, 0, Answered);
      Moves(s.(objects := s.objects - {key}), id, partition, Purge(key), Purging, Purging);
      assert s4 == Idle(s.(objects := s.objects - {key}));
    } else {
      assert s.objects - {key} == s.objects;
      assert s3 == Idle(s);
    }
  }

  /** A key in a document's namespace is never blank. */
  lemma NotBlank(h: Hash, p: DocumentPartition, id: string, key: string)
    requires DocumentPrefix(h, p, id) <= key
    ensures !Blank(Points(key))
  {
    assert Points(key)[0] == 100;
  }

  /** A recovery that no store failure disturbs is the step machine's, run to its end. */
  lemma UndisturbedIsARun(h: Hash, s: Stored, id: string, action: RecoveryAction, storageKey: Option<string>,
                          partition: DocumentPartition, now: int)
    requires WellKeyed(s.rows) && (action.PurgeOrphan? ==> storageKey.Some?)
    ensures Run(h, Idle(s), RecoverySteps(id, partition, JobOf(action, storageKey), now))
            == Idle(ApplyAlone(h, s, id, action, storageKey, false, partition, now).0)
  {
    match action {
      case CompleteSoft => CompletionIsARun(h, s, id, false, partition, now);
      case CompleteHard => CompletionIsARun(h, s, id, true, partition, now);
      case MarkAsFailed =>
        RunIsFourSteps(h, s, id, partition, MarkFailed, now);
        MarkFailedSteps(h, s, id, partition, now);
      case PurgeOrphan =>
        RunIsFourSteps(h, s, id, partition, Purge(storageKey.value), now);
        PurgeSteps(h, s, id, storageKey.value, partition, now);
    }
  }

  lemma RaisedIsARun(g: Setting, s: Stored, id: string, partition: DocumentPartition, job: Job)
    requires job.Complete? || job.MarkFailed? || job.Purge?
    ensures var steps := [Start(0, id, partition, job)] + ([Advance(0, FailedBefore, 0)] + []);
            RunOf(g.h, s, id, partition, job, steps, s) && Allowed(g, s, id, partition, steps)
  {
    var x := Advance(0, FailedBefore, 0);
    var s1 := Started(s, id, partition, job, Inspecting);
    RunStarted(g.h, s, id, partition, job, [x] + []);
    RunFirst(g.h, s1, x, []);
    Moves(s, id, partition, job, Inspecting, Inspecting);
    assert Exec(g.h, s1, x) == AfterInspect(g.h, s1, 0, FailedBefore);
    CalmAllowed(g, s, id, partition, job, [x] + []);
  }

  /** Whatever a recovery did, nothing because a store raised or all of it, one recovering process
      of the step system has a permitted run that does the same. */
  lemma RecoveryIsARun(g: Setting, s: Stored, s': Stored, id: string, action: RecoveryAction,
                       storageKey: Option<string>,
                       partition: DocumentPartition, now: int) returns (steps: seq<Step>)
    requires WellKeyed(s.rows) && (action.PurgeOrphan? ==> storageKey.Some?)
    requires s' == s || s' == ApplyAlone(g.h, s, id, action, storageKey, false, partition, now).0
    ensures RunOf(g.h, s, id, partition, JobOf(action, storageKey), steps, s') && Allowed(g, s, id, partition, steps)
    ensures s' == ApplyAlone(g.h, s, id, action, storageKey, false, partition, now).0 ==>
              steps == RecoverySteps(id, partition, JobOf(action, storageKey), now)
  {
    var job := JobOf(action, storageKey);
    if s' == ApplyAlone(g.h, s, id, action, storageKey, false, partition, now).0 {
      UndisturbedIsARun(g.h, s, id, action, storageKey, partition, now);
      steps := RecoverySteps(id, partition, job, now);
      var rest := Twice(now) + Twice(now);
      assert steps == [Start(0, id, partition, job)] + rest;
      CalmAllowed(g, s, id, partition, job, rest);
    } else {
      RaisedIsARun(g, s, id, partition, job);
      steps := [Start(0, id, partition, job)] + ([Advance(0, FailedBefore, 0)] + []);
    }
  }
}

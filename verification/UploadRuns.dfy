/** The upload service refines the step system: every outcome of an upload is a permitted run
    of one uploading process. */
module UploadRuns {
  import opened Domain
  import opened Namespaces
  import opened Lifecycle
  import opened LifecycleTheorems
  import opened Runs
  import opened Upload

  /** An upload whose duplicate check finds the id or raises goes no further. */
  lemma RefusalIsARun(g: Setting, s: Stored, id: string, partition: DocumentPartition, job: Job, reply: Reply)
    requires job.Upload? && !reply.FailedAfter? && (reply.Answered? ==> id in s.rows)
    ensures var steps := [Start(0, id, partition, job)] + ([Advance(0, reply, 0)] + []);
            RunOf(g.h, s, id, partition, job, steps, s) && Allowed(g, s, id, partition, steps)
  {
    var rest := [Advance(0, reply, 0)] + [];
    var s1 := Started(s, id, partition, job, Checking);
    RunStarted(g.h, s, id, partition, job, rest);
    RunFirst(g.h, s1, Advance(0, reply, 0), []);
    Moves(s, id, partition, job, Checking, Putting);
    assert Exec(g.h, s1, Advance(0, reply, 0)) == Idle(s);
    CalmAllowed(g, s, id, partition, job, rest);
  }

  /** One whose put raises ends there, with the object put or not. */
  lemma PutFailureIsARun(g: Setting, s: Stored, id: string, partition: DocumentPartition, job: Job, reply: Reply)
    requires job.Upload? && id !in s.rows && !reply.Answered?
    ensures var steps := [Start(0, id, partition, job)] + ([Go(0, 0)] + ([Advance(0, reply, 0)] + []));
            var key := StorageKey(g.h, partition, id, job.filename);
            && RunOf(g.h, s, id, partition, job, steps,
                     if reply.FailedBefore? then s else s.(objects := s.objects[key := job.content]))
            && Allowed(g, s, id, partition, steps)
  {
    var x, y := Go(0, 0), Advance(0, reply, 0);
    var s1, s2 := Started(s, id, partition, job, Checking), Started(s, id, partition, job, Putting);
    var put := s.(objects := s.objects[StorageKey(g.h, partition, id, job.filename) := job.content]);
    RunStarted(g.h, s, id, partition, job, [x] + ([y] + []));
    RunFirst(g.h, s1, x, [y] + []);
    RunFirst(g.h, s2, y, []);
    Moves(s, id, partition, job, Checking, Putting);
    Moves(s, id, partition, job, Putting, Saving);
    Moves(put, id, partition, job, Putting, Saving);
    assert Exec(g.h, s1, x) == s2;
    assert Exec(g.h, s2, y) == AfterPut(g.h, s2, 0, reply);
    LatePermitted(g, s2, reply, 0, []);
    PermittedFirst(g, s1, x, [y] + []);
    if SlashFree(id) && partition.partitionId in g.partitionIds {
      StartPermitted(g, s, id, partition, job, [x] + ([y] + []));
    }
  }

  lemma UpToSaveIsARun(g: Setting, s: Stored, id: string, partition: DocumentPartition, job: Job)
    requires job.Upload? && id !in s.rows
    ensures var steps := UploadUpToSave(0, id, partition, job);
            var key := StorageKey(g.h, partition, id, job.filename);
            && OneProcess(steps, id, partition, job) && Allowed(g, s, id, partition, steps)
            && Run(g.h, Idle(s), steps)
               == Started(s.(objects := s.objects[key := job.content]), id, partition, job, Saving)
  {
    UploadReachesSave(g.h, Idle(s), 0, id, partition, job);
    assert Idle(s).processes[0 := Process(id, partition, job, Saving)] == map[0 := Process(id, partition, job, Saving)];
    CalmAllowed(g, s, id, partition, job, [Go(0, 0)] + ([Go(0, 0)] + []));
  }

  /** One that succeeds saves its row last. */
  lemma SuccessIsARun(g: Setting, s: Stored, id: string, partition: DocumentPartition, job: Job, now: int)
    requires job.Upload? && id !in s.rows
    ensures var m := UploadedRow(g.h, id, partition, job, now);
            var steps := UploadUpToSave(0, id, partition, job) + ([Go(0, now)] + []);
            && RunOf(g.h, s, id, partition, job, steps,
                     Stored(s.rows[id := m], s.objects[m.storageKey := job.content]))
            && Allowed(g, s, id, partition, steps)
  {
    var x := Go(0, now);
    var m := UploadedRow(g.h, id, partition, job, now);
    var put := s.(objects := s.objects[m.storageKey := job.content]);
    var s1 := Started(put, id, partition, job, Saving);
    UpToSaveIsARun(g, s, id, partition, job);
    RunConcat(g.h, Idle(s), UploadUpToSave(0, id, partition, job), [x] + []);
    RunFirst(g.h, s1, x, []);
    assert Exec(g.h, s1, x) == AfterSave(g.h, s1, 0, Answered, now);
    Moves(put.(rows := s.rows[id := m]), id, partition, job, Saving, Saving);
    OneProcessAppends(UploadUpToSave(0, id, partition, job), [x] + [], id, partition, job);
    PermittedConcat(g, Idle(s), UploadUpToSave(0, id, partition, job), [x] + []);
    CalmPermitted(g, s1, [x] + []);
  }

  /** One whose save raises removes its object again, or fails to. */
  lemma RollbackIsARun(g: Setting, s: Stored, id: string, partition: DocumentPartition, job: Job, clean: Reply)
    requires job.Upload? && id !in s.rows
    ensures var key := StorageKey(g.h, partition, id, job.filename);
            var steps := UploadUpToSave(0, id, partition, job)
                + ([Advance(0, FailedBefore, 0)] + ([Advance(0, clean, 0)] + []));
            && RunOf(g.h, s, id, partition, job, steps,
                     s.(objects := if clean.FailedBefore? then s.objects[key := job.content] else s.objects - {key}))
            && Allowed(g, s, id, partition, steps)
  {
    var x, y := Advance(0, FailedBefore, 0), Advance(0, clean, 0);
    var key := StorageKey(g.h, partition, id, job.filename);
    var put := s.(objects := s.objects[key := job.content]);
    var s1, s2 := Started(put, id, partition, job, Saving), Started(put, id, partition, job, Cleaning);
    UpToSaveIsARun(g, s, id, partition, job);
    RunConcat(g.h, Idle(s), UploadUpToSave(0, id, partition, job), [x] + ([y] + []));
    RunFirst(g.h, s1, x, [y] + []);
    RunFirst(g.h, s2, y, []);
    Moves(put, id, partition, job, Saving, Cleaning);
    assert Exec(g.h, s1, x) == AfterSave(g.h, s1, 0, FailedBefore, 0) == s2;
    CleaningEnds(g.h, s, id, partition, job, clean);
    OneProcessAppends(UploadUpToSave(0, id, partition, job), [x] + ([y] + []), id, partition, job);
    PermittedConcat(g, Idle(s), UploadUpToSave(0, id, partition, job), [x] + ([y] + []));
    PermittedFirst(g, s1, x, [y] + []);
    LatePermitted(g, s2, clean, 0, []);
  }

  lemma CleaningEnds(h: Hash, s: Stored, id: string, partition: DocumentPartition, job: Job, clean: Reply)
    requires job.Upload?
    ensures var key := StorageKey(h, partition, id, job.filename);
            var s2 := Started(s.(objects := s.objects[key := job.content]), id, partition, job, Cleaning);
            Exec(h, s2, Advance(0, clean, 0))
            == Idle(s.(objects := if clean.FailedBefore? then s.objects[key := job.content] else s.objects - {key}))
  {
    var key := StorageKey(h, partition, id, job.filename);
    var put := s.(objects := s.objects[key := job.content]);
    var s2 := Started(put, id, partition, job, Cleaning);
    assert Exec(h, s2, Advance(0, clean, 0)) == AfterClean(h, s2, 0, clean);
    assert s.objects[key := job.content] - {key} == s.objects - {key};
    Moves(put, id, partition, job, Cleaning, Cleaning);
    Moves(s.(objects := s.objects - {key}), id, partition, job, Cleaning, Cleaning);
  }

  /** Whatever an upload did and wherever it stopped, one uploading process of the step system
      has a permitted run that does the same: the service adds no behaviour of its own. */
  lemma UploadIsARun(g: Setting, s: Stored, id: string, partition: DocumentPartition, job: Job, now: int,
                     s': Stored, r: Result<UploadResult, UploadError>) returns (steps: seq<Step>)
    requires job.Upload?
    requires UploadEnded(UploadedRow(g.h, id, partition, job, now), job.content,
                         s.rows, s.objects, s'.rows, s'.objects, r)
    requires PutWhole(StorageKey(g.h, partition, id, job.filename), job.content, s.objects, s'.objects, r)
    ensures RunOf(g.h, s, id, partition, job, steps, s') && Allowed(g, s, id, partition, steps)
    ensures r.Ok? ==> steps == UploadUpToSave(0, id, partition, job) + ([Go(0, now)] + [])
  {
    var up, start := UploadUpToSave(0, id, partition, job), [Start(0, id, partition, job)];
    match r {
      case Ok(_) =>
        SuccessIsARun(g, s, id, partition, job, now);
        steps := up + ([Go(0, now)] + []);
      case Err(e) =>
        if e.DuplicateDocument? || e.StoreFailure? {
          var reply := if e.DuplicateDocument? then Answered else FailedBefore;
          RefusalIsARun(g, s, id, partition, job, reply);
          steps := start + ([Advance(0, reply, 0)] + []);
        } else if e.StorageFailure? {
          var reply := if s'.objects == s.objects then FailedBefore else FailedAfter;
          PutFailureIsARun(g, s, id, partition, job, reply);
          steps := start + ([Go(0, 0)] + ([Advance(0, reply, 0)] + []));
        } else {
          var key := StorageKey(g.h, partition, id, job.filename);
          var clean := if e.RolledBack? then Answered
                       else if s'.objects == s.objects[key := job.content] then FailedBefore else FailedAfter;
          RollbackIsARun(g, s, id, partition, job, clean);
          steps := up + ([Advance(0, FailedBefore, 0)] + ([Advance(0, clean, 0)] + []));
        }
    }
  }

  // ---- Uploads from a stream -------------------------------------------------------------

  /** What a torn put, and a clean-up after it, leave of the stores. */
  function Left(s: Stored, key: string, left: Option<seq<Byte>>): Stored {
    s.(objects := if left.Some? then s.objects[key := left.value] else s.objects - {key})
  }

  lemma TearIsARun(g: Setting, s: Stored, id: string, partition: DocumentPartition, job: Job, left: Option<seq<Byte>>)
    requires job.Upload? && id !in s.rows
    ensures var steps := [Start(0, id, partition, job)] + ([Go(0, 0)] + ([Tear(0, left, true)] + []));
            && RunOf(g.h, s, id, partition, job, steps, Left(s, StorageKey(g.h, partition, id, job.filename), left))
            && Allowed(g, s, id, partition, steps)
  {
    var x, y := Go(0, 0), Tear(0, left, true);
    var s1, s2 := Started(s, id, partition, job, Checking), Started(s, id, partition, job, Putting);
    var torn := Left(s, StorageKey(g.h, partition, id, job.filename), left);
    RunStarted(g.h, s, id, partition, job, [x] + ([y] + []));
    RunFirst(g.h, s1, x, [y] + []);
    RunFirst(g.h, s2, y, []);
    Moves(s, id, partition, job, Checking, Putting);
    Moves(torn, id, partition, job, Putting, Cleaning);
    assert Exec(g.h, s1, x) == s2;
    assert Exec(g.h, s2, y) == AfterTear(g.h, s2, 0, left, true);
    CalmAllowed(g, s, id, partition, job, [x] + ([y] + []));
  }

  /** A put whose bytes are not as many as declared, and the clean-up, answered or not. */
  lemma MismatchIsARun(g: Setting, s: Stored, id: string, partition: DocumentPartition, job: Job,
                       left: Option<seq<Byte>>, clean: Reply)
    requires job.Upload? && id !in s.rows
    ensures var key := StorageKey(g.h, partition, id, job.filename);
            var steps := [Start(0, id, partition, job)]
                + ([Go(0, 0)] + ([Tear(0, left, false)] + ([Advance(0, clean, 0)] + [])));
            && RunOf(g.h, s, id, partition, job, steps, Left(s, key, if clean.FailedBefore? then left else None))
            && Allowed(g, s, id, partition, steps)
  {
    var x, y, z := Go(0, 0), Tear(0, left, false), Advance(0, clean, 0);
    var s1, s2 := Started(s, id, partition, job, Checking), Started(s, id, partition, job, Putting);
    var torn := Left(s, StorageKey(g.h, partition, id, job.filename), left);
    var s3 := Started(torn, id, partition, job, Cleaning);
    RunStarted(g.h, s, id, partition, job, [x] + ([y] + ([z] + [])));
    RunFirst(g.h, s1, x, [y] + ([z] + []));
    RunFirst(g.h, s2, y, [z] + []);
    RunFirst(g.h, s3, z, []);
    Moves(s, id, partition, job, Checking, Putting);
    Moves(torn, id, partition, job, Putting, Cleaning);
    assert Exec(g.h, s1, x) == s2;
    assert Exec(g.h, s2, y) == AfterTear(g.h, s2, 0, left, false);
    TornCleaningEnds(g.h, s, id, partition, job, left, clean);
    LatePermitted(g, s3, clean, 0, []);
    PermittedFirst(g, s2, y, [z] + []);
    PermittedFirst(g, s1, x, [y] + ([z] + []));
    if SlashFree(id) && partition.partitionId in g.partitionIds {
      StartPermitted(g, s, id, partition, job, [x] + ([y] + ([z] + [])));
    }
  }

  lemma TornCleaningEnds(h: Hash, s: Stored, id: string, partition: DocumentPartition, job: Job,
                         left: Option<seq<Byte>>, clean: Reply)
    requires job.Upload?
    ensures var key := StorageKey(h, partition, id, job.filename);
            Exec(h, Started(Left(s, key, left), id, partition, job, Cleaning), Advance(0, clean, 0))
            == Idle(Left(s, key, if clean.FailedBefore? then left else None))
  {
    var key := StorageKey(h, partition, id, job.filename);
    var torn, gone := Left(s, key, left), Left(s, key, None);
    var s2 := Started(torn, id, partition, job, Cleaning);
    assert Exec(h, s2, Advance(0, clean, 0)) == AfterClean(h, s2, 0, clean);
    assert torn.objects - {key} == gone.objects;
    Moves(torn, id, partition, job, Cleaning, Cleaning);
    Moves(gone, id, partition, job, Cleaning, Cleaning);
  }

  /** Also an upload from a stream, whatever its put left under the key, did what one uploading
      process of the step system does. */
  lemma StreamUploadIsARun(g: Setting, s: Stored, id: string, partition: DocumentPartition, job: Job, now: int,
                           s': Stored, r: Result<UploadResult, UploadError>) returns (steps: seq<Step>)
    requires job.Upload?
    requires UploadEnded(UploadedRow(g.h, id, partition, job, now), job.content,
                         s.rows, s.objects, s'.rows, s'.objects, r)
    ensures RunOf(g.h, s, id, partition, job, steps, s') && Allowed(g, s, id, partition, steps)
  {
    var key := StorageKey(g.h, partition, id, job.filename);
    var left := if key in s'.objects then Some(s'.objects[key]) else None;
    if r.Ok? || r.error.DuplicateDocument? || r.error.StoreFailure? || r.error.RolledBack? {
      steps := UploadIsARun(g, s, id, partition, job, now, s', r);
    } else {
      OnlyTheKeyDiffers(s.objects, s'.objects, key);
      assert s' == Left(s, key, left);
      if r.error.StorageFailure? {
        TearIsARun(g, s, id, partition, job, left);
        steps := [Start(0, id, partition, job)] + ([Go(0, 0)] + ([Tear(0, left, true)] + []));
      } else {
        var clean := if r.error.CleanupFailed? then FailedBefore else Answered;
        MismatchIsARun(g, s, id, partition, job, left, clean);
        steps := [Start(0, id, partition, job)]
          + ([Go(0, 0)] + ([Tear(0, left, false)] + ([Advance(0, clean, 0)] + [])));
      }
    }
  }

  lemma OnlyTheKeyDiffers(objects: Objects, objects': Objects, key: string)
    requires objects' - {key} == objects - {key}
    ensures objects' == if key in objects' then objects[key := objects'[key]] else objects - {key}
  {
    forall k | k in objects' && k != key ensures k in objects && objects'[k] == objects[k] {
      assert k in objects' - {key};
      assert (objects' - {key})[k] == (objects - {key})[k];
    }
    forall k | k in objects && k != key ensures k in objects' {
      assert k in objects - {key};
    }
  }
}

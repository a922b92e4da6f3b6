/** Why each hypothesis on runs is needed. A waiver drops one of them; for every waiver there is a
    run from agreeing stores that keeps all the others and leaves the stores disagreeing. */
module Counterexamples {
  import opened Domain
  import opened Namespaces
  import opened Lifecycle
  import opened LifecycleTheorems
  import LifecycleProof

  // ---- The hypotheses but one -----------------------------------------------------------

  datatype Kind = Uploads | Deletions | Completions | MarkFaileds | Purges

  predicate OfKind(job: Job, kind: Kind) {
    match kind
    case Uploads => job.Upload?
    case Deletions => job.Delete?
    case Completions => job.Complete?
    case MarkFaileds => job.MarkFailed?
    case Purges => job.Purge?
  }

  /** Uploads may overlap jobs of one kind on their id; or a save may raise after committing; or
      ids may hold slashes. */
  datatype Waiver = Nothing | Overlap(kind: Kind) | LateSave | SlashedIds

  /** Whether two jobs on one id may overlap. */
  predicate Compatible(job: Job, other: Job, w: Waiver) {
    && (job.Upload? ==> w.Overlap? && OfKind(other, w.kind))
    && (other.Upload? ==> w.Overlap? && OfKind(job, w.kind))
  }

  ghost predicate MayJoin(s: State, id: string, job: Job, w: Waiver) {
    forall c :: c in s.processes && s.processes[c].documentId == id ==> Compatible(job, s.processes[c].job, w)
  }

  /** `Permitted` without the hypothesis that is waived. */
  ghost predicate PermittedBut(g: Setting, s: State, step: Step, w: Waiver) {
    match step
    case Start(_, id, partition, job) =>
      (w.SlashedIds? || SlashFree(id)) && partition.partitionId in g.partitionIds && MayJoin(s, id, job, w)
    case Advance(c, reply, _) =>
      c in s.processes && s.processes[c].phase.Saving? && !w.LateSave? ==> !reply.FailedAfter?
    case Tear(_, _, _) => true
    case Crash(_) => true
  }

  ghost predicate AllPermittedBut(g: Setting, s: State, steps: seq<Step>, w: Waiver)
    decreases |steps|
  {
    steps == [] || (PermittedBut(g, s, steps[0], w) && AllPermittedBut(g, Exec(g.h, s, steps[0]), steps[1..], w))
  }

  lemma {:induction false} NothingWaived(g: Setting, s: State, steps: seq<Step>)
    ensures AllPermittedBut(g, s, steps, Nothing) <==> AllPermitted(g, s, steps)
    decreases |steps|
  {
    if steps != [] { NothingWaived(g, Exec(g.h, s, steps[0]), steps[1..]); }
  }

  lemma {:induction false} ButConcat(g: Setting, s: State, a: seq<Step>, b: seq<Step>, w: Waiver)
    ensures AllPermittedBut(g, s, a + b, w) <==>
            AllPermittedBut(g, s, a, w) && AllPermittedBut(g, Run(g.h, s, a), b, w)
    decreases |a|
  {
    if a == [] {
      assert a + b == b;
    } else {
      assert (a + b)[1..] == a[1..] + b;
      ButConcat(g, Exec(g.h, s, a[0]), a[1..], b, w);
    }
  }

  /** Steps that start nothing, none of which raises late unless that is waived. */
  predicate Ordinary(steps: seq<Step>, w: Waiver) {
    forall i :: 0 <= i < |steps| ==>
      !steps[i].Start? && (steps[i].Advance? ==> w.LateSave? || !steps[i].reply.FailedAfter?)
  }

  lemma {:induction false} OrdinarySteps(g: Setting, s: State, steps: seq<Step>, w: Waiver)
    requires Ordinary(steps, w)
    ensures AllPermittedBut(g, s, steps, w)
    decreases |steps|
  {
    if steps != [] { OrdinarySteps(g, Exec(g.h, s, steps[0]), steps[1..], w); }
  }

  /** A document of the setting. */
  predicate Fit(g: Setting, id: string, partition: DocumentPartition, w: Waiver) {
    (w.SlashedIds? || SlashFree(id)) && partition.partitionId in g.partitionIds
  }

  lemma JobPermitted(g: Setting, s: State, c: nat, id: string, partition: DocumentPartition, job: Job,
                     rest: seq<Step>, w: Waiver)
    requires Fit(g, id, partition, w) && MayJoin(s, id, job, w) && Ordinary(rest, w)
    ensures AllPermittedBut(g, s, [Start(c, id, partition, job)] + rest, w)
  {
    var x := Start(c, id, partition, job);
    assert ([x] + rest)[1..] == rest;
    OrdinarySteps(g, Exec(g.h, s, x), rest, w);
  }

  lemma UploadPermitted(g: Setting, s: State, c: nat, id: string, partition: DocumentPartition, job: Job,
                        rest: seq<Step>, w: Waiver)
    requires job.Upload? && Fit(g, id, partition, w) && MayJoin(s, id, job, w) && Ordinary(rest, w)
    ensures AllPermittedBut(g, s, UploadUpToSave(c, id, partition, job) + rest, w)
  {
    var x := Go(c, 0);
    var rest' := ([x] + ([x] + [])) + rest;
    assert UploadUpToSave(c, id, partition, job) + rest == [Start(c, id, partition, job)] + rest';
    JobPermitted(g, s, c, id, partition, job, rest', w);
  }

  lemma DeletionPermitted(g: Setting, s: State, c: nat, id: string, partition: DocumentPartition, hard: bool,
                          rest: seq<Step>, w: Waiver)
    requires Fit(g, id, partition, w) && MayJoin(s, id, Delete(hard), w) && Ordinary(rest, w)
    ensures AllPermittedBut(g, s, DeletionUpToRemoval(c, id, partition, hard, 0) + rest, w)
  {
    var x := Go(c, 0);
    var rest' := ([x] + ([x] + ([x] + []))) + rest;
    assert DeletionUpToRemoval(c, id, partition, hard, 0) + rest == [Start(c, id, partition, Delete(hard))] + rest';
    JobPermitted(g, s, c, id, partition, Delete(hard), rest', w);
  }

  /** Stores with this one row and these objects, and nothing running. */
  function OneRow(m: DocumentMetadata, objects: Objects): State {
    State(map[m.documentId := m], objects, map[])
  }

  const NOTHING := State(map[], map[], map[])

  // ---- Two uploads ------------------------------------------------------------------------

  /** Two uploads of one id: both put, one saves, and the other fails to save and rolls back. */
  function TwoUploads(id: string, partition: DocumentPartition, job: Job): seq<Step> {
    UploadUpToSave(0, id, partition, job)
    + (UploadUpToSave(1, id, partition, job) + ([Go(0, 0)] + ([Go(1, 0)] + ([Go(1, 0)] + []))))
  }

  /** The loser's rollback removes the winner's object, and the winner's row stays AVAILABLE. */
  lemma OverlappingUploadsDisagree(g: Setting, id: string, partition: DocumentPartition, job: Job)
    requires job.Upload? && SlashFree(id) && partition.partitionId in g.partitionIds
    ensures var steps := TwoUploads(id, partition, job);
            var e := Run(g.h, NOTHING, steps);
            && AllPermittedBut(g, NOTHING, steps, Overlap(Uploads))
            && id in e.rows && e.rows[id].status.Available? && e.rows[id].storageKey !in e.objects
  {
    var first, second := UploadUpToSave(0, id, partition, job), UploadUpToSave(1, id, partition, job);
    var rest := [Go(0, 0)] + ([Go(1, 0)] + ([Go(1, 0)] + []));
    UploadReachesSave(g.h, NOTHING, 0, id, partition, job);
    var s1 := Run(g.h, NOTHING, first);
    UploadReachesSave(g.h, s1, 1, id, partition, job);
    var s2 := Run(g.h, s1, second);
    LoserRemovesWinner(g.h, s2, id, partition, job);
    RunConcat(g.h, NOTHING, first, second + rest);
    RunConcat(g.h, s1, second, rest);
    ButConcat(g, NOTHING, first, second + rest, Overlap(Uploads));
    assert first + [] == first;
    UploadPermitted(g, NOTHING, 0, id, partition, job, [], Overlap(Uploads));
    UploadPermitted(g, s1, 1, id, partition, job, rest, Overlap(Uploads));
  }

  lemma LoserRemovesWinner(h: Hash, s: State, id: string, partition: DocumentPartition, job: Job)
    requires job.Upload? && id !in s.rows && 0 in s.processes && 1 in s.processes
    requires s.processes[0] == s.processes[1] == Process(id, partition, job, Saving)
    ensures var e := Run(h, s, [Go(0, 0)] + ([Go(1, 0)] + ([Go(1, 0)] + [])));
            id in e.rows && e.rows[id].status.Available? && e.rows[id].storageKey !in e.objects
  {
    var s1 := Exec(h, s, Go(0, 0));
    assert s1 == AfterSave(h, s, 0, Answered, 0);
    var s2 := Exec(h, s1, Go(1, 0));
    assert s2 == AfterSave(h, s1, 1, Answered, 0) == Goto(s1, 1, Cleaning);
    var s3 := Exec(h, s2, Go(1, 0));
    assert s3 == AfterClean(h, s2, 1, Answered);
    RunFirst(h, s, Go(0, 0), [Go(1, 0)] + ([Go(1, 0)] + []));
    RunFirst(h, s1, Go(1, 0), [Go(1, 0)] + []);
    RunFirst(h, s2, Go(1, 0), []);
  }

  // ---- A save that raises after committing ----------------------------------------------------

  function LateSaved(id: string, partition: DocumentPartition, job: Job): seq<Step> {
    UploadUpToSave(0, id, partition, job) + ([Advance(0, FailedAfter, 0)] + ([Go(0, 0)] + []))
  }

  /** The rollback removes the object of a saved row. */
  lemma LateSaveFailureDisagrees(g: Setting, id: string, partition: DocumentPartition, job: Job)
    requires job.Upload? && SlashFree(id) && partition.partitionId in g.partitionIds
    ensures var steps := LateSaved(id, partition, job);
            var e := Run(g.h, NOTHING, steps);
            && AllPermittedBut(g, NOTHING, steps, LateSave)
            && id in e.rows && e.rows[id].status.Available? && e.rows[id].storageKey !in e.objects
  {
    var x, late := Go(0, 0), Advance(0, FailedAfter, 0);
    var up := UploadUpToSave(0, id, partition, job);
    UploadReachesSave(g.h, NOTHING, 0, id, partition, job);
    var s1 := Run(g.h, NOTHING, up);
    var s2 := Exec(g.h, s1, late);
    assert s2 == AfterSave(g.h, s1, 0, FailedAfter, 0);
    var s3 := Exec(g.h, s2, x);
    assert s3 == AfterClean(g.h, s2, 0, Answered);
    RunConcat(g.h, NOTHING, up, [late] + ([x] + []));
    RunFirst(g.h, s1, late, [x] + []);
    RunFirst(g.h, s2, x, []);
    UploadPermitted(g, NOTHING, 0, id, partition, job, [late] + ([x] + []), LateSave);
  }

  lemma PurgeRemoves(h: Hash, s: State, d: string, p: DocumentPartition, key: string)
    requires Lookup(s.rows, d, p).None? && key in s.objects && DocumentPrefix(h, p, d) <= key && 0 !in s.processes
    ensures Run(h, s, [Start(0, d, p, Purge(key))] + ([Go(0, 0)] + ([Go(0, 0)] + ([Go(0, 0)] + [])))) == Remove(s, key)
  {
    var x0, x := Start(0, d, p, Purge(key)), Go(0, 0);
    var s1 := Exec(h, s, x0);
    assert s1.processes[0] == Process(d, p, Purge(key), Inspecting);
    var s2 := Exec(h, s1, x);
    assert s2 == AfterInspect(h, s1, 0, Answered) == Goto(s1, 0, PurgeProbing);
    RunFirst(h, s, x0, [x] + ([x] + ([x] + [])));
    RunFirst(h, s1, x, [x] + ([x] + []));
    ProbedPurgeRemoves(h, s, s2, d, p, key);
  }

  lemma ProbedPurgeRemoves(h: Hash, s: State, s2: State, d: string, p: DocumentPartition, key: string)
    requires key in s.objects && 0 !in s.processes
    requires s2 == s.(processes := s.processes[0 := Process(d, p, Purge(key), PurgeProbing)])
    ensures Run(h, s2, [Go(0, 0)] + ([Go(0, 0)] + [])) == Remove(s, key)
  {
    var x := Go(0, 0);
    var s3 := Exec(h, s2, x);
    assert s3 == AfterPurgeProbe(s2, 0, Answered) == Goto(s2, 0, Purging);
    var s4 := Exec(h, s3, x);
    assert s4 == AfterPurge(s3, 0, Answered);
    assert s4.processes == s.processes;
    RunFirst(h, s2, x, [x] + []);
    RunFirst(h, s3, x, []);
  }

  /** An upload, and then a purge of a document `d` that reaches the uploaded object. */
  function PurgedAfter(d: string, p: DocumentPartition, id: string, q: DocumentPartition, job: Job, key: string)
    : seq<Step>
  {
    (UploadUpToSave(2, id, q, job) + ([Go(2, 0)] + []))
    + ([Start(0, d, p, Purge(key))] + ([Go(0, 0)] + ([Go(0, 0)] + ([Go(0, 0)] + []))))
  }

  lemma PurgedAfterRuns(g: Setting, d: string, p: DocumentPartition, id: string, q: DocumentPartition, job: Job,
                        w: Waiver)
    requires job.Upload? && (d == id ==> p != q)
    requires Fit(g, d, p, w) && Fit(g, id, q, w)
    requires DocumentPrefix(g.h, p, d) <= StorageKey(g.h, q, id, job.filename)
    ensures var key := StorageKey(g.h, q, id, job.filename);
            var steps := PurgedAfter(d, p, id, q, job, key);
            var e := Run(g.h, NOTHING, steps);
            && AllPermittedBut(g, NOTHING, steps, w)
            && id in e.rows && e.rows[id].status.Available? && e.rows[id].storageKey !in e.objects
  {
    var key, x := StorageKey(g.h, q, id, job.filename), Go(0, 0);
    var upload := UploadUpToSave(2, id, q, job) + ([Go(2, 0)] + []);
    var rest := [x] + ([x] + ([x] + []));
    Uploaded(g.h, NOTHING, id, q, job);
    var s1 := Run(g.h, NOTHING, upload);
    PurgeRemoves(g.h, s1, d, p, key);
    RunConcat(g.h, NOTHING, upload, [Start(0, d, p, Purge(key))] + rest);
    ButConcat(g, NOTHING, upload, [Start(0, d, p, Purge(key))] + rest, w);
    UploadPermitted(g, NOTHING, 2, id, q, job, [Go(2, 0)] + [], w);
    JobPermitted(g, s1, 0, d, p, Purge(key), rest, w);
  }

  // ---- Ids with slashes -------------------------------------------------------------------------

  /** An id that continues another by a slash: purging the shorter id, which has no row, removes
      the object of the longer id's AVAILABLE row. Nothing overlaps. */
  lemma SlashedIdPurgeDisagrees(g: Setting, d: string, id: string, partition: DocumentPartition, job: Job)
    requires job.Upload? && d + "/" <= id && partition.partitionId in g.partitionIds
    ensures var key := StorageKey(g.h, partition, id, job.filename);
            var steps := PurgedAfter(d, partition, id, partition, job, key);
            var e := Run(g.h, NOTHING, steps);
            && AllPermittedBut(g, NOTHING, steps, SlashedIds)
            && id in e.rows && e.rows[id].status.Available? && e.rows[id].storageKey !in e.objects
  {
    NamespaceReaches(g.h, partition, d, id, job.filename);
    assert |d| < |id|;
    PurgedAfterRuns(g, d, partition, id, partition, job, SlashedIds);
  }

  /** Two partitions of one kind whose ids have one digest: purging a document under one partition
      removes the object of the same id's row under the other. No hypothesis on the run is waived. */
  lemma CollidingPartitionsDisagree(g: Setting, id: string, p: DocumentPartition, q: DocumentPartition, job: Job)
    requires job.Upload? && SlashFree(id) && p != q && p.kind == q.kind && g.h(p.partitionId) == g.h(q.partitionId)
    requires p.partitionId in g.partitionIds && q.partitionId in g.partitionIds
    ensures var key := StorageKey(g.h, q, id, job.filename);
            var steps := PurgedAfter(id, p, id, q, job, key);
            var e := Run(g.h, NOTHING, steps);
            && AllPermitted(g, NOTHING, steps)
            && id in e.rows && e.rows[id].status.Available? && e.rows[id].storageKey !in e.objects
  {
    NamespaceReaches(g.h, q, id, id, job.filename);
    PurgedAfterRuns(g, id, p, id, q, job, Nothing);
    NothingWaived(g, NOTHING, PurgedAfter(id, p, id, q, job, StorageKey(g.h, q, id, job.filename)));
  }

  // ---- Uploads overlapping other operations on their id --------------------------------------

  /** A hard deletion of the row and a new upload of the id, one after the other. */
  function Replacement(id: string, partition: DocumentPartition, job: Job): seq<Step> {
    (DeletionUpToRemoval(1, id, partition, true, 0) + Ending(1, 0))
    + (UploadUpToSave(2, id, partition, job) + ([Go(2, 0)] + []))
  }

  function Replaced(h: Hash, s: State, m: DocumentMetadata, job: Job): State
    requires job.Upload?
  {
    var row := UploadedRow(h, m.documentId, m.partition, job, 0);
    s.(rows := s.rows[m.documentId := row], objects := (s.objects - {m.storageKey})[row.storageKey := job.content])
  }

  lemma DeletedHard(h: Hash, s: State, m: DocumentMetadata)
    requires m.documentId in s.rows && s.rows[m.documentId] == m && 1 !in s.processes
    ensures Run(h, s, DeletionUpToRemoval(1, m.documentId, m.partition, true, 0) + Ending(1, 0))
            == s.(rows := s.rows - {m.documentId}, objects := s.objects - {m.storageKey})
  {
    var id, d := m.documentId, WithStatus(m, Deleting, 0);
    DeletionRemoves(h, s, 1, m, true, 0);
    RunConcat(h, s, DeletionUpToRemoval(1, id, m.partition, true, 0), Ending(1, 0));
    EndingEnds(h, Removed(s, m, 0), 1, d, Delete(true), 0);
    assert s.rows[id := d] - {id} == s.rows - {id};
  }

  lemma Uploaded(h: Hash, s: State, id: string, partition: DocumentPartition, job: Job)
    requires job.Upload? && id !in s.rows && 2 !in s.processes
    ensures var row := UploadedRow(h, id, partition, job, 0);
            Run(h, s, UploadUpToSave(2, id, partition, job) + ([Go(2, 0)] + []))
            == s.(rows := s.rows[id := row], objects := s.objects[row.storageKey := job.content])
  {
    var x := Go(2, 0);
    UploadReachesSave(h, s, 2, id, partition, job);
    var s1 := Run(h, s, UploadUpToSave(2, id, partition, job));
    RunConcat(h, s, UploadUpToSave(2, id, partition, job), [x] + []);
    RunFirst(h, s1, x, []);
    assert Exec(h, s1, x) == AfterSave(h, s1, 2, Answered, 0);
    assert Exec(h, s1, x).processes == s.processes;
  }

  lemma ReplacementReplaces(h: Hash, s: State, m: DocumentMetadata, job: Job)
    requires job.Upload? && m.documentId in s.rows && s.rows[m.documentId] == m
    requires 1 !in s.processes && 2 !in s.processes
    ensures Run(h, s, Replacement(m.documentId, m.partition, job)) == Replaced(h, s, m, job)
  {
    var id, p := m.documentId, m.partition;
    var gone := s.(rows := s.rows - {id}, objects := s.objects - {m.storageKey});
    DeletedHard(h, s, m);
    Uploaded(h, gone, id, p, job);
    RunConcat(h, s, DeletionUpToRemoval(1, id, p, true, 0) + Ending(1, 0),
              UploadUpToSave(2, id, p, job) + ([Go(2, 0)] + []));
    var row := UploadedRow(h, id, p, job, 0);
    assert (s.rows - {id})[id := row] == s.rows[id := row];
  }

  lemma ReplacementPermitted(g: Setting, s: State, m: DocumentMetadata, job: Job, w: Waiver)
    requires job.Upload? && m.documentId in s.rows && s.rows[m.documentId] == m
    requires s.processes.Keys == {0} && !s.processes[0].job.Upload? && w.Overlap? && OfKind(s.processes[0].job, w.kind)
    requires Fit(g, m.documentId, m.partition, w)
    ensures AllPermittedBut(g, s, Replacement(m.documentId, m.partition, job), w)
  {
    var id, p := m.documentId, m.partition;
    var deletion := DeletionUpToRemoval(1, id, p, true, 0) + Ending(1, 0);
    DeletedHard(g.h, s, m);
    ButConcat(g, s, deletion, UploadUpToSave(2, id, p, job) + ([Go(2, 0)] + []), w);
    DeletionPermitted(g, s, 1, id, p, true, Ending(1, 0), w);
    UploadPermitted(g, Run(g.h, s, deletion), 2, id, p, job, [Go(2, 0)] + [], w);
  }

  function Waiting(s: State, id: string, partition: DocumentPartition, job: Job, phase: Phase): State {
    s.(processes := s.processes[0 := Process(id, partition, job, phase)])
  }

  // ---- A completion ------------------------------------------------------------------------

  /** A completion that has inspected the row, the row deleted and uploaded anew, and then the
      completion's two transactions. */
  function CompletionAround(id: string, partition: DocumentPartition, job: Job): seq<Step> {
    ([Start(0, id, partition, Complete(false))] + ([Go(0, 0)] + ([Go(0, 0)] + [])))
    + (Replacement(id, partition, job) + Ending(0, 0))
  }

  lemma LateEnding(h: Hash, s: State, id: string, partition: DocumentPartition, seen: DocumentMetadata)
    requires Lookup(s.rows, id, partition).Some? && s.rows[id].documentId == id
    requires 0 in s.processes && s.processes[0] == Process(id, partition, Complete(false), Finishing(seen))
    ensures var e := Run(h, s, Ending(0, 0));
            e.rows == s.rows[id := WithStatus(s.rows[id], Deleted, 0)] && e.objects == s.objects
  {
    var x := Go(0, 0);
    var s1 := Exec(h, s, x);
    assert s1 == AfterFinish(s, 0, Answered) == Goto(s, 0, Writing(s.rows[id]));
    var s2 := Exec(h, s1, x);
    assert s2 == AfterWrite(s1, 0, s.rows[id], Deleted, Answered, 0);
    RunFirst(h, s, x, [x] + []);
    RunFirst(h, s1, x, []);
  }

  lemma CompletionWaits(h: Hash, m: DocumentMetadata, objects: Objects)
    requires m.status.Deleting? && m.storageKey !in objects
    ensures var id, p, s := m.documentId, m.partition, OneRow(m, objects);
            Run(h, s, [Start(0, id, p, Complete(false))] + ([Go(0, 0)] + ([Go(0, 0)] + [])))
            == Waiting(s, id, p, Complete(false), Finishing(m))
  {
    CompletionAcceptsExactly(h, OneRow(m, objects), 0, m.documentId, m.partition, false, 0);
  }

  lemma CompletionAroundRuns(h: Hash, m: DocumentMetadata, objects: Objects, job: Job)
    requires job.Upload? && m.status.Deleting? && m.storageKey !in objects
    ensures var row := UploadedRow(h, m.documentId, m.partition, job, 0);
            var e := Run(h, OneRow(m, objects), CompletionAround(m.documentId, m.partition, job));
            e.rows == map[m.documentId := WithStatus(row, Deleted, 0)] && row.storageKey in e.objects
  {
    var id, p := m.documentId, m.partition;
    var s := OneRow(m, objects);
    var before := [Start(0, id, p, Complete(false))] + ([Go(0, 0)] + ([Go(0, 0)] + []));
    var s1 := Waiting(s, id, p, Complete(false), Finishing(m));
    CompletionWaits(h, m, objects);
    RunConcat(h, s, before, Replacement(id, p, job) + Ending(0, 0));
    ReplacementReplaces(h, s1, m, job);
    RunConcat(h, s1, Replacement(id, p, job), Ending(0, 0));
    LateEnding(h, Replaced(h, s1, m, job), id, p, m);
  }

  lemma CompletionAroundPermitted(g: Setting, m: DocumentMetadata, objects: Objects, job: Job)
    requires job.Upload? && WellStored(g, m) && m.status.Deleting? && m.storageKey !in objects
    ensures AllPermittedBut(g, OneRow(m, objects), CompletionAround(m.documentId, m.partition, job),
                            Overlap(Completions))
  {
    var id, p, w := m.documentId, m.partition, Overlap(Completions);
    var s, rest := OneRow(m, objects), [Go(0, 0)] + ([Go(0, 0)] + []);
    var before := [Start(0, id, p, Complete(false))] + rest;
    CompletionWaits(g.h, m, objects);
    JobPermitted(g, s, 0, id, p, Complete(false), rest, w);
    AroundPermitted(g, s, before, Waiting(s, id, p, Complete(false), Finishing(m)), m, job, Ending(0, 0), w);
  }

  /** The new row is DELETED and its object is still there. */
  lemma CompletionOverlapDisagrees(g: Setting, m: DocumentMetadata, objects: Objects, job: Job)
    requires job.Upload? && WellStored(g, m) && m.status.Deleting? && m.storageKey !in objects
    ensures var s := OneRow(m, objects);
            var steps := CompletionAround(m.documentId, m.partition, job);
            var e := Run(g.h, s, steps);
            && GoodStart(g, s) && AllPermittedBut(g, s, steps, Overlap(Completions))
            && m.documentId in e.rows && e.rows[m.documentId].status.Deleted?
            && e.rows[m.documentId].storageKey in e.objects
  {
    CompletionAroundRuns(g.h, m, objects, job);
    CompletionAroundPermitted(g, m, objects, job);
  }

  /** A process that waits through a replacement and then goes on. */
  lemma AroundPermitted(g: Setting, s: State, before: seq<Step>, s1: State, m: DocumentMetadata, job: Job,
                        after: seq<Step>, w: Waiver)
    requires AllPermittedBut(g, s, before, w) && Run(g.h, s, before) == s1 && Ordinary(after, w)
    requires job.Upload? && m.documentId in s1.rows && s1.rows[m.documentId] == m
    requires s1.processes.Keys == {0} && !s1.processes[0].job.Upload? && w.Overlap?
    requires OfKind(s1.processes[0].job, w.kind) && Fit(g, m.documentId, m.partition, w)
    ensures AllPermittedBut(g, s, before + (Replacement(m.documentId, m.partition, job) + after), w)
  {
    var replacement := Replacement(m.documentId, m.partition, job);
    ButConcat(g, s, before, replacement + after, w);
    ButConcat(g, s1, replacement, after, w);
    ReplacementPermitted(g, s1, m, job, w);
    OrdinarySteps(g, Run(g.h, s1, replacement), after, w);
  }

  lemma MarkedWaits(h: Hash, s: State, m: DocumentMetadata, hard: bool)
    requires m.documentId in s.rows && s.rows[m.documentId] == m && 0 !in s.processes
    ensures var id, p, d, x := m.documentId, m.partition, WithStatus(m, Deleting, 0), Go(0, 0);
            Run(h, s, [Start(0, id, p, Delete(hard))] + ([x] + ([x] + [])))
            == Waiting(s.(rows := s.rows[id := d]), id, p, Delete(hard), Removing(d))
  {
    var id, p, d, x := m.documentId, m.partition, WithStatus(m, Deleting, 0), Go(0, 0);
    var x0 := Start(0, id, p, Delete(hard));
    var s1 := Exec(h, s, x0);
    var s2 := Exec(h, s1, x);
    assert s2 == AfterRead(s1, 0, Answered) == Goto(s1, 0, Marking(m));
    var s3 := Exec(h, s2, x);
    assert s3 == AfterMark(s2, 0, Answered, 0);
    RunFirst(h, s, x0, [x] + ([x] + []));
    RunFirst(h, s1, x, [x] + []);
    RunFirst(h, s2, x, []);
  }

  // ---- A deletion --------------------------------------------------------------------------------

  /** A deletion that has marked the row, the row deleted and the file uploaded anew, and then the
      first deletion's removal. */
  function DeletionAround(id: string, partition: DocumentPartition, hard: bool, job: Job): seq<Step> {
    ([Start(0, id, partition, Delete(hard))] + ([Go(0, 0)] + ([Go(0, 0)] + [])))
    + (Replacement(id, partition, job) + ([Go(0, 0)] + []))
  }

  lemma DeletionAroundRuns(h: Hash, m: DocumentMetadata, objects: Objects, hard: bool, job: Job)
    requires job.Upload? && m.storageKey == StorageKey(h, m.partition, m.documentId, job.filename)
    ensures var d := WithStatus(m, Deleting, 0);
            var e := Run(h, OneRow(m, objects), DeletionAround(m.documentId, m.partition, hard, job));
            e.rows == map[m.documentId := UploadedRow(h, m.documentId, m.partition, job, 0)]
            && m.storageKey !in e.objects
  {
    var id, p, d, x := m.documentId, m.partition, WithStatus(m, Deleting, 0), Go(0, 0);
    var s := OneRow(m, objects);
    var before := [Start(0, id, p, Delete(hard))] + ([x] + ([x] + []));
    var waiting := Waiting(s.(rows := s.rows[id := d]), id, p, Delete(hard), Removing(d));
    MarkedWaits(h, s, m, hard);
    ReplacementReplaces(h, waiting, d, job);
    var replaced := Replaced(h, waiting, d, job);
    RunConcat(h, s, before, Replacement(id, p, job) + ([x] + []));
    RunConcat(h, waiting, Replacement(id, p, job), [x] + []);
    RemovalEnds(h, replaced, d);
  }

  lemma RemovalEnds(h: Hash, s: State, d: DocumentMetadata)
    requires 0 in s.processes && s.processes[0].phase == Removing(d) && s.processes[0].job.Delete?
    ensures var e := Run(h, s, [Go(0, 0)] + []);
            e.rows == s.rows && e.objects == s.objects - {d.storageKey}
  {
    RunFirst(h, s, Go(0, 0), []);
    assert Exec(h, s, Go(0, 0)) == AfterRemove(s, 0, Answered);
  }

  lemma DeletionAroundPermitted(g: Setting, m: DocumentMetadata, objects: Objects, hard: bool, job: Job)
    requires job.Upload? && WellStored(g, m)
    ensures AllPermittedBut(g, OneRow(m, objects), DeletionAround(m.documentId, m.partition, hard, job),
                            Overlap(Deletions))
  {
    var id, p, d, x := m.documentId, m.partition, WithStatus(m, Deleting, 0), Go(0, 0);
    var s, w := OneRow(m, objects), Overlap(Deletions);
    var before := [Start(0, id, p, Delete(hard))] + ([x] + ([x] + []));
    MarkedWaits(g.h, s, m, hard);
    JobPermitted(g, s, 0, id, p, Delete(hard), [x] + ([x] + []), w);
    var waiting := Waiting(s.(rows := s.rows[id := d]), id, p, Delete(hard), Removing(d));
    AroundPermitted(g, s, before, waiting, d, job, [x] + [], w);
  }

  /** The new row is AVAILABLE without its object. */
  lemma DeletionOverlapDisagrees(g: Setting, m: DocumentMetadata, objects: Objects, hard: bool, job: Job)
    requires WellStored(g, m) && RowMatchesObject(m, objects)
    requires job.Upload? && job.filename == m.originalFilename
    ensures var s := OneRow(m, objects);
            var steps := DeletionAround(m.documentId, m.partition, hard, job);
            var e := Run(g.h, s, steps);
            && GoodStart(g, s) && AllPermittedBut(g, s, steps, Overlap(Deletions))
            && m.documentId in e.rows && e.rows[m.documentId].status.Available?
            && e.rows[m.documentId].storageKey !in e.objects
  {
    DeletionAroundRuns(g.h, m, objects, hard, job);
    DeletionAroundPermitted(g, m, objects, hard, job);
  }

  // ---- A purge -----------------------------------------------------------------------------------

  lemma PurgeWaits(h: Hash, s: State, id: string, partition: DocumentPartition, key: string)
    requires Lookup(s.rows, id, partition).None? && key in s.objects && 0 !in s.processes
    requires DocumentPrefix(h, partition, id) <= key
    ensures var x := Go(0, 0);
            Run(h, s, [Start(0, id, partition, Purge(key))] + ([x] + ([x] + [])))
            == Waiting(s, id, partition, Purge(key), Purging)
  {
    var x, x0 := Go(0, 0), Start(0, id, partition, Purge(key));
    var s1 := Waiting(s, id, partition, Purge(key), Inspecting);
    var s2 := Waiting(s, id, partition, Purge(key), PurgeProbing);
    assert Exec(h, s, x0) == s1;
    assert Exec(h, s1, x) == AfterInspect(h, s1, 0, Answered) == Goto(s1, 0, PurgeProbing) == s2;
    assert Exec(h, s2, x) == AfterPurgeProbe(s2, 0, Answered) == Goto(s2, 0, Purging);
    RunFirst(h, s, x0, [x] + ([x] + []));
    RunFirst(h, s1, x, [x] + []);
    RunFirst(h, s2, x, []);
  }

  /** A purge that has seen no row, the id uploaded, and then the purge's removal. */
  function PurgeAround(id: string, partition: DocumentPartition, job: Job, key: string): seq<Step> {
    ([Start(0, id, partition, Purge(key))] + ([Go(0, 0)] + ([Go(0, 0)] + [])))
    + ((UploadUpToSave(2, id, partition, job) + ([Go(2, 0)] + [])) + ([Go(0, 0)] + []))
  }

  /** The new row is AVAILABLE without its object. */
  lemma PurgeOverlapDisagrees(g: Setting, id: string, partition: DocumentPartition, job: Job, orphan: seq<Byte>)
    requires job.Upload? && SlashFree(id) && partition.partitionId in g.partitionIds
    ensures var key := StorageKey(g.h, partition, id, job.filename);
            var s := State(map[], map[key := orphan], map[]);
            var steps := PurgeAround(id, partition, job, key);
            var e := Run(g.h, s, steps);
            && GoodStart(g, s) && AllPermittedBut(g, s, steps, Overlap(Purges))
            && id in e.rows && e.rows[id].status.Available? && e.rows[id].storageKey !in e.objects
  {
    var key, x, w := StorageKey(g.h, partition, id, job.filename), Go(0, 0), Overlap(Purges);
    var s, x0 := State(map[], map[key := orphan], map[]), Start(0, id, partition, Purge(key));
    assert DocumentPrefix(g.h, partition, id) <= key;
    PurgeWaits(g.h, s, id, partition, key);
    var s3 := Waiting(s, id, partition, Purge(key), Purging);
    var before := [x0] + ([x] + ([x] + []));
    var upload := UploadUpToSave(2, id, partition, job) + ([Go(2, 0)] + []);
    Uploaded(g.h, s3, id, partition, job);
    var s4 := Run(g.h, s3, upload);
    assert Exec(g.h, s4, x) == AfterPurge(s4, 0, Answered);
    RunFirst(g.h, s4, x, []);
    RunConcat(g.h, s, before, upload + ([x] + []));
    RunConcat(g.h, s3, upload, [x] + []);
    ButConcat(g, s, before, upload + ([x] + []), w);
    ButConcat(g, s3, upload, [x] + [], w);
    JobPermitted(g, s, 0, id, partition, Purge(key), [x] + ([x] + []), w);
    UploadPermitted(g, s3, 2, id, partition, job, [Go(2, 0)] + [], w);
    OrdinarySteps(g, s4, [x] + [], w);
  }

  // ---- A mark-failed ----------------------------------------------------------------------------

  lemma MarkFailedProbes(h: Hash, s: State, m: DocumentMetadata)
    requires Lookup(s.rows, m.documentId, m.partition) == Some(m) && m.storageKey !in s.objects
    ensures var id, p, x := m.documentId, m.partition, Go(0, 0);
            && Exec(h, Waiting(s, id, p, MarkFailed, Inspecting), x) == Waiting(s, id, p, MarkFailed, Probing(m))
            && Exec(h, Waiting(s, id, p, MarkFailed, Probing(m)), x) == Waiting(s, id, p, MarkFailed, FailReading)
  {
    var id, p, x := m.documentId, m.partition, Go(0, 0);
    var s1 := Waiting(s, id, p, MarkFailed, Inspecting);
    assert Exec(h, s1, x) == AfterInspect(h, s1, 0, Answered) == Goto(s1, 0, Probing(m));
    var s2 := Waiting(s, id, p, MarkFailed, Probing(m));
    assert Exec(h, s2, x) == AfterProbe(s2, 0, Answered) == Goto(s2, 0, FailReading);
  }

  lemma MarkFailedWaits(h: Hash, s: State, m: DocumentMetadata)
    requires Lookup(s.rows, m.documentId, m.partition) == Some(m) && m.storageKey !in s.objects && 0 !in s.processes
    ensures var id, p, x := m.documentId, m.partition, Go(0, 0);
            Run(h, s, [Start(0, id, p, MarkFailed)] + ([x] + ([x] + ([x] + []))))
            == Waiting(s, id, p, MarkFailed, Failing(m))
  {
    var id, p, x := m.documentId, m.partition, Go(0, 0);
    var s1, s3 := Waiting(s, id, p, MarkFailed, Inspecting), Waiting(s, id, p, MarkFailed, FailReading);
    assert Exec(h, s, Start(0, id, p, MarkFailed)) == s1;
    MarkFailedProbes(h, s, m);
    assert Exec(h, s3, x) == AfterRead(s3, 0, Answered) == Goto(s3, 0, Failing(m));
    RunFirst(h, s, Start(0, id, p, MarkFailed), [x] + ([x] + ([x] + [])));
    RunFirst(h, s1, x, [x] + ([x] + []));
    RunFirst(h, Waiting(s, id, p, MarkFailed, Probing(m)), x, [x] + []);
    RunFirst(h, s3, x, []);
  }

  /** A mark-failed has read the row `m`; the row is deleted hard; an upload crashes and leaves an
      object at the key of `m`; the id is uploaded under another name; a deletion of that gets up
      to its removal; the mark-failed's write puts `m` back; and the deletion's last two
      transactions read and mark whatever row is there. */
  function MarkFailedAround(m: DocumentMetadata, orphan: Job, job: Job): seq<Step> {
    MarkFailedRead(m)
    + ((DeletionUpToRemoval(1, m.documentId, m.partition, true, 0) + Ending(1, 0))
       + (OrphanLeft(m.documentId, m.partition, orphan)
          + ((UploadUpToSave(2, m.documentId, m.partition, job) + ([Go(2, 0)] + [])) + LastDeletion(m))))
  }

  function MarkFailedRead(m: DocumentMetadata): seq<Step> {
    [Start(0, m.documentId, m.partition, MarkFailed)] + ([Go(0, 0)] + ([Go(0, 0)] + ([Go(0, 0)] + [])))
  }

  function OrphanLeft(id: string, partition: DocumentPartition, job: Job): seq<Step> {
    UploadUpToSave(1, id, partition, job) + ([Crash(1)] + [])
  }

  function LastDeletion(m: DocumentMetadata): seq<Step> {
    DeletionUpToRemoval(1, m.documentId, m.partition, false, 0) + ([Go(0, 0)] + ([Go(1, 0)] + ([Go(1, 0)] + [])))
  }

  function Failer(m: DocumentMetadata): map<nat, Process> {
    map[0 := Process(m.documentId, m.partition, MarkFailed, Failing(m))]
  }

  lemma CrashLeavesOrphan(h: Hash, s: State, id: string, partition: DocumentPartition, job: Job)
    requires job.Upload? && id !in s.rows && 1 !in s.processes
    ensures Run(h, s, OrphanLeft(id, partition, job))
            == s.(objects := s.objects[StorageKey(h, partition, id, job.filename) := job.content])
  {
    UploadReachesSave(h, s, 1, id, partition, job);
    var s1 := Run(h, s, UploadUpToSave(1, id, partition, job));
    RunConcat(h, s, UploadUpToSave(1, id, partition, job), [Crash(1)] + []);
    RunFirst(h, s1, Crash(1), []);
    assert s1.processes - {1} == s.processes;
  }

  lemma MarkFailedPutsBack(h: Hash, s: State, m: DocumentMetadata)
    requires Lookup(s.rows, m.documentId, m.partition).Some?
    requires 0 in s.processes && s.processes[0] == Process(m.documentId, m.partition, MarkFailed, Failing(m))
    ensures Exec(h, s, Go(0, 0))
            == State(s.rows[m.documentId := WithStatus(m, DocumentStatus.Failed, 0)], s.objects, s.processes - {0})
  {
    assert Exec(h, s, Go(0, 0)) == AfterWrite(s, 0, m, DocumentStatus.Failed, Answered, 0);
  }

  /** A deletion's ending marks whatever row it finds under its id. */
  lemma EndingMarks(h: Hash, s: State, f: DocumentMetadata, d: DocumentMetadata)
    requires Lookup(s.rows, f.documentId, f.partition) == Some(f) && 1 in s.processes
    requires s.processes[1] == Process(f.documentId, f.partition, Delete(false), Finishing(d))
    ensures var e := Run(h, s, [Go(1, 0)] + ([Go(1, 0)] + []));
            e.rows == s.rows[f.documentId := WithStatus(f, Deleted, 0)] && e.objects == s.objects
  {
    var s1 := Exec(h, s, Go(1, 0));
    assert s1 == AfterFinish(s, 1, Answered) == Goto(s, 1, Writing(f));
    var s2 := Exec(h, s1, Go(1, 0));
    assert s2 == AfterWrite(s1, 1, f, Deleted, Answered, 0);
    RunFirst(h, s, Go(1, 0), [Go(1, 0)] + []);
    RunFirst(h, s1, Go(1, 0), []);
  }

  /** After the mark-failed's write the deletion marks the wrong row. */
  lemma WrongRowMarked(h: Hash, s: State, m: DocumentMetadata, d: DocumentMetadata)
    requires m.documentId in s.rows && s.rows[m.documentId].partition == m.partition
    requires s.processes == Failer(m)[1 := Process(m.documentId, m.partition, Delete(false), Finishing(d))]
    ensures var e := Run(h, s, [Go(0, 0)] + ([Go(1, 0)] + ([Go(1, 0)] + [])));
            e.rows == s.rows[m.documentId := WithStatus(WithStatus(m, DocumentStatus.Failed, 0), Deleted, 0)]
            && e.objects == s.objects
  {
    var f := WithStatus(m, DocumentStatus.Failed, 0);
    var s1 := Exec(h, s, Go(0, 0));
    MarkFailedPutsBack(h, s, m);
    EndingMarks(h, s1, f, d);
    RunFirst(h, s, Go(0, 0), [Go(1, 0)] + ([Go(1, 0)] + []));
  }

  lemma LastDeletionMarks(h: Hash, s: State, m: DocumentMetadata, row: DocumentMetadata)
    requires row.documentId == m.documentId && row.partition == m.partition && row.storageKey != m.storageKey
    requires s.processes == Failer(m) && s.rows == map[m.documentId := row] && m.storageKey in s.objects
    ensures var e := Run(h, s, LastDeletion(m));
            e.rows == map[m.documentId := WithStatus(WithStatus(m, DocumentStatus.Failed, 0), Deleted, 0)]
            && m.storageKey in e.objects
  {
    var deletion := DeletionUpToRemoval(1, m.documentId, m.partition, false, 0);
    DeletionRemoves(h, s, 1, row, false, 0);
    var s1 := Run(h, s, deletion);
    RunConcat(h, s, deletion, [Go(0, 0)] + ([Go(1, 0)] + ([Go(1, 0)] + [])));
    WrongRowMarked(h, s1, m, WithStatus(row, Deleting, 0));
  }

  /** The states between the parts. */
  function Emptied(m: DocumentMetadata, objects: Objects): State {
    State(map[], objects, Failer(m))
  }

  function Orphaned(m: DocumentMetadata, objects: Objects, orphan: Job): State
    requires orphan.Upload?
  {
    State(map[], objects[m.storageKey := orphan.content], Failer(m))
  }

  function Renewed(h: Hash, m: DocumentMetadata, objects: Objects, orphan: Job, job: Job): State
    requires orphan.Upload? && job.Upload?
  {
    var row := UploadedRow(h, m.documentId, m.partition, job, 0);
    State(map[m.documentId := row], objects[m.storageKey := orphan.content][row.storageKey := job.content], Failer(m))
  }

  predicate OtherName(h: Hash, m: DocumentMetadata, objects: Objects, orphan: Job, job: Job) {
    && orphan.Upload? && job.Upload? && m.storageKey !in objects
    && StorageKey(h, m.partition, m.documentId, orphan.filename) == m.storageKey
    && StorageKey(h, m.partition, m.documentId, job.filename) != m.storageKey
  }

  lemma PartsRun(h: Hash, m: DocumentMetadata, objects: Objects, orphan: Job, job: Job)
    requires OtherName(h, m, objects, orphan, job)
    ensures var id, p, s := m.documentId, m.partition, OneRow(m, objects);
            && Run(h, s, MarkFailedRead(m)) == s.(processes := Failer(m))
            && Run(h, s.(processes := Failer(m)), DeletionUpToRemoval(1, id, p, true, 0) + Ending(1, 0))
               == Emptied(m, objects)
            && Run(h, Emptied(m, objects), OrphanLeft(id, p, orphan)) == Orphaned(m, objects, orphan)
            && Run(h, Orphaned(m, objects, orphan), UploadUpToSave(2, id, p, job) + ([Go(2, 0)] + []))
               == Renewed(h, m, objects, orphan, job)
  {
    var id, p, s := m.documentId, m.partition, OneRow(m, objects);
    MarkFailedWaits(h, s, m);
    assert Waiting(s, id, p, MarkFailed, Failing(m)) == s.(processes := Failer(m));
    DeletedHard(h, s.(processes := Failer(m)), m);
    assert s.rows - {id} == map[] && s.objects - {m.storageKey} == objects;
    CrashLeavesOrphan(h, Emptied(m, objects), id, p, orphan);
    Uploaded(h, Orphaned(m, objects, orphan), id, p, job);
  }

  lemma MarkFailedAroundRuns(h: Hash, m: DocumentMetadata, objects: Objects, orphan: Job, job: Job)
    requires OtherName(h, m, objects, orphan, job)
    ensures Run(h, OneRow(m, objects), MarkFailedAround(m, orphan, job))
            == Run(h, Renewed(h, m, objects, orphan, job), LastDeletion(m))
  {
    var id, p, s := m.documentId, m.partition, OneRow(m, objects);
    var deletion := DeletionUpToRemoval(1, id, p, true, 0) + Ending(1, 0);
    var left, upload := OrphanLeft(id, p, orphan), UploadUpToSave(2, id, p, job) + ([Go(2, 0)] + []);
    PartsRun(h, m, objects, orphan, job);
    RunConcat(h, s, MarkFailedRead(m), deletion + (left + (upload + LastDeletion(m))));
    RunConcat(h, s.(processes := Failer(m)), deletion, left + (upload + LastDeletion(m)));
    RunConcat(h, Emptied(m, objects), left, upload + LastDeletion(m));
    RunConcat(h, Orphaned(m, objects, orphan), upload, LastDeletion(m));
  }

  /** Each job after the mark-failed's start meets nobody but it, and none but uploads minds. */
  lemma PartsPermitted(g: Setting, m: DocumentMetadata, objects: Objects, orphan: Job, job: Job)
    requires orphan.Upload? && job.Upload? && WellStored(g, m)
    ensures var id, p, w := m.documentId, m.partition, Overlap(MarkFaileds);
            && AllPermittedBut(g, Emptied(m, objects), OrphanLeft(id, p, orphan), w)
            && AllPermittedBut(g, Orphaned(m, objects, orphan), UploadUpToSave(2, id, p, job) + ([Go(2, 0)] + []), w)
            && AllPermittedBut(g, Renewed(g.h, m, objects, orphan, job), LastDeletion(m), w)
  {
    var id, p, w := m.documentId, m.partition, Overlap(MarkFaileds);
    UploadPermitted(g, Emptied(m, objects), 1, id, p, orphan, [Crash(1)] + [], w);
    UploadPermitted(g, Orphaned(m, objects, orphan), 2, id, p, job, [Go(2, 0)] + [], w);
    DeletionPermitted(g, Renewed(g.h, m, objects, orphan, job), 1, id, p, false,
                      [Go(0, 0)] + ([Go(1, 0)] + ([Go(1, 0)] + [])), w);
  }

  lemma FirstPartsPermitted(g: Setting, m: DocumentMetadata, objects: Objects)
    requires WellStored(g, m)
    ensures var id, p, s, w := m.documentId, m.partition, OneRow(m, objects), Overlap(MarkFaileds);
            && AllPermittedBut(g, s, MarkFailedRead(m), w)
            && AllPermittedBut(g, s.(processes := Failer(m)),
                               DeletionUpToRemoval(1, id, p, true, 0) + Ending(1, 0), w)
  {
    var id, p, s, w := m.documentId, m.partition, OneRow(m, objects), Overlap(MarkFaileds);
    JobPermitted(g, s, 0, id, p, MarkFailed, [Go(0, 0)] + ([Go(0, 0)] + ([Go(0, 0)] + [])), w);
    DeletionPermitted(g, s.(processes := Failer(m)), 1, id, p, true, Ending(1, 0), w);
  }

  lemma RenewalPermitted(g: Setting, m: DocumentMetadata, objects: Objects, orphan: Job, job: Job)
    requires OtherName(g.h, m, objects, orphan, job) && WellStored(g, m)
    ensures var upload := UploadUpToSave(2, m.documentId, m.partition, job) + ([Go(2, 0)] + []);
            AllPermittedBut(g, Emptied(m, objects),
                            OrphanLeft(m.documentId, m.partition, orphan) + (upload + LastDeletion(m)),
                            Overlap(MarkFaileds))
  {
    var id, p, w := m.documentId, m.partition, Overlap(MarkFaileds);
    var left, upload := OrphanLeft(id, p, orphan), UploadUpToSave(2, id, p, job) + ([Go(2, 0)] + []);
    PartsRun(g.h, m, objects, orphan, job);
    PartsPermitted(g, m, objects, orphan, job);
    ButConcat(g, Emptied(m, objects), left, upload + LastDeletion(m), w);
    ButConcat(g, Orphaned(m, objects, orphan), upload, LastDeletion(m), w);
  }

  lemma MarkFailedAroundPermitted(g: Setting, m: DocumentMetadata, objects: Objects, orphan: Job, job: Job)
    requires OtherName(g.h, m, objects, orphan, job) && WellStored(g, m)
    ensures AllPermittedBut(g, OneRow(m, objects), MarkFailedAround(m, orphan, job), Overlap(MarkFaileds))
  {
    var id, p, s, w := m.documentId, m.partition, OneRow(m, objects), Overlap(MarkFaileds);
    var deletion := DeletionUpToRemoval(1, id, p, true, 0) + Ending(1, 0);
    var upload := UploadUpToSave(2, id, p, job) + ([Go(2, 0)] + []);
    var rest := OrphanLeft(id, p, orphan) + (upload + LastDeletion(m));
    PartsRun(g.h, m, objects, orphan, job);
    FirstPartsPermitted(g, m, objects);
    RenewalPermitted(g, m, objects, orphan, job);
    ButConcat(g, s, MarkFailedRead(m), deletion + rest, w);
    ButConcat(g, s.(processes := Failer(m)), deletion, rest, w);
  }

  /** The deleted row is back in the place of the uploaded one, and is DELETED with an object. */
  lemma MarkFailedOverlapDisagrees(g: Setting, m: DocumentMetadata, objects: Objects, orphan: Job, job: Job)
    requires OtherName(g.h, m, objects, orphan, job) && WellStored(g, m) && RowMatchesObject(m, objects)
    ensures var s := OneRow(m, objects);
            var steps := MarkFailedAround(m, orphan, job);
            var e := Run(g.h, s, steps);
            && GoodStart(g, s) && AllPermittedBut(g, s, steps, Overlap(MarkFaileds))
            && m.documentId in e.rows && SameIdentity(m, e.rows[m.documentId])
            && e.rows[m.documentId].status.Deleted? && e.rows[m.documentId].storageKey in e.objects
  {
    MarkFailedAroundRuns(g.h, m, objects, orphan, job);
    MarkFailedAroundPermitted(g, m, objects, orphan, job);
    var row := UploadedRow(g.h, m.documentId, m.partition, job, 0);
    LastDeletionMarks(g.h, Renewed(g.h, m, objects, orphan, job), m, row);
  }

  // ---- Together -----------------------------------------------------------------------------------

  /** No hypothesis on runs can be dropped, and none can be narrowed to fewer kinds of operation:
      whichever is waived, a run from agreeing stores that keeps all the others ends with stores
      that disagree. */
  lemma EveryHypothesisIsNeeded(g: Setting, w: Waiver, partition: DocumentPartition)
    returns (s: State, steps: seq<Step>)
    requires w != Nothing && partition.partitionId in g.partitionIds
    ensures GoodStart(g, s) && AllPermittedBut(g, s, steps, w)
    ensures !StoresAgree(Run(g.h, s, steps).rows, Run(g.h, s, steps).objects)
  {
    var job, other := Job.Upload([], "a", "", ""), Job.Upload([], "b", "", "");
    var m := UploadedRow(g.h, "x", partition, job, 0).(status := Deleting);
    s := NOTHING;
    match w {
      case LateSave => LateSaveFailureDisagrees(g, "x", partition, job); steps := LateSaved("x", partition, job);
      case SlashedIds =>
        SlashedIdPurgeDisagrees(g, "x", "x/y", partition, job);
        steps := PurgedAfter("x", partition, "x/y", partition, job, StorageKey(g.h, partition, "x/y", "a"));
      case Overlap(kind) =>
        match kind {
          case Uploads => OverlappingUploadsDisagree(g, "x", partition, job); steps := TwoUploads("x", partition, job);
          case Deletions =>
            DeletionOverlapDisagrees(g, m, map[], true, job);
            s, steps := OneRow(m, map[]), DeletionAround("x", partition, true, job);
          case Completions =>
            CompletionOverlapDisagrees(g, m, map[], job);
            s, steps := OneRow(m, map[]), CompletionAround("x", partition, job);
          case Purges =>
            var key := StorageKey(g.h, partition, "x", "a");
            PurgeOverlapDisagrees(g, "x", partition, job, []);
            s, steps := State(map[], map[key := []], map[]), PurgeAround("x", partition, job, key);
          case MarkFaileds =>
            NamesDiffer(g.h, partition);
            MarkFailedOverlapDisagrees(g, m, map[], job, other);
            s, steps := OneRow(m, map[]), MarkFailedAround(m, job, other);
        }
    }
  }

  /** Whatever is permitted but for the waiver leaves agreeing stores agreeing. */
  ghost predicate AgreesUnder(g: Setting, w: Waiver) {
    forall s: State, steps: seq<Step> :: GoodStart(g, s) && AllPermittedBut(g, s, steps, w) ==>
      StoresAgree(Run(g.h, s, steps).rows, Run(g.h, s, steps).objects)
  }

  /** The hypotheses are exact: the stores agree on all runs if and only if nothing is waived. */
  lemma AgreementIsExact(g: Setting, w: Waiver, partition: DocumentPartition)
    requires Sound(g) && partition.partitionId in g.partitionIds
    ensures AgreesUnder(g, w) <==> w == Nothing
  {
    if w == Nothing {
      forall s: State, steps: seq<Step> | GoodStart(g, s) && AllPermittedBut(g, s, steps, w)
        ensures StoresAgree(Run(g.h, s, steps).rows, Run(g.h, s, steps).objects)
      {
        NothingWaived(g, s, steps);
        LifecycleProof.RunKeeps(g, s, steps);
      }
    } else {
      var s, steps := EveryHypothesisIsNeeded(g, w, partition);
    }
  }

  lemma NamesDiffer(h: Hash, partition: DocumentPartition)
    ensures StorageKey(h, partition, "x", "a") != StorageKey(h, partition, "x", "b")
  {
    var a, b := StorageKey(h, partition, "x", "a"), StorageKey(h, partition, "x", "b");
    assert SanitizeFilename("a") == "a" && SanitizeFilename("b") == "b";
    assert a[|a| - 1] == 'a' && b[|b| - 1] == 'b';
  }
}

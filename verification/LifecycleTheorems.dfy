/** What holds on every run of uploads, deletions, recoveries and crashes. */
module LifecycleTheorems {
  import opened Domain
  import opened Namespaces
  import opened Lifecycle
  import opened LifecycleProof
  import opened Inspection

  /** Any pair of agreeing stores to start from, with nothing running. */
  ghost predicate GoodStart(g: Setting, s: State) {
    RowsInv(g, s.rows) && StoresAgree(s.rows, s.objects) && s.processes == map[]
  }

  /** On every permitted run each AVAILABLE row has its object, of `file_size` bytes, at
      its storage key, and no DELETED row has one. */
  lemma StoresAlwaysAgree(g: Setting, s: State, steps: seq<Step>, id: string)
    requires Sound(g) && GoodStart(g, s) && AllPermitted(g, s, steps)
    requires id in Run(g.h, s, steps).rows
    ensures var e := Run(g.h, s, steps);
            var m := e.rows[id];
            && m.documentId == id
            && m.storageKey == StorageKey(g.h, m.partition, id, m.originalFilename)
            && (m.status.Available? ==> m.storageKey in e.objects && |e.objects[m.storageKey]| == m.fileSize)
            && (m.status.Deleted? ==> m.storageKey !in e.objects)
  {
    RunKeeps(g, s, steps);
    assert RowMatchesObject(Run(g.h, s, steps).rows[id], Run(g.h, s, steps).objects);
  }

  /** Hence the inspector's verdict is exact on every reachable state. */
  lemma InspectorIsExact(g: Setting, s: State, steps: seq<Step>, id: string, partition: DocumentPartition)
    requires Sound(g) && GoodStart(g, s) && AllPermitted(g, s, steps)
    requires Lookup(Run(g.h, s, steps).rows, id, partition).Some?
    ensures var e := Run(g.h, s, steps);
            Inspect(e.rows, e.objects, id, partition).consistent <==> TrulyConsistent(e.rows[id], e.objects)
  {
    StoresAlwaysAgree(g, s, steps, id);
    var e := Run(g.h, s, steps);
    ChainExactUnless(e.rows, e.objects, id, partition);
  }

  // ---- Rows only move away from AVAILABLE ------------------------------------------

  /** The row of `id` is there before and after every step of the run. */
  ghost predicate StaysPresent(h: Hash, s: State, steps: seq<Step>, id: string)
    decreases |steps|
  {
    id in s.rows && (steps == [] || StaysPresent(h, Exec(h, s, steps[0]), steps[1..], id))
  }

  lemma QuietPhasesKeepRows(h: Hash, s: State, c: nat, reply: Reply, now: int)
    requires c in s.processes && Fits(s.processes[c].job, s.processes[c].phase)
    requires !s.processes[c].phase.Saving? && !s.processes[c].phase.Marking? && !s.processes[c].phase.Failing?
    requires !s.processes[c].phase.Finishing? && !s.processes[c].phase.Writing?
    ensures AdvanceProcess(h, s, c, reply, now).rows == s.rows
  {
  }

  /** A write of a process's snapshot hits its own row only, and never with AVAILABLE. */
  lemma WriteNeverRevives(g: Setting, s: State, c: nat, status: DocumentStatus, now: int, id: string)
    requires c in s.processes && Knows(g, s, s.processes[c]) && HoldsSnapshot(s.processes[c].phase)
    requires !status.Available? && id in s.rows
    ensures var after := UpdateRow(s.rows, WithStatus(s.processes[c].phase.m, status, now));
            id in after && SameIdentity(s.rows[id], after[id])
            && (!s.rows[id].status.Available? ==> !after[id].status.Available?)
  {
  }

  lemma StepNeverRevives(g: Setting, s: State, step: Step, id: string)
    requires Inv(g, s) && id in s.rows && id in Exec(g.h, s, step).rows
    ensures var after := Exec(g.h, s, step).rows[id];
            SameIdentity(s.rows[id], after) && (!s.rows[id].status.Available? ==> !after.status.Available?)
  {
    if step.Advance? && step.c in s.processes {
      AdvanceNeverRevives(g, s, step.c, step.reply, step.now, id);
    }
  }

  lemma AdvanceNeverRevives(g: Setting, s: State, c: nat, reply: Reply, now: int, id: string)
    requires c in s.processes && Fits(s.processes[c].job, s.processes[c].phase) && Knows(g, s, s.processes[c])
    requires id in s.rows && id in AdvanceProcess(g.h, s, c, reply, now).rows
    ensures var after := AdvanceProcess(g.h, s, c, reply, now).rows[id];
            SameIdentity(s.rows[id], after) && (!s.rows[id].status.Available? ==> !after.status.Available?)
  {
    match s.processes[c].phase
    case Marking(_) => WriteNeverRevives(g, s, c, Deleting, now, id);
    case Failing(_) => WriteNeverRevives(g, s, c, DocumentStatus.Failed, now, id);
    case Writing(_) => WriteNeverRevives(g, s, c, Deleted, now, id);
    case Saving =>
    case Finishing(_) =>
    case _ => QuietPhasesKeepRows(g.h, s, c, reply, now);
  }

  /** As long as a row is there no step changes its identity (created_at, storage key,
      partition, size, ...), and once it has left AVAILABLE it never returns. */
  lemma {:induction false} NeverRevived(g: Setting, s: State, steps: seq<Step>, id: string)
    requires Sound(g) && Inv(g, s) && AllPermitted(g, s, steps) && StaysPresent(g.h, s, steps, id)
    ensures var e := Run(g.h, s, steps);
            && id in e.rows && SameIdentity(s.rows[id], e.rows[id])
            && e.rows[id].createdAt == s.rows[id].createdAt && e.rows[id].storageKey == s.rows[id].storageKey
            && e.rows[id].partition == s.rows[id].partition && e.rows[id].fileSize == s.rows[id].fileSize
            && (!s.rows[id].status.Available? ==> !e.rows[id].status.Available?)
    decreases |steps|
  {
    if steps != [] {
      var s' := Exec(g.h, s, steps[0]);
      assert id in s'.rows;
      StepNeverRevives(g, s, steps[0], id);
      StepKeeps(g, s, steps[0]);
      NeverRevived(g, s', steps[1..], id);
    }
  }

  // ---- Interrupted deletions ---------------------------------------------------------

  lemma RunFirst(h: Hash, s: State, x: Step, rest: seq<Step>)
    ensures Run(h, s, [x] + rest) == Run(h, Exec(h, s, x), rest)
  {
    assert ([x] + rest)[1..] == rest;
  }

  function Go(c: nat, now: int): Step {
    Advance(c, Answered, now)
  }

  /** The first four steps of a deletion: read, mark DELETING, remove the object. */
  function DeletionUpToRemoval(c: nat, id: string, partition: DocumentPartition, hard: bool, now: int): seq<Step> {
    [Start(c, id, partition, Delete(hard))] + ([Go(c, now)] + ([Go(c, now)] + ([Go(c, now)] + [])))
  }

  function Ending(c: nat, now: int): seq<Step> {
    [Go(c, now)] + ([Go(c, now)] + [])
  }

  function Recovery(c: nat, id: string, partition: DocumentPartition, hard: bool, now: int): seq<Step> {
    [Crash(c)] + ([Start(c, id, partition, Complete(hard))] + ([Go(c, now)] + ([Go(c, now)] + Ending(c, now))))
  }

  lemma RunConcat(h: Hash, s: State, a: seq<Step>, b: seq<Step>)
    ensures Run(h, s, a + b) == Run(h, Run(h, s, a), b)
    decreases |a|
  {
    if a == [] {
      assert a + b == b;
    } else {
      assert (a + b)[1..] == a[1..] + b;
      RunConcat(h, Exec(h, s, a[0]), a[1..], b);
    }
  }

  function Removed(s: State, m: DocumentMetadata, now: int): State {
    var d := WithStatus(m, Deleting, now);
    s.(rows := s.rows[m.documentId := d], objects := s.objects - {m.storageKey})
  }

  /** Up to the removal a deletion leaves the row DELETING and its object absent. */
  lemma DeletionRemoves(h: Hash, s: State, c: nat, m: DocumentMetadata, hard: bool, now: int)
    requires c !in s.processes && m.documentId in s.rows && s.rows[m.documentId] == m
    ensures Run(h, s, DeletionUpToRemoval(c, m.documentId, m.partition, hard, now))
            == Removed(s, m, now).(processes := s.processes[c :=
                 Process(m.documentId, m.partition, Delete(hard), Finishing(WithStatus(m, Deleting, now)))])
  {
    var id, p := m.documentId, m.partition;
    var x0, x := Start(c, id, p, Delete(hard)), Go(c, now);
    var s1 := Exec(h, s, x0);
    var s2 := Exec(h, s1, x);
    assert s2 == Goto(s1, c, Marking(m));
    var s3 := Exec(h, s2, x);
    assert s3 == AfterMark(s2, c, Answered, now);
    var s4 := Exec(h, s3, x);
    assert s4 == AfterRemove(s3, c, Answered);
    RunFirst(h, s, x0, [x] + ([x] + ([x] + [])));
    RunFirst(h, s1, x, [x] + ([x] + []));
    RunFirst(h, s2, x, [x] + []);
    RunFirst(h, s3, x, []);
    assert s4.processes == s.processes[c := Process(id, p, Delete(hard), Finishing(WithStatus(m, Deleting, now)))];
  }

  function Ended(s: State, m: DocumentMetadata, hard: bool, now: int): State {
    if hard then s.(rows := s.rows - {m.documentId})
    else s.(rows := s.rows[m.documentId := WithStatus(m, Deleted, now)])
  }

  /** The ending is the same whether the deletion itself or a recovery reaches it. */
  lemma EndingEnds(h: Hash, s: State, c: nat, m: DocumentMetadata, job: Job, now: int)
    requires c !in s.processes && m.documentId in s.rows && s.rows[m.documentId] == m
    requires job.Delete? || job.Complete?
    ensures Run(h, s.(processes := s.processes[c := Process(m.documentId, m.partition, job, Finishing(m))]),
                Ending(c, now))
            == Ended(s, m, job.hard, now)
  {
    var x := Go(c, now);
    var s0 := s.(processes := s.processes[c := Process(m.documentId, m.partition, job, Finishing(m))]);
    var s1 := Exec(h, s0, x);
    assert s1 == AfterFinish(s0, c, Answered);
    var s2 := Exec(h, s1, x);
    RunFirst(h, s0, x, [x] + []);
    RunFirst(h, s1, x, []);
    if job.hard {
      assert c !in s1.processes;
      assert s2 == s1;
      assert s1.processes == s.processes;
    } else {
      assert s2 == AfterWrite(s1, c, m, Deleted, Answered, now);
      assert s2.processes == s.processes;
    }
  }

  /** An inspection followed by COMPLETE_DELETION_* gets as far as its write exactly when
      the row is DELETING and its object is absent. */
  lemma CompletionAcceptsExactly(h: Hash, s: State, c: nat, id: string, partition: DocumentPartition, hard: bool,
                                 now: int)
    requires c !in s.processes && WellKeyed(s.rows)
    ensures var e := Run(h, s, [Start(c, id, partition, Complete(hard))] + ([Go(c, now)] + ([Go(c, now)] + [])));
            var found := Lookup(s.rows, id, partition);
            if found.Some? && found.value.status.Deleting? && found.value.storageKey !in s.objects
            then e == s.(processes := s.processes[c := Process(id, partition, Complete(hard), Finishing(found.value))])
            else e == s
  {
    var x0, x := Start(c, id, partition, Complete(hard)), Go(c, now);
    var s1 := Exec(h, s, x0);
    var s2 := Exec(h, s1, x);
    assert s2 == AfterInspect(h, s1, c, Answered);
    var s3 := Exec(h, s2, x);
    RunFirst(h, s, x0, [x] + ([x] + []));
    RunFirst(h, s1, x, [x] + []);
    RunFirst(h, s2, x, []);
    assert Leave(s1, c).processes == s.processes;
    if Lookup(s.rows, id, partition).Some? {
      assert s3 == AfterProbe(s2, c, Answered);
      assert Leave(s2, c).processes == s.processes;
    }
  }

  predicate SameUpToTimes(a: Rows, b: Rows) {
    a.Keys == b.Keys && forall id :: id in a ==>
      a[id].(updatedAt := 0, deletedAt := None) == b[id].(updatedAt := 0, deletedAt := None)
  }

  /** A deletion that crashes after removing the object, then completed by recovery, ends
      with the same stores, up to timestamps, as the deletion left alone. */
  lemma RecoveryFinishesDeletion(h: Hash, s: State, c: nat, m: DocumentMetadata, hard: bool, t: int, u: int)
    requires c !in s.processes && WellKeyed(s.rows) && m.documentId in s.rows && s.rows[m.documentId] == m
    ensures var id, p := m.documentId, m.partition;
            var alone := Run(h, s, DeletionUpToRemoval(c, id, p, hard, t) + Ending(c, t));
            var resumed := Run(h, s, DeletionUpToRemoval(c, id, p, hard, t) + Recovery(c, id, p, hard, u));
            && alone.objects == resumed.objects == s.objects - {m.storageKey}
            && SameUpToTimes(alone.rows, resumed.rows)
            && alone.processes == resumed.processes == s.processes
            && (hard ==> id !in alone.rows)
            && (!hard ==> id in alone.rows && alone.rows[id].status.Deleted? && SameIdentity(m, alone.rows[id]))
  {
    AloneEnds(h, s, c, m, hard, t);
    ResumedEnds(h, s, c, m, hard, t, u);
    EndedSame(Removed(s, m, t), m, WithStatus(m, Deleting, t), hard, t, u);
  }

  lemma AloneEnds(h: Hash, s: State, c: nat, m: DocumentMetadata, hard: bool, t: int)
    requires c !in s.processes && WellKeyed(s.rows) && m.documentId in s.rows && s.rows[m.documentId] == m
    ensures Run(h, s, DeletionUpToRemoval(c, m.documentId, m.partition, hard, t) + Ending(c, t))
            == Ended(Removed(s, m, t), WithStatus(m, Deleting, t), hard, t)
  {
    DeletionRemoves(h, s, c, m, hard, t);
    RunConcat(h, s, DeletionUpToRemoval(c, m.documentId, m.partition, hard, t), Ending(c, t));
    EndingEnds(h, Removed(s, m, t), c, WithStatus(m, Deleting, t), Delete(hard), t);
  }

  lemma ResumedEnds(h: Hash, s: State, c: nat, m: DocumentMetadata, hard: bool, t: int, u: int)
    requires c !in s.processes && WellKeyed(s.rows) && m.documentId in s.rows && s.rows[m.documentId] == m
    ensures var id, p := m.documentId, m.partition;
            Run(h, s, DeletionUpToRemoval(c, id, p, hard, t) + Recovery(c, id, p, hard, u))
            == Ended(Removed(s, m, t), WithStatus(m, Deleting, t), hard, u)
  {
    var id, p, d, r := m.documentId, m.partition, WithStatus(m, Deleting, t), Removed(s, m, t);
    var mid := r.(processes := s.processes[c := Process(id, p, Delete(hard), Finishing(d))]);
    DeletionRemoves(h, s, c, m, hard, t);
    RunConcat(h, s, DeletionUpToRemoval(c, id, p, hard, t), Recovery(c, id, p, hard, u));
    assert mid.processes - {c} == r.processes;
    RecoveryEnds(h, r, mid, c, d, hard, u);
  }

  lemma EndedSame(r: State, m: DocumentMetadata, d: DocumentMetadata, hard: bool, t: int, u: int)
    requires SameIdentity(m, d) && d.documentId in r.rows
    ensures var a, b := Ended(r, d, hard, t), Ended(r, d, hard, u);
            && a.objects == b.objects == r.objects && a.processes == b.processes == r.processes
            && SameUpToTimes(a.rows, b.rows)
            && (hard ==> d.documentId !in a.rows)
            && (!hard ==> d.documentId in a.rows && a.rows[d.documentId].status.Deleted?
                          && SameIdentity(m, a.rows[d.documentId]))
  {
  }

  lemma RecoveryEnds(h: Hash, r: State, mid: State, c: nat, d: DocumentMetadata, hard: bool, now: int)
    requires c !in r.processes && WellKeyed(r.rows) && d.documentId in r.rows && r.rows[d.documentId] == d
    requires d.status.Deleting? && d.storageKey !in r.objects
    requires mid.rows == r.rows && mid.objects == r.objects && mid.processes - {c} == r.processes
    ensures Run(h, mid, Recovery(c, d.documentId, d.partition, hard, now)) == Ended(r, d, hard, now)
  {
    var id, p := d.documentId, d.partition;
    var x0, x := Start(c, id, p, Complete(hard)), Go(c, now);
    var first := [x0] + ([x] + ([x] + []));
    RunFirst(h, mid, Crash(c), [x0] + ([x] + ([x] + Ending(c, now))));
    assert Exec(h, mid, Crash(c)) == r;
    assert [x0] + ([x] + ([x] + Ending(c, now))) == first + Ending(c, now);
    RunConcat(h, r, first, Ending(c, now));
    CompletionAcceptsExactly(h, r, c, id, p, hard, now);
    EndingEnds(h, r, c, d, Complete(hard), now);
  }

  // ---- Uploads up to their save -------------------------------------------------------

  function UploadUpToSave(c: nat, id: string, partition: DocumentPartition, job: Job): seq<Step> {
    [Start(c, id, partition, job)] + ([Go(c, 0)] + ([Go(c, 0)] + []))
  }

  lemma UploadReachesSave(h: Hash, s: State, c: nat, id: string, partition: DocumentPartition, job: Job)
    requires job.Upload? && c !in s.processes && id !in s.rows
    ensures Run(h, s, UploadUpToSave(c, id, partition, job))
            == s.(objects := s.objects[StorageKey(h, partition, id, job.filename) := job.content],
                  processes := s.processes[c := Process(id, partition, job, Saving)])
  {
    var x0, x := Start(c, id, partition, job), Go(c, 0);
    var s1 := Exec(h, s, x0);
    var s2 := Exec(h, s1, x);
    assert s2 == Goto(s1, c, Putting);
    var s3 := Exec(h, s2, x);
    assert s3 == AfterPut(h, s2, c, Answered);
    RunFirst(h, s, x0, [x] + ([x] + []));
    RunFirst(h, s1, x, [x] + []);
    RunFirst(h, s2, x, []);
    assert s3.processes == s.processes[c := Process(id, partition, job, Saving)];
  }
}

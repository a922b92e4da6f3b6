/** The document service refines the step system: every outcome of a deletion is a permitted
    run of one deleting process. */
module DeletionRuns {
  import opened Domain
  import opened Namespaces
  import opened Lifecycle
  import opened LifecycleTheorems
  import opened Runs
  import opened Documents

  /** A deletion that finds no row, or whose reading or marking raises, goes no further. */
  lemma RefusalIsARun(g: Setting, s: Stored, id: string, partition: DocumentPartition, hard: bool, now: int,
                      reply: Reply)
    requires !reply.FailedAfter? && (reply.Answered? ==> Lookup(s.rows, id, partition).None?)
    ensures var steps := [Start(0, id, partition, Delete(hard))] + ([Advance(0, reply, now)] + []);
            RunOf(g.h, s, id, partition, Delete(hard), steps, s) && Allowed(g, s, id, partition, steps)
  {
    var rest := [Advance(0, reply, now)] + [];
    var s1 := Started(s, id, partition, Delete(hard), Reading);
    RunStarted(g.h, s, id, partition, Delete(hard), rest);
    RunFirst(g.h, s1, Advance(0, reply, now), []);
    Moves(s, id, partition, Delete(hard), Reading, Reading);
    assert Exec(g.h, s1, Advance(0, reply, now)) == AfterRead(s1, 0, reply);
    CalmAllowed(g, s, id, partition, Delete(hard), rest);
  }

  /** The row marked and the object removed. */
  function Emptied(s: Stored, m: DocumentMetadata, now: int): Stored {
    Stored(s.rows[m.documentId := WithStatus(m, Deleting, now)], s.objects - {m.storageKey})
  }

  lemma UpToRemovalIsARun(g: Setting, s: Stored, m: DocumentMetadata, hard: bool, now: int)
    requires m.documentId in s.rows && s.rows[m.documentId] == m
    ensures var id, p := m.documentId, m.partition;
            var steps := DeletionUpToRemoval(0, id, p, hard, now);
            && OneProcess(steps, id, p, Delete(hard)) && Allowed(g, s, id, p, steps)
            && Run(g.h, Idle(s), steps)
               == Started(Emptied(s, m, now), id, p, Delete(hard), Finishing(WithStatus(m, Deleting, now)))
  {
    var id, p, x := m.documentId, m.partition, Go(0, now);
    DeletionRemoves(g.h, Idle(s), 0, m, hard, now);
    CalmAllowed(g, s, id, p, Delete(hard), [x] + ([x] + ([x] + [])));
  }

  /** One that nothing disturbs ends with the row removed or marked DELETED. */
  lemma DoneIsARun(g: Setting, s: Stored, m: DocumentMetadata, hard: bool, now: int)
    requires WellKeyed(s.rows) && m.documentId in s.rows && s.rows[m.documentId] == m
    ensures var id, p := m.documentId, m.partition;
            var steps := DeletionUpToRemoval(0, id, p, hard, now) + Ending(0, now);
            RunOf(g.h, s, id, p, Delete(hard), steps, Gone(s, m, hard, now)) && Allowed(g, s, id, p, steps)
  {
    var id, p, d := m.documentId, m.partition, WithStatus(m, Deleting, now);
    var up := DeletionUpToRemoval(0, id, p, hard, now);
    UpToRemovalIsARun(g, s, m, hard, now);
    RunConcat(g.h, Idle(s), up, Ending(0, now));
    DoneEnds(g.h, s, m, hard, now);
    OneProcessAppends(up, Ending(0, now), id, p, Delete(hard));
    PermittedConcat(g, Idle(s), up, Ending(0, now));
    CalmPermitted(g, Run(g.h, Idle(s), up), Ending(0, now));
  }

  lemma DoneEnds(h: Hash, s: Stored, m: DocumentMetadata, hard: bool, now: int)
    requires WellKeyed(s.rows) && m.documentId in s.rows && s.rows[m.documentId] == m
    ensures var d := WithStatus(m, Deleting, now);
            Run(h, Started(Emptied(s, m, now), m.documentId, m.partition, Delete(hard), Finishing(d)), Ending(0, now))
            == Idle(Gone(s, m, hard, now))
  {
    var id, d := m.documentId, WithStatus(m, Deleting, now);
    EndingEnds(h, Idle(Emptied(s, m, now)), 0, d, Delete(hard), now);
    assert s.rows[id := d] - {id} == s.rows - {id};
    assert WithStatus(d, Deleted, now) == WithStatus(m, Deleted, now);
  }

  /** One whose last write raises stops with the row DELETING and the object gone. */
  lemma StoppedIsARun(g: Setting, s: Stored, m: DocumentMetadata, hard: bool, now: int)
    requires m.documentId in s.rows && s.rows[m.documentId] == m
    ensures var id, p := m.documentId, m.partition;
            var steps := DeletionUpToRemoval(0, id, p, hard, now) + ([Advance(0, FailedBefore, now)] + []);
            RunOf(g.h, s, id, p, Delete(hard), steps, Emptied(s, m, now)) && Allowed(g, s, id, p, steps)
  {
    var id, p, d := m.documentId, m.partition, WithStatus(m, Deleting, now);
    var up, x := DeletionUpToRemoval(0, id, p, hard, now), Advance(0, FailedBefore, now);
    var mid := Started(Emptied(s, m, now), id, p, Delete(hard), Finishing(d));
    UpToRemovalIsARun(g, s, m, hard, now);
    RunConcat(g.h, Idle(s), up, [x] + []);
    RunFirst(g.h, mid, x, []);
    Moves(Emptied(s, m, now), id, p, Delete(hard), Finishing(d), Finishing(d));
    assert Exec(g.h, mid, x) == AfterFinish(mid, 0, FailedBefore);
    OneProcessAppends(up, [x] + [], id, p, Delete(hard));
    PermittedConcat(g, Idle(s), up, [x] + []);
    CalmPermitted(g, mid, [x] + []);
  }

  function UpToMark(id: string, partition: DocumentPartition, hard: bool, now: int): seq<Step> {
    [Start(0, id, partition, Delete(hard))] + ([Go(0, now)] + ([Go(0, now)] + []))
  }

  lemma UpToMarkIsARun(g: Setting, s: Stored, m: DocumentMetadata, hard: bool, now: int)
    requires m.documentId in s.rows && s.rows[m.documentId] == m
    ensures var id, p, d := m.documentId, m.partition, WithStatus(m, Deleting, now);
            && Run(g.h, Idle(s), UpToMark(id, p, hard, now))
               == Started(s.(rows := s.rows[id := d]), id, p, Delete(hard), Removing(d))
            && Allowed(g, s, id, p, UpToMark(id, p, hard, now))
  {
    var id, p, d, x := m.documentId, m.partition, WithStatus(m, Deleting, now), Go(0, now);
    var s1, s2 := Started(s, id, p, Delete(hard), Reading), Started(s, id, p, Delete(hard), Marking(m));
    var marked := s.(rows := s.rows[id := d]);
    RunStarted(g.h, s, id, p, Delete(hard), [x] + ([x] + []));
    RunFirst(g.h, s1, x, [x] + []);
    RunFirst(g.h, s2, x, []);
    Moves(s, id, p, Delete(hard), Reading, Marking(m));
    Moves(marked, id, p, Delete(hard), Marking(m), Removing(d));
    assert Exec(g.h, s1, x) == AfterRead(s1, 0, Answered);
    assert Exec(g.h, s2, x) == AfterMark(s2, 0, Answered, now);
    CalmAllowed(g, s, id, p, Delete(hard), [x] + ([x] + []));
  }

  lemma RemovalFails(h: Hash, s: Stored, d: DocumentMetadata, hard: bool, now: int, removal: Reply, mark: Reply)
    requires d.documentId in s.rows && s.rows[d.documentId] == d && !removal.Answered?
    ensures var id := d.documentId;
            Run(h, Started(s, id, d.partition, Delete(hard), Removing(d)),
                [Advance(0, removal, now)] + ([Advance(0, mark, now)] + []))
            == Idle(Stored(if mark.FailedBefore? then s.rows
                           else s.rows[id := WithStatus(d, DocumentStatus.Failed, now)],
                           if removal.FailedBefore? then s.objects else s.objects - {d.storageKey}))
  {
    var x, y := Advance(0, removal, now), Advance(0, mark, now);
    var s1 := Started(s, d.documentId, d.partition, Delete(hard), Removing(d));
    var s2 := Exec(h, s1, x);
    assert s2 == AfterRemove(s1, 0, removal);
    var s3 := Exec(h, s2, y);
    assert s3 == AfterWrite(s2, 0, d, DocumentStatus.Failed, mark, now);
    assert s3.processes == map[];
    RunFirst(h, s1, x, [y] + []);
    RunFirst(h, s2, y, []);
  }

  /** One whose removal raises tries to mark the row FAILED; either call may have taken effect. */
  lemma FailedIsARun(g: Setting, s: Stored, m: DocumentMetadata, hard: bool, now: int, removal: Reply, mark: Reply)
    requires m.documentId in s.rows && s.rows[m.documentId] == m && !removal.Answered? && !mark.FailedAfter?
    ensures var id, p, d := m.documentId, m.partition, WithStatus(m, Deleting, now);
            var steps := UpToMark(id, p, hard, now) + ([Advance(0, removal, now)] + ([Advance(0, mark, now)] + []));
            && RunOf(g.h, s, id, p, Delete(hard), steps,
                     Stored(s.rows[id := if mark.FailedBefore? then d else WithStatus(d, DocumentStatus.Failed, now)],
                            if removal.FailedBefore? then s.objects else s.objects - {m.storageKey}))
            && Allowed(g, s, id, p, steps)
  {
    var id, p, d := m.documentId, m.partition, WithStatus(m, Deleting, now);
    var up, rest := UpToMark(id, p, hard, now), [Advance(0, removal, now)] + ([Advance(0, mark, now)] + []);
    var marked := s.(rows := s.rows[id := d]);
    UpToMarkIsARun(g, s, m, hard, now);
    RunConcat(g.h, Idle(s), up, rest);
    RemovalFails(g.h, marked, d, hard, now, removal, mark);
    assert marked.rows[id := WithStatus(d, DocumentStatus.Failed, now)]
           == s.rows[id := WithStatus(d, DocumentStatus.Failed, now)];
    OneProcessAppends(up, rest, id, p, Delete(hard));
    PermittedConcat(g, Idle(s), up, rest);
    LatePermitted(g, Started(marked, id, p, Delete(hard), Removing(d)), removal, now, [Advance(0, mark, now)] + []);
  }

  /** Whatever a deletion did and wherever it stopped, one deleting process of the step system
      has a permitted run that does the same: the service adds no behaviour of its own. */
  lemma DeletionIsARun(g: Setting, id: string, partition: DocumentPartition, hard: bool, now: int,
                       a: Stored, b: Stored, raised: bool, r: Result<DeleteResult, DeleteError>)
    returns (steps: seq<Step>)
    requires WellKeyed(a.rows) && DeletionEnded(id, partition, hard, now, a, b, raised, r)
    ensures RunOf(g.h, a, id, partition, Delete(hard), steps, b) && Allowed(g, a, id, partition, steps)
    ensures r.Ok? ==> steps == DeletionUpToRemoval(0, id, partition, hard, now) + Ending(0, now)
  {
    if r == Err(DocumentNotFound) || r == Err(StoreFailure) {
      var reply := if r == Err(DocumentNotFound) then Answered else FailedBefore;
      RefusalIsARun(g, a, id, partition, hard, now, reply);
      steps := [Start(0, id, partition, Delete(hard))] + ([Advance(0, reply, now)] + []);
    } else if r.Ok? {
      DoneIsARun(g, a, a.rows[id], hard, now);
      steps := DeletionUpToRemoval(0, id, partition, hard, now) + Ending(0, now);
    } else if r == Err(Inconsistent) {
      StoppedIsARun(g, a, a.rows[id], hard, now);
      steps := DeletionUpToRemoval(0, id, partition, hard, now) + ([Advance(0, FailedBefore, now)] + []);
    } else {
      var removal := if b.objects == a.objects then FailedBefore else FailedAfter;
      var mark := if b.rows == a.rows[id := WithStatus(a.rows[id], Deleting, now)] then FailedBefore else Answered;
      FailedIsARun(g, a, a.rows[id], hard, now, removal, mark);
      steps := UpToMark(id, partition, hard, now) + ([Advance(0, removal, now)] + ([Advance(0, mark, now)] + []));
    }
  }
}

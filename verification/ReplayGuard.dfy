/** A replay decided on a record that was read as FAILED. Two clients read a FAILED record, one
    wins the guarded update, and the other goes on with the record as it read it: it answers
    with the row under the record's id, which may be another upload's. */
module ReplayGuard {
  import opened Domain
  import opened ClaimProtocol
  import opened ClaimTheorems

  function Go(c: nat): Step {
    Advance(c, Answered, 0)
  }

  lemma RunFirst(fp: Fingerprinter, s: State, x: Step, rest: seq<Step>)
    ensures Run(fp, s, [x] + rest) == Run(fp, Exec(fp, s, x), rest)
  {
    assert ([x] + rest)[1..] == rest;
  }

  lemma {:induction false} RunConcat(fp: Fingerprinter, s: State, a: seq<Step>, b: seq<Step>)
    ensures Run(fp, s, a + b) == Run(fp, Run(fp, s, a), b)
    decreases |a|
  {
    if a == [] {
      assert a + b == b;
    } else {
      assert (a + b)[1..] == a[1..] + b;
      RunConcat(fp, Exec(fp, s, a[0]), a[1..], b);
    }
  }

  // ---- The run, in three parts ---------------------------------------------------

  /** A foreign row takes the id; client 0 claims the key, meets the duplicate check and marks FAILED. */
  function FirstAttempt(r: Request, row: DocumentMetadata): seq<Step> {
    [OtherInsert(row)] + ([Start(0, r, row.documentId)] + ([Go(0)] + ([Go(0)] + ([Go(0)] + []))))
  }

  /** A retry gets as far as reading the FAILED record. */
  function Retry(c: nat, r: Request, id: string): seq<Step> {
    [Start(c, r, id)] + ([Go(c)] + ([Go(c)] + []))
  }

  /** Client 1 wins the update, client 2 loses it and reads the row. */
  function Race(): seq<Step> {
    [Go(1)] + ([Go(2)] + ([Go(2)] + []))
  }

  function LostRace(r: Request, row: DocumentMetadata): seq<Step> {
    FirstAttempt(r, row) + (Retry(1, r, row.documentId) + (Retry(2, r, row.documentId) + Race()))
  }

  /** One record, one row, and these clients and results of one request. */
  function OneRecord(r: Request, record: Operation, row: DocumentMetadata, clients: map<nat, Client>,
                     results: seq<Outcome>): State
  {
    State(map[r.key := record], map[row.documentId := row], clients, results, {r.payload})
  }

  predicate AsksFor(r: Request, row: DocumentMetadata) {
    r.payload.documentId == Some(row.documentId) && r.payload.partition == row.partition
  }

  lemma FirstAttemptFails(fp: Fingerprinter, r: Request, row: DocumentMetadata)
    requires AsksFor(r, row)
    ensures Run(fp, INITIAL, FirstAttempt(r, row))
            == OneRecord(r, Operation(fp(r.payload), row.documentId, OperationState.Failed), row, map[], [])
  {
    var id := row.documentId;
    var s1 := Exec(fp, INITIAL, OtherInsert(row));
    var s2 := Exec(fp, s1, Start(0, r, id));
    var s3 := Exec(fp, s2, Go(0));
    assert s3 == AfterInsert(fp, s2, 0, Answered);
    var s4 := Exec(fp, s3, Go(0));
    assert s4 == AfterCheck(s3, 0, Answered) == Goto(s3, 0, MarkingFailed(id));
    var s5 := Exec(fp, s4, Go(0));
    assert s5 == AfterMarkFailed(s4, 0, Answered);
    assert s5.clients == map[] && s5.started == {r.payload};
    RunFirst(fp, INITIAL, OtherInsert(row), [Start(0, r, id)] + ([Go(0)] + ([Go(0)] + ([Go(0)] + []))));
    RunFirst(fp, s1, Start(0, r, id), [Go(0)] + ([Go(0)] + ([Go(0)] + [])));
    RunFirst(fp, s2, Go(0), [Go(0)] + ([Go(0)] + []));
    RunFirst(fp, s3, Go(0), [Go(0)] + []);
    RunFirst(fp, s4, Go(0), []);
  }

  lemma RetryReads(fp: Fingerprinter, s: State, c: nat, r: Request, id: string)
    requires c !in s.clients && r.key in s.operations && r.payload in s.started
    requires s.operations[r.key] == Operation(fp(r.payload), id, OperationState.Failed)
    ensures Run(fp, s, Retry(c, r, id)) == s.(clients := s.clients[c := Client(r, Reclaiming(s.operations[r.key]))])
  {
    var s1 := Exec(fp, s, Start(c, r, id));
    var s2 := Exec(fp, s1, Go(c));
    assert s2 == AfterInsert(fp, s1, c, Answered) == Goto(s1, c, Selecting);
    var s3 := Exec(fp, s2, Go(c));
    assert s3 == AfterSelect(fp, s2, c, Answered) == Goto(s2, c, Reclaiming(s.operations[r.key]));
    assert s.started + {r.payload} == s.started;
    RunFirst(fp, s, Start(c, r, id), [Go(c)] + ([Go(c)] + []));
    RunFirst(fp, s1, Go(c), [Go(c)] + []);
    RunFirst(fp, s2, Go(c), []);
  }

  lemma LoserAnswers(fp: Fingerprinter, r: Request, row: DocumentMetadata)
    requires AsksFor(r, row)
    ensures var failed := Operation(fp(r.payload), row.documentId, OperationState.Failed);
            var waiting := Client(r, Reclaiming(failed));
            Run(fp, OneRecord(r, failed, row, map[1 := waiting, 2 := waiting], []), Race())
            == OneRecord(r, failed.(state := Pending), row, map[1 := Client(r, Checking(row.documentId))],
                         [Outcome(r.key, r.payload, row, false, OperationState.Failed)])
  {
    var failed := Operation(fp(r.payload), row.documentId, OperationState.Failed);
    var waiting := Client(r, Reclaiming(failed));
    var s := OneRecord(r, failed, row, map[1 := waiting, 2 := waiting], []);
    var s1 := Exec(fp, s, Go(1));
    assert s1 == AfterReclaim(s, 1, Answered);
    var s2 := Exec(fp, s1, Go(2));
    assert s2 == AfterReclaim(s1, 2, Answered) == Goto(s1, 2, Reading(failed));
    var s3 := Exec(fp, s2, Go(2));
    assert s3 == AfterRead(s2, 2, Answered);
    assert s3.clients == map[1 := Client(r, Checking(row.documentId))];
    RunFirst(fp, s, Go(1), [Go(2)] + ([Go(2)] + []));
    RunFirst(fp, s1, Go(2), [Go(2)] + []);
    RunFirst(fp, s2, Go(2), []);
  }

  /** For every fingerprinter, and with a single payload ever started: the loser of the race gets
      the foreign row as its own success, under a key that has not succeeded. */
  lemma LostRaceShowsOtherDocument(fp: Fingerprinter, r: Request, row: DocumentMetadata)
    requires AsksFor(r, row) && !Describes(r.payload, row)
    ensures var e := Run(fp, INITIAL, LostRace(r, row));
            && e.started == {r.payload} && CollisionFree(fp, e.started)
            && e.results == [Outcome(r.key, r.payload, row, false, OperationState.Failed)]
            && !Describes(e.results[0].payload, e.results[0].metadata)
            && r.key in e.operations && e.operations[r.key].state.Pending?
  {
    var id := row.documentId;
    var failed := Operation(fp(r.payload), id, OperationState.Failed);
    var waiting := Client(r, Reclaiming(failed));
    var s1 := OneRecord(r, failed, row, map[], []);
    var s2 := OneRecord(r, failed, row, map[1 := waiting], []);
    var s3 := OneRecord(r, failed, row, map[1 := waiting, 2 := waiting], []);
    FirstAttemptFails(fp, r, row);
    RetryReads(fp, s1, 1, r, id);
    RetryReads(fp, s2, 2, r, id);
    assert s2.clients[2 := waiting] == s3.clients;
    LoserAnswers(fp, r, row);
    RunConcat(fp, INITIAL, FirstAttempt(r, row), Retry(1, r, id) + (Retry(2, r, id) + Race()));
    RunConcat(fp, s1, Retry(1, r, id), Retry(2, r, id) + Race());
    RunConcat(fp, s2, Retry(2, r, id), Race());
  }

  // ---- The exact guard -------------------------------------------------------------

  /** Result `i` of a run without collisions describes its request if it was decided on `state`. */
  ghost predicate Describing(fp: Fingerprinter, steps: seq<Step>, i: nat, state: OperationState) {
    var e := Run(fp, INITIAL, steps);
    i < |e.results| && CollisionFree(fp, e.started) && e.results[i].seen == state ==>
      Describes(e.results[i].payload, e.results[i].metadata)
  }

  /** Reading the record as `state` makes every replay describe its request, in all runs, if and
      only if `state` is not FAILED: PENDING is refused already, SUCCEEDED is safe. */
  lemma GuardIsExact(fp: Fingerprinter, state: OperationState)
    ensures (forall steps: seq<Step>, i: nat :: Describing(fp, steps, i, state)) <==> !state.Failed?
  {
    if state.Failed? {
      var partition := DocumentPartition(Personal, "p");
      var row := DocumentMetadata("x", "other", "", 0, "", Available, 0, 0, partition, None, None);
      var r := Request(OperationKey("", ""), Payload("", "mine", "", 0, Some("x"), partition), "", "");
      LostRaceShowsOtherDocument(fp, r, row);
      assert !Describing(fp, LostRace(r, row), 0, state);
    } else {
      forall steps: seq<Step>, i: nat ensures Describing(fp, steps, i, state) {
        var e := Run(fp, INITIAL, steps);
        if i < |e.results| && CollisionFree(fp, e.started) && e.results[i].seen == state {
          DecidedOn(fp, steps, i);
          ReplayDescribesTheRequest(fp, steps, i);
        }
      }
    }
  }
}

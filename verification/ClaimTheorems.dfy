/** What the claim protocol guarantees over whole runs. */
module ClaimTheorems {
  import opened Domain
  import opened ClaimProtocol

  /** The moves a record's state may make. */
  predicate Allowed(before: OperationState, after: OperationState) {
    before == after
    || (before.Pending? && (after.Succeeded? || after.Failed?))
    || (before.Failed? && after.Pending?)
  }

  predicate SameClaim(before: Operation, after: Operation) {
    before.fingerprint == after.fingerprint && before.documentId == after.documentId
  }

  /** One step neither drops nor rewrites a record: only its state moves, and only as allowed. */
  lemma StepMovesStates(fp: Fingerprinter, s: State, step: Step, k: OperationKey)
    requires Inv(fp, s) && k in s.operations
    ensures var after := Exec(fp, s, step).operations;
            k in after && SameClaim(s.operations[k], after[k]) && Allowed(s.operations[k].state, after[k].state)
  {
    if step.Advance? && step.c in s.clients && s.clients[step.c].phase.MarkingFailed? {
      assert Exec(fp, s, step) == AfterMarkFailed(s, step.c, step.reply);
    }
  }

  lemma StepKeepsRows(fp: Fingerprinter, s: State, step: Step, id: string)
    requires WellKeyed(s.rows) && id in s.rows
    ensures id in Exec(fp, s, step).rows && SameIdentity(s.rows[id], Exec(fp, s, step).rows[id])
  {
  }

  lemma StepAppendsResults(fp: Fingerprinter, s: State, step: Step)
    ensures s.results <= Exec(fp, s, step).results
  {
  }

  /** A record keeps its fingerprint and document id for ever, and SUCCEEDED is final. */
  lemma {:induction false} RecordsAreForever(fp: Fingerprinter, s: State, steps: seq<Step>, k: OperationKey)
    requires Inv(fp, s) && k in s.operations
    ensures var after := Run(fp, s, steps).operations;
            && k in after && SameClaim(s.operations[k], after[k])
            && (s.operations[k].state.Succeeded? ==> after[k].state.Succeeded?)
    decreases |steps|
  {
    if steps != [] {
      StepMovesStates(fp, s, steps[0], k);
      StepKeeps(fp, s, steps[0]);
      RecordsAreForever(fp, Exec(fp, s, steps[0]), steps[1..], k);
    }
  }

  /** Whatever was returned stays returned: the results of a run begin with those of any prefix. */
  lemma {:induction false} ResultsOnlyGrow(fp: Fingerprinter, s: State, steps: seq<Step>)
    ensures s.results <= Run(fp, s, steps).results
    decreases |steps|
  {
    if steps != [] {
      StepAppendsResults(fp, s, steps[0]);
      ResultsOnlyGrow(fp, Exec(fp, s, steps[0]), steps[1..]);
    }
  }

  lemma ReachableInv(fp: Fingerprinter, steps: seq<Step>)
    ensures Inv(fp, Run(fp, INITIAL, steps))
  {
    RunKeeps(fp, INITIAL, steps);
  }

  /** Mutual exclusion: between `claimed=True` and its mark a key has at most one live
      owner, and while it uploads the record is PENDING under the owner's own id. */
  lemma AtMostOneOwner(fp: Fingerprinter, steps: seq<Step>, c: nat, d: nat)
    requires var s := Run(fp, INITIAL, steps);
             && c in s.clients && d in s.clients && s.clients[c].Owns() && s.clients[d].Owns()
             && s.clients[c].request.key == s.clients[d].request.key
    ensures c == d
    ensures var s := Run(fp, INITIAL, steps);
            s.clients[c].request.key in s.operations &&
            var o := s.operations[s.clients[c].request.key];
            && o.documentId == s.clients[c].phase.documentId
            && o.fingerprint == fp(s.clients[c].request.payload)
            && (!s.clients[c].phase.MarkingFailed? ==> o.state.Pending?)
  {
    ReachableInv(fp, steps);
  }

  /** All results for one key name the same document, and only one of them created it. */
  lemma OneDocumentPerKey(fp: Fingerprinter, steps: seq<Step>, i: nat, j: nat)
    requires var rs := Run(fp, INITIAL, steps).results; i < j < |rs| && rs[i].key == rs[j].key
    ensures var rs := Run(fp, INITIAL, steps).results;
            && rs[i].metadata.documentId == rs[j].metadata.documentId
            && fp(rs[i].payload) == fp(rs[j].payload)
            && !(rs[i].created && rs[j].created)
  {
    ReachableInv(fp, steps);
  }

  /** A SUCCEEDED record has a metadata row under its id, in the partition, and with the
      filename, content type and size, of a request that its fingerprint was built from. */
  lemma SucceededHasItsRow(fp: Fingerprinter, steps: seq<Step>, k: OperationKey) returns (u: Payload)
    requires var s := Run(fp, INITIAL, steps); k in s.operations && s.operations[k].state.Succeeded?
    ensures var s := Run(fp, INITIAL, steps);
            var o := s.operations[k];
            && u in s.started && fp(u) == o.fingerprint
            && o.documentId in s.rows
            && s.rows[o.documentId].documentId == o.documentId
            && s.rows[o.documentId].originalFilename == u.filename && s.rows[o.documentId].contentType == u.contentType
            && s.rows[o.documentId].fileSize == u.size && s.rows[o.documentId].partition == u.partition
            && Describes(u, s.rows[o.documentId])
  {
    ReachableInv(fp, steps);
    var s := Run(fp, INITIAL, steps);
    var o := s.operations[k];
    assert BuiltFrom(fp, s.started, o.fingerprint, s.rows[o.documentId]);
    u :| u in s.started && fp(u) == o.fingerprint && Describes(u, s.rows[o.documentId]);
  }

  /** No two requests of the run collide. (Injectivity on every possible payload would
      contradict a fixed-length digest, so only the payloads actually used are compared.) */
  ghost predicate CollisionFree(fp: Fingerprinter, started: set<Payload>) {
    forall u, v :: u in started && v in started && fp(u) == fp(v) ==>
      u.filename == v.filename && u.contentType == v.contentType && u.size == v.size && u.partition == v.partition
  }

  // ---- What a replayed result shows --------------------------------------------

  /** Whoever reads a row has read its record as SUCCEEDED, or as FAILED and then lost the guarded update. */
  ghost predicate NeverPending(s: State) {
    && (forall c :: c in s.clients && s.clients[c].phase.Reclaiming? ==> s.clients[c].phase.seen.state.Failed?)
    && (forall c :: c in s.clients && s.clients[c].phase.Reading? ==> !s.clients[c].phase.seen.state.Pending?)
    && forall i :: 0 <= i < |s.results| ==> !s.results[i].seen.Pending?
  }

  /** A returned row is still the row of its document. */
  ghost predicate ShownStays(s: State) {
    forall i :: 0 <= i < |s.results| ==>
      var m := s.results[i].metadata;
      m.documentId in s.rows && SameIdentity(m, s.rows[m.documentId])
  }

  lemma StepShows(fp: Fingerprinter, s: State, step: Step)
    requires Inv(fp, s) && NeverPending(s) && ShownStays(s)
    ensures NeverPending(Exec(fp, s, step)) && ShownStays(Exec(fp, s, step))
  {
    if step.Advance? && step.c in s.clients {
      AdvanceSees(fp, s, step.c, step.reply, step.now);
      AdvanceShows(fp, s, step.c, step.reply, step.now);
    } else {
      OthersShow(fp, s, step);
    }
  }

  lemma OthersShow(fp: Fingerprinter, s: State, step: Step)
    requires Inv(fp, s) && NeverPending(s) && ShownStays(s)
    requires step.Advance? ==> step.c !in s.clients
    ensures NeverPending(Exec(fp, s, step)) && ShownStays(Exec(fp, s, step))
  {
  }

  lemma AdvanceShows(fp: Fingerprinter, s: State, c: nat, reply: Reply, now: int)
    requires Inv(fp, s) && ShownStays(s) && c in s.clients
    ensures ShownStays(AdvanceClient(fp, s, c, reply, now))
  {
    if s.clients[c].phase.Reading? || s.clients[c].phase.MarkingSucceeded? {
      AnswerShows(fp, s, c, reply, now);
    } else {
      RowsShown(s, AdvanceClient(fp, s, c, reply, now));
    }
  }

  /** Rows keep their identity, and nothing new is shown. */
  lemma RowsShown(s: State, s': State)
    requires ShownStays(s) && s'.results == s.results
    requires forall id :: id in s.rows ==> id in s'.rows && SameIdentity(s.rows[id], s'.rows[id])
    ensures ShownStays(s')
  {
  }

  lemma AnswerShows(fp: Fingerprinter, s: State, c: nat, reply: Reply, now: int)
    requires WellKeyed(s.rows) && ShownStays(s) && c in s.clients
    requires s.clients[c].phase.Reading? || s.clients[c].phase.MarkingSucceeded?
    ensures ShownStays(AdvanceClient(fp, s, c, reply, now))
  {
    var s' := AdvanceClient(fp, s, c, reply, now);
    if s.clients[c].phase.Reading? {
      assert s' == AfterRead(s, c, reply);
    } else {
      assert s' == AfterMarkSucceeded(s, c, reply);
    }
  }

  lemma AdvanceSees(fp: Fingerprinter, s: State, c: nat, reply: Reply, now: int)
    requires NeverPending(s) && c in s.clients
    ensures NeverPending(AdvanceClient(fp, s, c, reply, now))
  {
    var s' := AdvanceClient(fp, s, c, reply, now);
    match s.clients[c].phase
    case Inserting(_) => assert s' == AfterInsert(fp, s, c, reply);
    case Selecting => assert s' == AfterSelect(fp, s, c, reply);
    case Reclaiming(_) => assert s' == AfterReclaim(s, c, reply);
    case Reading(_) => assert s' == AfterRead(s, c, reply);
    case MarkingSucceeded(_) => assert s' == AfterMarkSucceeded(s, c, reply);
    case _ => OwnerSees(fp, s, c, reply, now);
  }

  lemma OwnerSees(fp: Fingerprinter, s: State, c: nat, reply: Reply, now: int)
    requires NeverPending(s) && c in s.clients && s.clients[c].Owns() && !s.clients[c].phase.MarkingSucceeded?
    ensures NeverPending(AdvanceClient(fp, s, c, reply, now))
  {
  }

  lemma {:induction false} RunShows(fp: Fingerprinter, s: State, steps: seq<Step>)
    requires Inv(fp, s) && NeverPending(s) && ShownStays(s)
    ensures NeverPending(Run(fp, s, steps)) && ShownStays(Run(fp, s, steps))
    decreases |steps|
  {
    if steps != [] {
      StepShows(fp, s, steps[0]);
      StepKeeps(fp, s, steps[0]);
      RunShows(fp, Exec(fp, s, steps[0]), steps[1..]);
    }
  }

  /** Every result was decided on a record read as SUCCEEDED, or on one read as FAILED, and
      then it did not create the document. */
  lemma DecidedOn(fp: Fingerprinter, steps: seq<Step>, i: nat)
    requires i < |Run(fp, INITIAL, steps).results|
    ensures var o := Run(fp, INITIAL, steps).results[i]; o.seen.Succeeded? || (o.seen.Failed? && !o.created)
  {
    ReachableInv(fp, steps);
    RunShows(fp, INITIAL, steps);
  }

  /** Replay: a result decided on a SUCCEEDED record, or whose key has succeeded by the end of
      the run, shows the caller metadata that describes the caller's own request, whoever
      created the document. */
  lemma ReplayDescribesTheRequest(fp: Fingerprinter, steps: seq<Step>, i: nat)
    requires i < |Run(fp, INITIAL, steps).results|
    requires CollisionFree(fp, Run(fp, INITIAL, steps).started)
    ensures var s := Run(fp, INITIAL, steps);
            var o := s.results[i];
            && o.key in s.operations
            && (o.seen.Succeeded? ==> s.operations[o.key].state.Succeeded?)
            && (s.operations[o.key].state.Succeeded? ==>
                  && o.metadata.originalFilename == o.payload.filename
                  && o.metadata.contentType == o.payload.contentType
                  && o.metadata.fileSize == o.payload.size && o.metadata.partition == o.payload.partition
                  && Describes(o.payload, o.metadata))
  {
    ReachableInv(fp, steps);
    RunShows(fp, INITIAL, steps);
    var s := Run(fp, INITIAL, steps);
    var o := s.results[i];
    if s.operations[o.key].state.Succeeded? {
      var row := s.rows[o.metadata.documentId];
      assert BuiltFrom(fp, s.started, fp(o.payload), row);
      var u :| u in s.started && fp(u) == fp(o.payload) && Describes(u, row);
      assert o.payload in s.started;
    }
  }

  // ---- What the protocol does not give ---------------------------------------

  /** A PENDING record that no live client owns: its owner vanished before marking it. */
  ghost predicate Abandoned(s: State, k: OperationKey) {
    k in s.operations && s.operations[k].state.Pending?
    && forall c :: c in s.clients && s.clients[c].Owns() ==> s.clients[c].request.key != k
  }

  lemma AbandonedStaysPending(fp: Fingerprinter, s: State, step: Step, k: OperationKey)
    requires Inv(fp, s) && Abandoned(s, k)
    ensures k in Exec(fp, s, step).operations && Exec(fp, s, step).operations[k] == s.operations[k]
  {
    if step.Advance? && step.c in s.clients && s.clients[step.c].phase.Reclaiming? {
      assert Exec(fp, s, step) == AfterReclaim(s, step.c, step.reply);
    } else if step.Advance? && step.c in s.clients && s.clients[step.c].phase.MarkingFailed? {
      assert Exec(fp, s, step) == AfterMarkFailed(s, step.c, step.reply);
    }
  }

  lemma AbandonedMove(fp: Fingerprinter, s: State, c: nat, reply: Reply, now: int, k: OperationKey)
    requires Inv(fp, s) && Abandoned(s, k) && c in s.clients && c in AdvanceClient(fp, s, c, reply, now).clients
    ensures var cl := AdvanceClient(fp, s, c, reply, now).clients[c];
            cl.Owns() ==> cl.request.key != k
  {
    var s' := AdvanceClient(fp, s, c, reply, now);
    match s.clients[c].phase
    case Inserting(_) => assert s' == AfterInsert(fp, s, c, reply);
    case Selecting => assert s' == AfterSelect(fp, s, c, reply);
    case Reclaiming(_) => assert s' == AfterReclaim(s, c, reply);
    case Reading(_) =>
    case _ =>
      assert s.clients[c].Owns();
      OwnersKeepTheirRequest(fp, s, c, reply, now);
  }

  lemma OwnersKeepTheirRequest(fp: Fingerprinter, s: State, c: nat, reply: Reply, now: int)
    requires c in s.clients && s.clients[c].Owns() && c in AdvanceClient(fp, s, c, reply, now).clients
    ensures AdvanceClient(fp, s, c, reply, now).clients[c].request == s.clients[c].request
  {
  }

  lemma AbandonedStep(fp: Fingerprinter, s: State, step: Step, k: OperationKey)
    requires Inv(fp, s) && Abandoned(s, k)
    ensures Abandoned(Exec(fp, s, step), k)
  {
    AbandonedStaysPending(fp, s, step, k);
    var s' := Exec(fp, s, step);
    forall c | c in s'.clients && s'.clients[c].Owns() ensures s'.clients[c].request.key != k {
      if step.Advance? && step.c == c {
        AbandonedMove(fp, s, c, step.reply, step.now, k);
      } else {
        StepMovesOneClient(fp, s, step, c);
      }
    }
  }

  /** There is no takeover: such a record stays PENDING and ownerless in every continuation. */
  lemma {:induction false} AbandonedForever(fp: Fingerprinter, s: State, steps: seq<Step>, k: OperationKey)
    requires Inv(fp, s) && Abandoned(s, k)
    ensures Abandoned(Run(fp, s, steps), k)
    decreases |steps|
  {
    if steps != [] {
      AbandonedStep(fp, s, steps[0], k);
      StepKeeps(fp, s, steps[0]);
      AbandonedForever(fp, Exec(fp, s, steps[0]), steps[1..], k);
    }
  }

  /** The record has not succeeded, yet a row already holds its document id, and whoever
      owns the key has not got past the duplicate check with that id. */
  ghost predicate Poisoned(s: State, k: OperationKey) {
    k in s.operations && !s.operations[k].state.Succeeded? && s.operations[k].documentId in s.rows
    && forall c :: c in s.clients && s.clients[c].Owns() && s.clients[c].request.key == k ==>
         s.clients[c].phase.Checking? || s.clients[c].phase.Cleaning? || s.clients[c].phase.MarkingFailed?
  }

  /** Only an owner marking its success makes a record SUCCEEDED. */
  lemma OnlyOwnersSucceed(fp: Fingerprinter, s: State, step: Step, k: OperationKey)
    requires Inv(fp, s) && k in s.operations && !s.operations[k].state.Succeeded?
    requires forall c :: c in s.clients && s.clients[c].phase.MarkingSucceeded? ==> s.clients[c].request.key != k
    ensures k in Exec(fp, s, step).operations && !Exec(fp, s, step).operations[k].state.Succeeded?
  {
    if step.Advance? && step.c in s.clients && s.clients[step.c].phase.MarkingFailed? {
      assert Exec(fp, s, step) == AfterMarkFailed(s, step.c, step.reply);
    }
  }

  /** A step moves at most one client, and the others stay as they are. */
  lemma StepMovesOneClient(fp: Fingerprinter, s: State, step: Step, c: nat)
    requires c in Exec(fp, s, step).clients && (step.Advance? ==> step.c != c)
    ensures (c in s.clients && Exec(fp, s, step).clients[c] == s.clients[c])
            || Exec(fp, s, step).clients[c].phase.Inserting?
  {
    if step.Advance? && step.c in s.clients {
      AdvanceMovesOne(fp, s, step.c, step.reply, step.now, c);
    }
  }

  lemma AdvanceMovesOne(fp: Fingerprinter, s: State, d: nat, reply: Reply, now: int, c: nat)
    requires d in s.clients && c != d && c in AdvanceClient(fp, s, d, reply, now).clients
    ensures c in s.clients && AdvanceClient(fp, s, d, reply, now).clients[c] == s.clients[c]
  {
    var s' := AdvanceClient(fp, s, d, reply, now);
    match s.clients[d].phase
    case Inserting(_) => assert s' == AfterInsert(fp, s, d, reply);
    case Selecting => assert s' == AfterSelect(fp, s, d, reply);
    case Reclaiming(_) => assert s' == AfterReclaim(s, d, reply);
    case Reading(_) => assert s' == AfterRead(s, d, reply);
    case MarkingSucceeded(_) => assert s' == AfterMarkSucceeded(s, d, reply);
    case _ =>
  }

  lemma PoisonedMove(fp: Fingerprinter, s: State, c: nat, reply: Reply, now: int, k: OperationKey)
    requires Inv(fp, s) && Poisoned(s, k) && c in s.clients
    requires c in AdvanceClient(fp, s, c, reply, now).clients
    ensures var cl := AdvanceClient(fp, s, c, reply, now).clients[c];
            cl.request == s.clients[c].request &&
            (cl.Owns() && cl.request.key == k ==> cl.phase.Checking? || cl.phase.Cleaning? || cl.phase.MarkingFailed?)
  {
  }

  lemma PoisonedStep(fp: Fingerprinter, s: State, step: Step, k: OperationKey)
    requires Inv(fp, s) && Poisoned(s, k)
    ensures Poisoned(Exec(fp, s, step), k)
  {
    var s' := Exec(fp, s, step);
    StepMovesStates(fp, s, step, k);
    OnlyOwnersSucceed(fp, s, step, k);
    StepKeepsRows(fp, s, step, s.operations[k].documentId);
    forall c | c in s'.clients && s'.clients[c].Owns() && s'.clients[c].request.key == k
      ensures s'.clients[c].phase.Checking? || s'.clients[c].phase.Cleaning? || s'.clients[c].phase.MarkingFailed?
    {
      if step.Advance? && step.c == c {
        PoisonedMove(fp, s, c, step.reply, step.now, k);
      } else {
        StepMovesOneClient(fp, s, step, c);
      }
    }
  }

  /** Such a key never succeeds: every retry reuses the id and meets the duplicate check. */
  lemma {:induction false} PoisonedForever(fp: Fingerprinter, s: State, steps: seq<Step>, k: OperationKey)
    requires Inv(fp, s) && Poisoned(s, k)
    ensures Poisoned(Run(fp, s, steps), k)
    decreases |steps|
  {
    if steps != [] {
      PoisonedStep(fp, s, steps[0], k);
      StepKeeps(fp, s, steps[0]);
      PoisonedForever(fp, Exec(fp, s, steps[0]), steps[1..], k);
    }
  }

  /** How a key gets there: the row is saved and then the success mark fails. */
  lemma LostMarkPoisons(fp: Fingerprinter, s: State, c: nat)
    requires Inv(fp, s) && c in s.clients && s.clients[c].phase.MarkingSucceeded?
    ensures Poisoned(Exec(fp, s, Advance(c, FailedBefore, 0)), s.clients[c].request.key)
  {
    assert Exec(fp, s, Advance(c, FailedBefore, 0)) == Goto(s, c, MarkingFailed(s.clients[c].phase.documentId));
  }

  // ---- A claim without interference --------------------------------------------

  predicate Claiming(phase: Phase) {
    phase.Inserting? || phase.Selecting? || phase.Reclaiming?
  }

  /** The client takes its claim steps, all answered, with nobody in between. */
  function Settle(fp: Fingerprinter, s: State, c: nat, n: nat): State
    decreases n
  {
    if n == 0 || c !in s.clients || !Claiming(s.clients[c].phase) then s
    else Settle(fp, Exec(fp, s, Advance(c, Answered, 0)), c, n - 1)
  }

  /** Three steps settle a claim, with the effect and the answer of the store's own
      `claim`: claimed clients go on to upload under the record's id, the others read the
      finished record or leave. */
  lemma ClaimStepsMeetClaim(fp: Fingerprinter, s: State, c: nat)
    requires c in s.clients && s.clients[c].phase.Inserting?
    ensures var r := s.clients[c].request;
            var (operations, answer) := ClaimAlone(s.operations, r.key, fp(r.payload), s.clients[c].phase.proposedId);
            var e := Settle(fp, s, c, 3);
            && e.operations == operations && e.rows == s.rows && e.results == s.results
            && (answer.Ok? && answer.value.claimed ==>
                  c in e.clients && e.clients[c].phase == Checking(answer.value.operation.documentId))
            && (answer.Ok? && !answer.value.claimed && answer.value.operation.state.Succeeded? ==>
                  c in e.clients && e.clients[c].phase == Reading(answer.value.operation))
            && (answer.Err? || (!answer.value.claimed && answer.value.operation.state.Pending?) ==> c !in e.clients)
  {
    var r := s.clients[c].request;
    var go := Advance(c, Answered, 0);
    var s1 := Exec(fp, s, go);
    assert s1 == AfterInsert(fp, s, c, Answered);
    assert Settle(fp, s, c, 3) == Settle(fp, s1, c, 2);
    if r.key in s.operations {
      assert s1 == Goto(s, c, Selecting);
      var s2 := Exec(fp, s1, go);
      assert s2 == AfterSelect(fp, s1, c, Answered);
      assert Settle(fp, s1, c, 2) == Settle(fp, s2, c, 1);
      if s.operations[r.key].fingerprint == fp(r.payload) && s.operations[r.key].state.Failed? {
        var s3 := Exec(fp, s2, go);
        assert s3 == AfterReclaim(s2, c, Answered);
        assert Settle(fp, s2, c, 1) == Settle(fp, s3, c, 0);
      }
    }
  }
}

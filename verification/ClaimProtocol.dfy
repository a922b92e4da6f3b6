/** The idempotent-upload claim protocol under any interleaving of any number of
    clients. One step is one database transaction or one object-store call; every
    call may raise before or after taking effect, and a client may vanish anywhere.
    The select of an existing record and the guarded update that reclaims it are
    separate steps, so exclusion rests on the compare-and-swap alone. */
module ClaimProtocol {
  import opened Domain

  datatype OperationState = Pending | Succeeded | Failed

  datatype OperationKey = OperationKey(scope: string, idempotencyKey: string)

  datatype Operation = Operation(fingerprint: string, documentId: string, state: OperationState)

  type Operations = map<OperationKey, Operation>

  /** What the fingerprint of an upload is built from. */
  datatype Payload = Payload(
    checksum: string,
    filename: string,
    contentType: string,
    size: nat,
    documentId: Option<string>,
    partition: DocumentPartition)

  datatype Request = Request(key: OperationKey, payload: Payload, storageKey: string, storedChecksum: string)

  // ---- The three transactions on an operation record -----------------------

  function Insert(operations: Operations, key: OperationKey, fingerprint: string, documentId: string): Operations {
    if key in operations then operations
    else operations[key := Operation(fingerprint, documentId, Pending)]
  }

  /** The update guarded on FAILED. */
  function Reclaim(operations: Operations, key: OperationKey): Operations {
    if key in operations && operations[key].state.Failed?
    then operations[key := operations[key].(state := Pending)]
    else operations
  }

  /** The update guarded on PENDING. */
  function Mark(operations: Operations, key: OperationKey, state: OperationState): Operations {
    if key in operations && operations[key].state.Pending?
    then operations[key := operations[key].(state := state)]
    else operations
  }

  // ---- A claim that nobody interferes with ---------------------------------

  datatype ClaimResult = ClaimResult(operation: Operation, claimed: bool)

  datatype ClaimError = IdempotencyConflict | ClaimUnavailable

  /** What a claim finds and does when no other client comes between its transactions. */
  function ClaimAlone(operations: Operations, key: OperationKey, fingerprint: string, documentId: string)
    : (Operations, Result<ClaimResult, ClaimError>)
  {
    if key !in operations then
      (Insert(operations, key, fingerprint, documentId),
       Ok(ClaimResult(Operation(fingerprint, documentId, Pending), true)))
    else if operations[key].fingerprint != fingerprint then (operations, Err(IdempotencyConflict))
    else if operations[key].state.Failed? then
      (Reclaim(operations, key), Ok(ClaimResult(operations[key].(state := Pending), true)))
    else (operations, Ok(ClaimResult(operations[key], false)))
  }

  // ---- Clients --------------------------------------------------------------

  datatype Phase =
    | Inserting(proposedId: string)
    | Selecting
    | Reclaiming(seen: Operation)
    | Reading(seen: Operation)
    | Checking(documentId: string)
    | Putting(documentId: string)
    | Saving(documentId: string)
    | Cleaning(documentId: string)
    | MarkingSucceeded(documentId: string)
    | MarkingFailed(documentId: string)

  datatype Client = Client(request: Request, phase: Phase)
  {
    /** Between `claimed=True` and the mark that gives the claim back. */
    predicate Owns() {
      phase.Checking? || phase.Putting? || phase.Saving? || phase.Cleaning?
      || phase.MarkingSucceeded? || phase.MarkingFailed?
    }
  }

  /** A returned upload result; `seen` is the state of the record it was decided on. */
  datatype Outcome = Outcome(
    key: OperationKey,
    payload: Payload,
    metadata: DocumentMetadata,
    created: bool,
    seen: OperationState)

  /** `started` is history: the payload of every request a client has begun. */
  datatype State = State(
    operations: Operations,
    rows: Rows,
    clients: map<nat, Client>,
    results: seq<Outcome>,
    started: set<Payload>)

  datatype Step =
    | Start(c: nat, request: Request, allocatedId: string)
    | Advance(c: nat, reply: Reply, now: int)
    | Crash(c: nat)
    | OtherInsert(row: DocumentMetadata)
    | OtherUpdate(row: DocumentMetadata)

  function Goto(s: State, c: nat, phase: Phase): State
    requires c in s.clients
  {
    s.(clients := s.clients[c := s.clients[c].(phase := phase)])
  }

  /** The client's call has returned or raised. */
  function Leave(s: State, c: nat): State {
    s.(clients := s.clients - {c})
  }

  function NewRow(request: Request, documentId: string, now: int): DocumentMetadata {
    DocumentMetadata(documentId, request.payload.filename, request.payload.contentType, request.payload.size,
                     request.storageKey, Available, now, now, request.payload.partition,
                     Some(request.storedChecksum), None)
  }

  // ---- One step of a client, phase by phase ---------------------------------

  type Fingerprinter = Payload -> string

  function AfterInsert(fp: Fingerprinter, s: State, c: nat, reply: Reply): State
    requires c in s.clients && s.clients[c].phase.Inserting?
  {
    var r, id := s.clients[c].request, s.clients[c].phase.proposedId;
    var s' := s.(operations := Insert(s.operations, r.key, fp(r.payload), id));
    match reply
    case Answered => if r.key in s.operations then Goto(s, c, Selecting) else Goto(s', c, Checking(id))
    case FailedBefore => Leave(s, c)
    case FailedAfter => Leave(s', c)
  }

  function AfterSelect(fp: Fingerprinter, s: State, c: nat, reply: Reply): State
    requires c in s.clients && s.clients[c].phase.Selecting?
  {
    var r := s.clients[c].request;
    if !reply.Answered? then Leave(s, c)
    else if r.key !in s.operations then s
    else if s.operations[r.key].fingerprint != fp(r.payload) then Leave(s, c)
    else match s.operations[r.key].state
      case Failed => Goto(s, c, Reclaiming(s.operations[r.key]))
      case Pending => Leave(s, c)
      case Succeeded => Goto(s, c, Reading(s.operations[r.key]))
  }

  function AfterReclaim(s: State, c: nat, reply: Reply): State
    requires c in s.clients && s.clients[c].phase.Reclaiming?
  {
    var r, seen := s.clients[c].request, s.clients[c].phase.seen;
    var s' := s.(operations := Reclaim(s.operations, r.key));
    match reply
    case Answered =>
      if r.key in s.operations && s.operations[r.key].state.Failed? then Goto(s', c, Checking(seen.documentId))
      else Goto(s, c, Reading(seen))
    case FailedBefore => Leave(s, c)
    case FailedAfter => Leave(s', c)
  }

  function AfterRead(s: State, c: nat, reply: Reply): State
    requires c in s.clients && s.clients[c].phase.Reading?
  {
    var r, seen := s.clients[c].request, s.clients[c].phase.seen;
    match Lookup(s.rows, seen.documentId, r.payload.partition)
    case Some(row) =>
      if reply.Answered? then
        Leave(s.(results := s.results + [Outcome(r.key, r.payload, row, false, seen.state)]), c)
      else Leave(s, c)
    case None => Leave(s, c)
  }

  function AfterCheck(s: State, c: nat, reply: Reply): State
    requires c in s.clients && s.clients[c].phase.Checking?
  {
    var id := s.clients[c].phase.documentId;
    if reply.Answered? && id !in s.rows then Goto(s, c, Putting(id)) else Goto(s, c, MarkingFailed(id))
  }

  function AfterPut(s: State, c: nat, reply: Reply): State
    requires c in s.clients && s.clients[c].phase.Putting?
  {
    var id := s.clients[c].phase.documentId;
    if reply.Answered? then Goto(s, c, Saving(id)) else Goto(s, c, MarkingFailed(id))
  }

  function AfterSave(s: State, c: nat, reply: Reply, now: int): State
    requires c in s.clients && s.clients[c].phase.Saving?
  {
    var r, id := s.clients[c].request, s.clients[c].phase.documentId;
    var saved := if id in s.rows then s else s.(rows := s.rows[id := NewRow(r, id, now)]);
    match reply
    case Answered => if id in s.rows then Goto(s, c, Cleaning(id)) else Goto(saved, c, MarkingSucceeded(id))
    case FailedBefore => Goto(s, c, Cleaning(id))
    case FailedAfter => Goto(saved, c, Cleaning(id))
  }

  function AfterMarkSucceeded(s: State, c: nat, reply: Reply): State
    requires c in s.clients && s.clients[c].phase.MarkingSucceeded?
  {
    var r, id := s.clients[c].request, s.clients[c].phase.documentId;
    var s' := s.(operations := Mark(s.operations, r.key, Succeeded));
    match reply
    case Answered =>
      if id in s.rows then
        Leave(s'.(results := s.results + [Outcome(r.key, r.payload, s.rows[id], true, Succeeded)]), c)
      else Leave(s', c)
    case FailedBefore => Goto(s, c, MarkingFailed(id))
    case FailedAfter => Goto(s', c, MarkingFailed(id))
  }

  function AfterMarkFailed(s: State, c: nat, reply: Reply): State
    requires c in s.clients && s.clients[c].phase.MarkingFailed?
  {
    if reply.FailedBefore? then Leave(s, c)
    else Leave(s.(operations := Mark(s.operations, s.clients[c].request.key, OperationState.Failed)), c)
  }

  function AdvanceClient(fp: Fingerprinter, s: State, c: nat, reply: Reply, now: int): State
    requires c in s.clients
  {
    match s.clients[c].phase
    case Inserting(_) => AfterInsert(fp, s, c, reply)
    case Selecting => AfterSelect(fp, s, c, reply)
    case Reclaiming(_) => AfterReclaim(s, c, reply)
    case Reading(_) => AfterRead(s, c, reply)
    case Checking(_) => AfterCheck(s, c, reply)
    case Putting(_) => AfterPut(s, c, reply)
    case Saving(_) => AfterSave(s, c, reply, now)
    case Cleaning(id) => Goto(s, c, MarkingFailed(id))
    case MarkingSucceeded(_) => AfterMarkSucceeded(s, c, reply)
    case MarkingFailed(_) => AfterMarkFailed(s, c, reply)
  }

  function Begin(s: State, c: nat, r: Request, allocatedId: string): State {
    var id := if r.payload.documentId.Some? then r.payload.documentId.value else allocatedId;
    s.(clients := s.clients[c := Client(r, Inserting(id))], started := s.started + {r.payload})
  }

  /** One step of the system; a step that is not enabled changes nothing. */
  function Exec(fp: Fingerprinter, s: State, step: Step): State {
    match step
    case Start(c, r, allocatedId) => if c in s.clients then s else Begin(s, c, r, allocatedId)
    case Advance(c, reply, now) => if c in s.clients then AdvanceClient(fp, s, c, reply, now) else s
    case Crash(c) => Leave(s, c)
    case OtherInsert(row) =>
      if row.documentId in s.rows then s else s.(rows := s.rows[row.documentId := row])
    case OtherUpdate(row) =>
      if row.documentId in s.rows && SameIdentity(s.rows[row.documentId], row)
      then s.(rows := s.rows[row.documentId := row]) else s
  }

  function Run(fp: Fingerprinter, s: State, steps: seq<Step>): State
    decreases |steps|
  {
    if steps == [] then s else Run(fp, Exec(fp, s, steps[0]), steps[1..])
  }

  const INITIAL := State(map[], map[], map[], [], {})

  // ---- The invariant ---------------------------------------------------------

  /** A claimed record carries the owner's fingerprint and document id, and is PENDING;
      only an owner about to mark a failure may already have succeeded. */
  ghost predicate OwnersHold(fp: Fingerprinter, s: State) {
    forall c :: c in s.clients && s.clients[c].Owns() ==>
      var r, p := s.clients[c].request, s.clients[c].phase;
      && r.key in s.operations
      && s.operations[r.key].fingerprint == fp(r.payload)
      && s.operations[r.key].documentId == p.documentId
      && (s.operations[r.key].state.Pending? || (p.MarkingFailed? && s.operations[r.key].state.Succeeded?))
  }

  ghost predicate OneOwnerPerKey(s: State) {
    forall c, d :: c in s.clients && d in s.clients && c != d && s.clients[c].Owns() && s.clients[d].Owns() ==>
      s.clients[c].request.key != s.clients[d].request.key
  }

  ghost predicate ReadersRight(fp: Fingerprinter, s: State) {
    forall c :: c in s.clients && (s.clients[c].phase.Reclaiming? || s.clients[c].phase.Reading?) ==>
      var r, seen := s.clients[c].request, s.clients[c].phase.seen;
      && r.key in s.operations
      && s.operations[r.key].fingerprint == fp(r.payload)
      && s.operations[r.key].documentId == seen.documentId
      && (seen.state.Succeeded? ==> s.operations[r.key].state.Succeeded?)
  }

  ghost predicate RequestsStarted(s: State) {
    forall c :: c in s.clients ==> s.clients[c].request.payload in s.started
  }

  predicate Describes(u: Payload, row: DocumentMetadata) {
    u.filename == row.originalFilename && u.contentType == row.contentType && u.size == row.fileSize
    && u.partition == row.partition
  }

  ghost predicate SavedBeforeMark(s: State) {
    forall c :: c in s.clients && s.clients[c].phase.MarkingSucceeded? ==>
      var id := s.clients[c].phase.documentId;
      id in s.rows && Describes(s.clients[c].request.payload, s.rows[id])
  }

  /** The record's fingerprint was built from a request that describes this row. */
  ghost predicate BuiltFrom(fp: Fingerprinter, started: set<Payload>, fingerprint: string, row: DocumentMetadata) {
    exists u :: u in started && fp(u) == fingerprint && Describes(u, row)
  }

  ghost predicate SucceededSaved(fp: Fingerprinter, s: State) {
    forall k :: k in s.operations && s.operations[k].state.Succeeded? ==>
      var id := s.operations[k].documentId;
      id in s.rows && BuiltFrom(fp, s.started, s.operations[k].fingerprint, s.rows[id])
  }

  ghost predicate ResultsAgree(fp: Fingerprinter, s: State) {
    forall i :: 0 <= i < |s.results| ==>
      var o := s.results[i];
      && o.key in s.operations
      && o.metadata.documentId == s.operations[o.key].documentId
      && fp(o.payload) == s.operations[o.key].fingerprint
      && o.payload in s.started
      && o.metadata.partition == o.payload.partition
      && (o.created ==> o.seen.Succeeded?)
      && (o.seen.Succeeded? ==>
            s.operations[o.key].state.Succeeded? && BuiltFrom(fp, s.started, fp(o.payload), o.metadata))
  }

  /** A created result ends its key: no client owns it any more. */
  ghost predicate CreatedOnce(s: State) {
    forall i, j :: 0 <= i < j < |s.results| && s.results[i].created && s.results[j].created ==>
      s.results[i].key != s.results[j].key
  }

  /** An owner about to mark success holds a PENDING record, so no result for its key was `created`. */
  ghost predicate Inv(fp: Fingerprinter, s: State) {
    && OwnersHold(fp, s) && OneOwnerPerKey(s) && ReadersRight(fp, s) && RequestsStarted(s)
    && SavedBeforeMark(s) && SucceededSaved(fp, s) && ResultsAgree(fp, s) && CreatedOnce(s)
    && WellKeyed(s.rows)
  }

  // ---- Every step keeps the invariant ---------------------------------------

  lemma LeaveKeeps(fp: Fingerprinter, s: State, c: nat)
    requires Inv(fp, s)
    ensures Inv(fp, Leave(s, c))
  {
  }

  lemma NewRecordKeeps(fp: Fingerprinter, s: State, k: OperationKey, fingerprint: string, id: string)
    requires Inv(fp, s) && k !in s.operations
    ensures Inv(fp, s.(operations := Insert(s.operations, k, fingerprint, id)))
  {
  }

  lemma ReclaimedRecordKeeps(fp: Fingerprinter, s: State, k: OperationKey)
    requires Inv(fp, s) && k in s.operations && s.operations[k].state.Failed?
    ensures Inv(fp, s.(operations := Reclaim(s.operations, k)))
    ensures forall d :: d in s.clients && s.clients[d].Owns() ==> s.clients[d].request.key != k
  {
  }

  /** A record that is PENDING with nobody holding it can be handed to one client. */
  lemma ClaimKeeps(fp: Fingerprinter, s: State, c: nat, id: string)
    requires Inv(fp, s) && c in s.clients
    requires var k := s.clients[c].request.key;
             && k in s.operations
             && s.operations[k] == Operation(fp(s.clients[c].request.payload), id, Pending)
             && forall d :: d in s.clients && s.clients[d].Owns() ==> s.clients[d].request.key != k
    ensures Inv(fp, Goto(s, c, Checking(id)))
  {
  }

  lemma InsertKeeps(fp: Fingerprinter, s: State, c: nat, reply: Reply)
    requires Inv(fp, s) && c in s.clients && s.clients[c].phase.Inserting?
    ensures Inv(fp, AfterInsert(fp, s, c, reply))
  {
    var r, id := s.clients[c].request, s.clients[c].phase.proposedId;
    if r.key in s.operations {
      LeaveKeeps(fp, s, c);
    } else {
      NewRecordKeeps(fp, s, r.key, fp(r.payload), id);
      var s' := s.(operations := Insert(s.operations, r.key, fp(r.payload), id));
      ClaimKeeps(fp, s', c, id);
      LeaveKeeps(fp, s', c);
      LeaveKeeps(fp, s, c);
    }
  }

  /** A client that has read a record with its own fingerprint remembers it rightly. */
  lemma ReaderMoves(fp: Fingerprinter, s: State, c: nat, next: Phase)
    requires Inv(fp, s) && c in s.clients && s.clients[c].request.key in s.operations
    requires (next.Reclaiming? || next.Reading?) && next.seen == s.operations[s.clients[c].request.key]
    requires next.seen.fingerprint == fp(s.clients[c].request.payload)
    ensures Inv(fp, Goto(s, c, next))
  {
  }

  lemma SelectKeeps(fp: Fingerprinter, s: State, c: nat, reply: Reply)
    requires Inv(fp, s) && c in s.clients && s.clients[c].phase.Selecting?
    ensures Inv(fp, AfterSelect(fp, s, c, reply))
  {
    var r := s.clients[c].request;
    LeaveKeeps(fp, s, c);
    if r.key in s.operations && s.operations[r.key].fingerprint == fp(r.payload) {
      ReaderMoves(fp, s, c, Reclaiming(s.operations[r.key]));
      ReaderMoves(fp, s, c, Reading(s.operations[r.key]));
    }
  }

  lemma ReclaimKeeps(fp: Fingerprinter, s: State, c: nat, reply: Reply)
    requires Inv(fp, s) && c in s.clients && s.clients[c].phase.Reclaiming?
    ensures Inv(fp, AfterReclaim(s, c, reply))
  {
    var r, seen := s.clients[c].request, s.clients[c].phase.seen;
    LeaveKeeps(fp, s, c);
    if s.operations[r.key].state.Failed? {
      ReclaimedRecordKeeps(fp, s, r.key);
      var s' := s.(operations := Reclaim(s.operations, r.key));
      ClaimKeeps(fp, s', c, seen.documentId);
      LeaveKeeps(fp, s', c);
    } else {
      LostClaimKeeps(fp, s, c);
    }
  }

  lemma LostClaimKeeps(fp: Fingerprinter, s: State, c: nat)
    requires Inv(fp, s) && c in s.clients && s.clients[c].phase.Reclaiming?
    ensures Inv(fp, Goto(s, c, Reading(s.clients[c].phase.seen)))
  {
  }

  lemma ReadKeeps(fp: Fingerprinter, s: State, c: nat, reply: Reply)
    requires Inv(fp, s) && c in s.clients && s.clients[c].phase.Reading?
    ensures Inv(fp, AfterRead(s, c, reply))
  {
  }

  /** An owner goes on to its next phase under the same document id. */
  lemma OwnerMoves(fp: Fingerprinter, s: State, c: nat, next: Phase)
    requires Inv(fp, s) && c in s.clients && s.clients[c].Owns() && !s.clients[c].phase.MarkingFailed?
    requires next.Putting? || next.Saving? || next.Cleaning? || next.MarkingSucceeded? || next.MarkingFailed?
    requires next.documentId == s.clients[c].phase.documentId
    requires next.MarkingSucceeded? ==>
               next.documentId in s.rows && Describes(s.clients[c].request.payload, s.rows[next.documentId])
    ensures Inv(fp, Goto(s, c, next))
  {
  }

  lemma UploadKeeps(fp: Fingerprinter, s: State, c: nat, reply: Reply)
    requires Inv(fp, s) && c in s.clients
    ensures s.clients[c].phase.Checking? ==> Inv(fp, AfterCheck(s, c, reply))
    ensures s.clients[c].phase.Putting? ==> Inv(fp, AfterPut(s, c, reply))
    ensures s.clients[c].phase.Cleaning? ==> Inv(fp, Goto(s, c, MarkingFailed(s.clients[c].phase.documentId)))
  {
    var phase := s.clients[c].phase;
    if phase.Checking? || phase.Putting? || phase.Cleaning? {
      OwnerMoves(fp, s, c, Putting(phase.documentId));
      OwnerMoves(fp, s, c, Saving(phase.documentId));
      OwnerMoves(fp, s, c, MarkingFailed(phase.documentId));
    }
  }

  lemma NewRowKeeps(fp: Fingerprinter, s: State, row: DocumentMetadata)
    requires Inv(fp, s) && row.documentId !in s.rows
    ensures Inv(fp, s.(rows := s.rows[row.documentId := row]))
  {
  }

  lemma SaveKeeps(fp: Fingerprinter, s: State, c: nat, reply: Reply, now: int)
    requires Inv(fp, s) && c in s.clients && s.clients[c].phase.Saving?
    ensures Inv(fp, AfterSave(s, c, reply, now))
  {
    var r, id := s.clients[c].request, s.clients[c].phase.documentId;
    OwnerMoves(fp, s, c, Cleaning(id));
    if id !in s.rows {
      var saved := s.(rows := s.rows[id := NewRow(r, id, now)]);
      NewRowKeeps(fp, s, NewRow(r, id, now));
      OwnerMoves(fp, saved, c, MarkingSucceeded(id));
      OwnerMoves(fp, saved, c, Cleaning(id));
    }
  }

  lemma SuccessRecordKeeps(fp: Fingerprinter, s: State, c: nat)
    requires Inv(fp, s) && c in s.clients && s.clients[c].phase.MarkingFailed?
    requires var r, id := s.clients[c].request, s.clients[c].phase.documentId;
             id in s.rows && Describes(r.payload, s.rows[id])
    ensures Inv(fp, s.(operations := Mark(s.operations, s.clients[c].request.key, Succeeded)))
  {
    var r := s.clients[c].request;
    var s' := s.(operations := Mark(s.operations, r.key, Succeeded));
    assert SucceededSaved(fp, s') by {
      assert BuiltFrom(fp, s.started, fp(r.payload), s.rows[s.clients[c].phase.documentId]);
    }
  }

  lemma CreatedResultKeeps(fp: Fingerprinter, s: State, o: Outcome)
    requires Inv(fp, s) && o.created && o.seen.Succeeded?
    requires forall i :: 0 <= i < |s.results| && s.results[i].created ==> s.results[i].key != o.key
    requires o.key in s.operations && s.operations[o.key].state.Succeeded?
    requires s.operations[o.key].fingerprint == fp(o.payload)
    requires s.operations[o.key].documentId == o.metadata.documentId
    requires o.payload in s.started && Describes(o.payload, o.metadata)
    ensures Inv(fp, s.(results := s.results + [o]))
  {
    var s' := s.(results := s.results + [o]);
    assert ResultsAgree(fp, s') by {
      assert BuiltFrom(fp, s.started, fp(o.payload), o.metadata);
    }
  }

  lemma MarkSucceededKeeps(fp: Fingerprinter, s: State, c: nat, reply: Reply)
    requires Inv(fp, s) && c in s.clients && s.clients[c].phase.MarkingSucceeded?
    ensures Inv(fp, AfterMarkSucceeded(s, c, reply))
  {
    var r, id := s.clients[c].request, s.clients[c].phase.documentId;
    var s1 := Goto(s, c, MarkingFailed(id));
    OwnerMoves(fp, s, c, MarkingFailed(id));
    SuccessRecordKeeps(fp, s1, c);
    var s2 := s1.(operations := Mark(s.operations, r.key, Succeeded));
    if reply.Answered? {
      var s3 := Leave(s2, c);
      LeaveKeeps(fp, s2, c);
      CreatedResultKeeps(fp, s3, Outcome(r.key, r.payload, s.rows[id], true, Succeeded));
      assert s3.clients == s.clients - {c};
    }
  }

  lemma MarkFailedKeeps(fp: Fingerprinter, s: State, c: nat, reply: Reply)
    requires Inv(fp, s) && c in s.clients && s.clients[c].phase.MarkingFailed?
    ensures Inv(fp, AfterMarkFailed(s, c, reply))
  {
  }

  lemma BeginKeeps(fp: Fingerprinter, s: State, c: nat, r: Request, allocatedId: string)
    requires Inv(fp, s) && c !in s.clients
    ensures Inv(fp, Begin(s, c, r, allocatedId))
  {
    var s' := Begin(s, c, r, allocatedId);
    assert forall f, row :: BuiltFrom(fp, s.started, f, row) ==> BuiltFrom(fp, s'.started, f, row);
  }

  lemma OthersKeep(fp: Fingerprinter, s: State, row: DocumentMetadata)
    requires Inv(fp, s)
    ensures Inv(fp, Exec(fp, s, OtherInsert(row)))
    ensures Inv(fp, Exec(fp, s, OtherUpdate(row)))
  {
    if row.documentId in s.rows {
      if SameIdentity(s.rows[row.documentId], row) { StatusChangeKeeps(fp, s, row); }
    } else {
      NewRowKeeps(fp, s, row);
    }
  }

  lemma StatusChangeKeeps(fp: Fingerprinter, s: State, row: DocumentMetadata)
    requires Inv(fp, s) && row.documentId in s.rows && SameIdentity(s.rows[row.documentId], row)
    ensures Inv(fp, s.(rows := s.rows[row.documentId := row]))
  {
    var s' := s.(rows := s.rows[row.documentId := row]);
    assert SucceededSaved(fp, s') by {
      forall k | k in s.operations && s.operations[k].state.Succeeded?
        ensures BuiltFrom(fp, s.started, s.operations[k].fingerprint, s'.rows[s.operations[k].documentId])
      {
        var old_ := s.rows[s.operations[k].documentId];
        var u :| u in s.started && fp(u) == s.operations[k].fingerprint && Describes(u, old_);
        assert Describes(u, s'.rows[s.operations[k].documentId]);
      }
    }
  }

  lemma StepKeeps(fp: Fingerprinter, s: State, step: Step)
    requires Inv(fp, s)
    ensures Inv(fp, Exec(fp, s, step))
  {
    match step
    case Start(c, r, allocatedId) => if c !in s.clients { BeginKeeps(fp, s, c, r, allocatedId); }
    case Crash(c) => LeaveKeeps(fp, s, c);
    case OtherInsert(row) => OthersKeep(fp, s, row);
    case OtherUpdate(row) => OthersKeep(fp, s, row);
    case Advance(c, reply, now) =>
      if c in s.clients {
        match s.clients[c].phase
        case Inserting(_) => InsertKeeps(fp, s, c, reply);
        case Selecting => SelectKeeps(fp, s, c, reply);
        case Reclaiming(_) => ReclaimKeeps(fp, s, c, reply);
        case Reading(_) => ReadKeeps(fp, s, c, reply);
        case Saving(_) => SaveKeeps(fp, s, c, reply, now);
        case MarkingSucceeded(_) => MarkSucceededKeeps(fp, s, c, reply);
        case MarkingFailed(_) => MarkFailedKeeps(fp, s, c, reply);
        case _ => UploadKeeps(fp, s, c, reply);
      }
  }

  lemma {:induction false} RunKeeps(fp: Fingerprinter, s: State, steps: seq<Step>)
    requires Inv(fp, s)
    ensures Inv(fp, Run(fp, s, steps))
    decreases |steps|
  {
    if steps != [] {
      StepKeeps(fp, s, steps[0]);
      RunKeeps(fp, Exec(fp, s, steps[0]), steps[1..]);
    }
  }
}

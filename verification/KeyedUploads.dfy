/** Keyed uploads as a run of the two-store system. Every owner of a claim is an uploading process
    there, from its claim to the end of its upload. Owners exclude each other, so such runs need no
    assumption on what overlaps: the claim protocol provides it. */
module KeyedUploads {
  import opened Domain
  import opened Namespaces
  import opened ClaimTheorems
  import opened LifecycleTheorems
  import C = ClaimProtocol
  import L = Lifecycle
  import LifecycleProof
  import Runs
  import Counterexamples
  import ReplayGuard

  /** The bytes each request carries. */
  type Content = C.Request -> seq<Byte>

  function JobOf(content: Content, r: C.Request): L.Job {
    L.Upload(content(r), r.payload.filename, r.payload.contentType, r.storedChecksum)
  }

  predicate Uploading(phase: C.Phase) {
    phase.Checking? || phase.Putting? || phase.Saving? || phase.Cleaning?
  }

  function PhaseOf(phase: C.Phase): L.Phase
    requires Uploading(phase)
  {
    match phase
    case Checking(_) => L.Checking
    case Putting(_) => L.Putting
    case Saving(_) => L.Saving
    case Cleaning(_) => L.Cleaning
  }

  function ProcessOf(content: Content, client: C.Client): L.Process
    requires Uploading(client.phase)
  {
    L.Process(client.phase.documentId, client.request.payload.partition, JobOf(content, client.request),
              PhaseOf(client.phase))
  }

  // ---- The run of the stores --------------------------------------------------------------

  /** A claim that is won starts an upload. */
  function Begins(content: Content, c: nat, r: C.Request, id: string): L.Step {
    L.Start(c, id, r.payload.partition, JobOf(content, r))
  }

  /** What a step of the claim protocol is to the document stores. */
  function StoreSteps(content: Content, s: C.State, step: C.Step): seq<L.Step> {
    match step
    case Advance(c, reply, now) =>
      if c in s.clients then AdvanceSteps(content, s, c, reply, now) else []
    case Crash(c) => [L.Crash(c)]
    case _ => []
  }

  function AdvanceSteps(content: Content, s: C.State, c: nat, reply: Reply, now: int): seq<L.Step>
    requires c in s.clients
  {
    var r := s.clients[c].request;
    match s.clients[c].phase
    case Inserting(id) =>
      if reply.Answered? && r.key !in s.operations then [Begins(content, c, r, id)] else []
    case Reclaiming(seen) =>
      if reply.Answered? && r.key in s.operations && s.operations[r.key].state.Failed?
      then [Begins(content, c, r, seen.documentId)] else []
    case Checking(_) => [L.Advance(c, reply, now)]
    case Putting(_) => [L.Advance(c, reply, now)]
    case Saving(_) => [L.Advance(c, reply, now)]
    case Cleaning(_) => [L.Advance(c, reply, now)]
    case _ => []
  }

  function StoreRun(fp: C.Fingerprinter, content: Content, s: C.State, steps: seq<C.Step>): seq<L.Step>
    decreases |steps|
  {
    if steps == [] then []
    else StoreSteps(content, s, steps[0]) + StoreRun(fp, content, C.Exec(fp, s, steps[0]), steps[1..])
  }

  // ---- How the two systems correspond ---------------------------------------------------------

  predicate SameButKey(a: DocumentMetadata, b: DocumentMetadata) {
    a.(storageKey := b.storageKey) == b
  }

  /** The uploading owners are the processes; the rows are the same, up to the storage keys, which
      the claim protocol does not look at, and all AVAILABLE. */
  ghost predicate Joined(content: Content, s: C.State, t: L.State) {
    && (forall c :: c in t.processes <==> c in s.clients && Uploading(s.clients[c].phase))
    && (forall c :: c in t.processes ==> t.processes[c] == ProcessOf(content, s.clients[c]))
    && (forall id :: id in t.rows <==> id in s.rows)
    && (forall id :: id in t.rows ==> SameButKey(s.rows[id], t.rows[id]) && t.rows[id].status.Available?)
  }

  /** Ids without slashes, partitions of the setting, saves that raise have not saved, and no other
      writers. */
  ghost predicate Orderly(g: L.Setting, s: C.State, step: C.Step) {
    match step
    case Start(_, r, allocatedId) =>
      && r.payload.partition.partitionId in g.partitionIds
      && SlashFree(if r.payload.documentId.Some? then r.payload.documentId.value else allocatedId)
    case Advance(c, reply, _) => c in s.clients && s.clients[c].phase.Saving? ==> !reply.FailedAfter?
    case Crash(_) => true
    case OtherInsert(_) => false
    case OtherUpdate(_) => false
  }

  ghost predicate AllOrderly(fp: C.Fingerprinter, g: L.Setting, s: C.State, steps: seq<C.Step>)
    decreases |steps|
  {
    steps == [] || (Orderly(g, s, steps[0]) && AllOrderly(fp, g, C.Exec(fp, s, steps[0]), steps[1..]))
  }

  ghost predicate WellPlaced(g: L.Setting, s: C.State) {
    && (forall c :: c in s.clients ==>
          && s.clients[c].request.payload.partition.partitionId in g.partitionIds
          && (s.clients[c].phase.Inserting? ==> SlashFree(s.clients[c].phase.proposedId)))
    && forall k :: k in s.operations ==> SlashFree(s.operations[k].documentId)
  }

  /** Different keys have different documents. */
  ghost predicate DistinctDocuments(operations: C.Operations) {
    forall k, j :: k in operations && j in operations && k != j ==>
      operations[k].documentId != operations[j].documentId
  }

  ghost predicate Sized(content: Content) {
    forall r :: |content(r)| == r.payload.size
  }

  // ---- One step -------------------------------------------------------------------------------

  lemma OneStep(h: Hash, t: L.State, x: L.Step)
    ensures L.Run(h, t, [x]) == L.Exec(h, t, x)
  {
    assert [x][1..] == [];
  }

  lemma BeginJoins(content: Content, s: C.State, t: L.State, s': C.State, h: Hash, c: nat, id: string)
    requires Joined(content, s, t) && c in s.clients && !Uploading(s.clients[c].phase)
    requires s'.clients == s.clients[c := s.clients[c].(phase := C.Checking(id))] && s'.rows == s.rows
    ensures Joined(content, s', L.Exec(h, t, Begins(content, c, s.clients[c].request, id)))
  {
  }

  /** A move that touches no row and neither begins nor ends an upload. */
  lemma QuietJoins(content: Content, s: C.State, t: L.State, s': C.State, c: nat)
    requires Joined(content, s, t) && s'.rows == s.rows
    requires forall d :: d != c ==> (d in s'.clients <==> d in s.clients)
                                    && (d in s.clients ==> s'.clients[d] == s.clients[d])
    requires c in s.clients ==> !Uploading(s.clients[c].phase)
    requires c in s'.clients ==> !Uploading(s'.clients[c].phase)
    ensures Joined(content, s', t)
  {
  }

  lemma InsertJoins(fp: C.Fingerprinter, h: Hash, content: Content, s: C.State, t: L.State, c: nat, reply: Reply,
                    now: int)
    requires Joined(content, s, t) && c in s.clients && s.clients[c].phase.Inserting?
    ensures Joined(content, C.AfterInsert(fp, s, c, reply), L.Run(h, t, AdvanceSteps(content, s, c, reply, now)))
  {
    var s', r, id := C.AfterInsert(fp, s, c, reply), s.clients[c].request, s.clients[c].phase.proposedId;
    if reply.Answered? && r.key !in s.operations {
      OneStep(h, t, Begins(content, c, r, id));
      BeginJoins(content, s, t, s', h, c, id);
    } else {
      QuietJoins(content, s, t, s', c);
    }
  }

  lemma ReclaimJoins(fp: C.Fingerprinter, h: Hash, content: Content, s: C.State, t: L.State, c: nat, reply: Reply,
                     now: int)
    requires Joined(content, s, t) && c in s.clients && s.clients[c].phase.Reclaiming?
    ensures Joined(content, C.AfterReclaim(s, c, reply), L.Run(h, t, AdvanceSteps(content, s, c, reply, now)))
  {
    var s', r, id := C.AfterReclaim(s, c, reply), s.clients[c].request, s.clients[c].phase.seen.documentId;
    if reply.Answered? && r.key in s.operations && s.operations[r.key].state.Failed? {
      OneStep(h, t, Begins(content, c, r, id));
      BeginJoins(content, s, t, s', h, c, id);
    } else {
      QuietJoins(content, s, t, s', c);
    }
  }

  lemma ClaimJoins(fp: C.Fingerprinter, h: Hash, content: Content, s: C.State, t: L.State, c: nat, reply: Reply,
                   now: int)
    requires Joined(content, s, t) && c in s.clients && !Uploading(s.clients[c].phase)
    ensures Joined(content, C.AdvanceClient(fp, s, c, reply, now),
                   L.Run(h, t, AdvanceSteps(content, s, c, reply, now)))
  {
    var s' := C.AdvanceClient(fp, s, c, reply, now);
    match s.clients[c].phase
    case Inserting(id) => InsertJoins(fp, h, content, s, t, c, reply, now);
    case Reclaiming(seen) => ReclaimJoins(fp, h, content, s, t, c, reply, now);
    case Selecting =>
      assert s' == C.AfterSelect(fp, s, c, reply);
      QuietJoins(content, s, t, s', c);
    case Reading(_) =>
      assert s' == C.AfterRead(s, c, reply);
      QuietJoins(content, s, t, s', c);
    case MarkingSucceeded(_) =>
      assert s' == C.AfterMarkSucceeded(s, c, reply);
      QuietJoins(content, s, t, s', c);
    case MarkingFailed(_) =>
      assert s' == C.AfterMarkFailed(s, c, reply);
      QuietJoins(content, s, t, s', c);
  }

  /** Owner and process go on together; what becomes of the objects is the process's affair. */
  lemma GoOnJoins(content: Content, s: C.State, t: L.State, c: nat, next: C.Phase, objects: L.Objects)
    requires Joined(content, s, t) && c in s.clients && Uploading(s.clients[c].phase) && Uploading(next)
    requires next.documentId == s.clients[c].phase.documentId
    ensures Joined(content, C.Goto(s, c, next), L.Goto(t.(objects := objects), c, PhaseOf(next)))
  {
  }

  /** The process ends where the owner goes on to its mark. */
  lemma EndJoins(content: Content, s: C.State, t: L.State, c: nat, next: C.Phase, objects: L.Objects)
    requires Joined(content, s, t) && c in s.clients && Uploading(s.clients[c].phase) && !Uploading(next)
    ensures Joined(content, C.Goto(s, c, next), L.Leave(t.(objects := objects), c))
  {
  }

  lemma SavedJoins(content: Content, s: C.State, t: L.State, a: DocumentMetadata, b: DocumentMetadata)
    requires Joined(content, s, t) && SameButKey(a, b) && b.status.Available?
    ensures Joined(content, s.(rows := s.rows[a.documentId := a]), t.(rows := t.rows[b.documentId := b]))
  {
  }

  /** An uploading owner and its process take the same step. */
  lemma UploadJoins(fp: C.Fingerprinter, h: Hash, content: Content, s: C.State, t: L.State, c: nat, reply: Reply,
                    now: int)
    requires Sized(content) && Joined(content, s, t) && c in s.clients && Uploading(s.clients[c].phase)
    ensures Joined(content, C.AdvanceClient(fp, s, c, reply, now), L.Exec(h, t, L.Advance(c, reply, now)))
  {
    match s.clients[c].phase
    case Checking(_) =>
      assert C.AdvanceClient(fp, s, c, reply, now) == C.AfterCheck(s, c, reply);
      CheckJoins(h, content, s, t, c, reply, now);
    case Putting(_) =>
      assert C.AdvanceClient(fp, s, c, reply, now) == C.AfterPut(s, c, reply);
      PutJoins(h, content, s, t, c, reply, now);
    case Saving(_) =>
      assert C.AdvanceClient(fp, s, c, reply, now) == C.AfterSave(s, c, reply, now);
      SaveJoins(h, content, s, t, c, reply, now);
    case Cleaning(id) =>
      assert C.AdvanceClient(fp, s, c, reply, now) == C.Goto(s, c, C.MarkingFailed(id));
      CleanJoins(h, content, s, t, c, reply, now);
  }

  lemma CheckJoins(h: Hash, content: Content, s: C.State, t: L.State, c: nat, reply: Reply, now: int)
    requires Joined(content, s, t) && c in s.clients && s.clients[c].phase.Checking?
    ensures Joined(content, C.AfterCheck(s, c, reply), L.Exec(h, t, L.Advance(c, reply, now)))
  {
    var id, t' := s.clients[c].phase.documentId, L.Exec(h, t, L.Advance(c, reply, now));
    assert t.processes[c] == ProcessOf(content, s.clients[c]);
    if reply.Answered? && id !in s.rows {
      assert t' == L.Goto(t, c, L.Putting);
      GoOnJoins(content, s, t, c, C.Putting(id), t.objects);
    } else {
      assert t' == L.Leave(t, c);
      EndJoins(content, s, t, c, C.MarkingFailed(id), t.objects);
    }
  }

  lemma CleanJoins(h: Hash, content: Content, s: C.State, t: L.State, c: nat, reply: Reply, now: int)
    requires Joined(content, s, t) && c in s.clients && s.clients[c].phase.Cleaning?
    ensures Joined(content, C.Goto(s, c, C.MarkingFailed(s.clients[c].phase.documentId)),
                   L.Exec(h, t, L.Advance(c, reply, now)))
  {
    var id, t' := s.clients[c].phase.documentId, L.Exec(h, t, L.Advance(c, reply, now));
    assert t.processes[c] == ProcessOf(content, s.clients[c]);
    assert t' == L.AfterClean(h, t, c, reply);
    EndJoins(content, s, t, c, C.MarkingFailed(id), t'.objects);
  }

  lemma PutJoins(h: Hash, content: Content, s: C.State, t: L.State, c: nat, reply: Reply, now: int)
    requires Joined(content, s, t) && c in s.clients && s.clients[c].phase.Putting?
    ensures Joined(content, C.AfterPut(s, c, reply), L.Exec(h, t, L.Advance(c, reply, now)))
  {
    var id, t' := s.clients[c].phase.documentId, L.Exec(h, t, L.Advance(c, reply, now));
    assert t.processes[c] == ProcessOf(content, s.clients[c]);
    assert t' == L.AfterPut(h, t, c, reply);
    GoOnJoins(content, s, t, c, C.Saving(id), t'.objects);
    EndJoins(content, s, t, c, C.MarkingFailed(id), t'.objects);
  }

  lemma SaveJoins(h: Hash, content: Content, s: C.State, t: L.State, c: nat, reply: Reply, now: int)
    requires Sized(content) && Joined(content, s, t) && c in s.clients && s.clients[c].phase.Saving?
    ensures Joined(content, C.AfterSave(s, c, reply, now), L.Exec(h, t, L.Advance(c, reply, now)))
  {
    var r, id := s.clients[c].request, s.clients[c].phase.documentId;
    assert t.processes[c] == ProcessOf(content, s.clients[c]);
    assert L.Exec(h, t, L.Advance(c, reply, now)) == L.AfterSave(h, t, c, reply, now);
    GoOnJoins(content, s, t, c, C.Cleaning(id), t.objects);
    if id !in s.rows { NewRowJoins(h, content, s, t, c, now); }
  }

  lemma NewRowJoins(h: Hash, content: Content, s: C.State, t: L.State, c: nat, now: int)
    requires Sized(content) && Joined(content, s, t) && c in s.clients && s.clients[c].phase.Saving?
    requires s.clients[c].phase.documentId !in s.rows
    ensures var r, id := s.clients[c].request, s.clients[c].phase.documentId;
            var b := L.UploadedRow(h, id, r.payload.partition, JobOf(content, r), now);
            var saved, saved' := s.(rows := s.rows[id := C.NewRow(r, id, now)]), t.(rows := t.rows[id := b]);
            && Joined(content, C.Goto(saved, c, C.Cleaning(id)), L.Goto(saved', c, L.Cleaning))
            && Joined(content, C.Goto(saved, c, C.MarkingSucceeded(id)), L.Leave(saved', c))
  {
    var r, id := s.clients[c].request, s.clients[c].phase.documentId;
    var a, b := C.NewRow(r, id, now), L.UploadedRow(h, id, r.payload.partition, JobOf(content, r), now);
    SavedJoins(content, s, t, a, b);
    var saved, saved' := s.(rows := s.rows[id := a]), t.(rows := t.rows[id := b]);
    GoOnJoins(content, saved, saved', c, C.Cleaning(id), t.objects);
    EndJoins(content, saved, saved', c, C.MarkingSucceeded(id), t.objects);
  }

  lemma CrashJoins(h: Hash, content: Content, s: C.State, t: L.State, c: nat)
    requires Joined(content, s, t)
    ensures Joined(content, C.Leave(s, c), L.Run(h, t, [L.Crash(c)]))
  {
    OneStep(h, t, L.Crash(c));
    assert L.Exec(h, t, L.Crash(c)) == L.Leave(t, c);
  }

  lemma StartJoins(content: Content, s: C.State, t: L.State, c: nat, r: C.Request, allocatedId: string)
    requires Joined(content, s, t) && c !in s.clients
    ensures Joined(content, C.Begin(s, c, r, allocatedId), t)
  {
  }

  lemma AdvanceJoins(fp: C.Fingerprinter, h: Hash, content: Content, s: C.State, t: L.State, c: nat, reply: Reply,
                     now: int)
    requires Sized(content) && Joined(content, s, t) && c in s.clients
    ensures Joined(content, C.AdvanceClient(fp, s, c, reply, now), L.Run(h, t, AdvanceSteps(content, s, c, reply, now)))
  {
    if Uploading(s.clients[c].phase) {
      assert AdvanceSteps(content, s, c, reply, now) == [L.Advance(c, reply, now)];
      OneStep(h, t, L.Advance(c, reply, now));
      UploadJoins(fp, h, content, s, t, c, reply, now);
    } else {
      ClaimJoins(fp, h, content, s, t, c, reply, now);
    }
  }

  lemma StepJoins(fp: C.Fingerprinter, g: L.Setting, content: Content, s: C.State, t: L.State, step: C.Step)
    requires Sized(content) && Joined(content, s, t) && Orderly(g, s, step)
    ensures Joined(content, C.Exec(fp, s, step), L.Run(g.h, t, StoreSteps(content, s, step)))
  {
    match step
    case Start(c, r, allocatedId) => if c !in s.clients { StartJoins(content, s, t, c, r, allocatedId); }
    case Crash(c) => CrashJoins(g.h, content, s, t, c);
    case Advance(c, reply, now) => if c in s.clients { AdvanceJoins(fp, g.h, content, s, t, c, reply, now); }
    case OtherInsert(_) =>
    case OtherUpdate(_) =>
  }

  lemma RequestStays(fp: C.Fingerprinter, s: C.State, c: nat, reply: Reply, now: int)
    requires c in s.clients && c in C.AdvanceClient(fp, s, c, reply, now).clients
    ensures var client := C.AdvanceClient(fp, s, c, reply, now).clients[c];
            client.request == s.clients[c].request && !client.phase.Inserting?
  {
  }

  /** A new record has the id that its client proposed. */
  lemma NewRecordIsProposed(fp: C.Fingerprinter, s: C.State, step: C.Step, k: C.OperationKey)
    requires k !in s.operations && k in C.Exec(fp, s, step).operations
    ensures step.Advance? && step.c in s.clients && s.clients[step.c].phase.Inserting?
    ensures C.Exec(fp, s, step).operations[k].documentId == s.clients[step.c].phase.proposedId
  {
  }

  lemma PlacesStay(fp: C.Fingerprinter, g: L.Setting, s: C.State, step: C.Step)
    requires C.Inv(fp, s) && WellPlaced(g, s) && Orderly(g, s, step)
    ensures WellPlaced(g, C.Exec(fp, s, step))
  {
    var s' := C.Exec(fp, s, step);
    forall k | k in s'.operations ensures SlashFree(s'.operations[k].documentId) {
      if k in s.operations { StepMovesStates(fp, s, step, k); } else { NewRecordIsProposed(fp, s, step, k); }
    }
    forall c | c in s'.clients
      ensures s'.clients[c].request.payload.partition.partitionId in g.partitionIds
      ensures s'.clients[c].phase.Inserting? ==> SlashFree(s'.clients[c].phase.proposedId)
    {
      ClientPlaced(fp, g, s, step, c);
    }
  }

  lemma ClientPlaced(fp: C.Fingerprinter, g: L.Setting, s: C.State, step: C.Step, c: nat)
    requires WellPlaced(g, s) && Orderly(g, s, step) && c in C.Exec(fp, s, step).clients
    ensures var client := C.Exec(fp, s, step).clients[c];
            && client.request.payload.partition.partitionId in g.partitionIds
            && (client.phase.Inserting? ==> SlashFree(client.phase.proposedId))
  {
    if step.Advance? && step.c in s.clients {
      if step.c == c {
        RequestStays(fp, s, c, step.reply, step.now);
      } else {
        AdvanceMovesOne(fp, s, step.c, step.reply, step.now, c);
      }
    }
  }

  // ---- Permission ---------------------------------------------------------------------------------

  /** The winner of a claim finds no upload of its document under way. */
  lemma WinnerIsAlone(fp: C.Fingerprinter, content: Content, s: C.State, t: L.State, c: nat, s': C.State, id: string)
    requires C.Inv(fp, s) && Joined(content, s, t) && c in s.clients && !Uploading(s.clients[c].phase)
    requires C.Inv(fp, s') && s'.clients == s.clients[c := s.clients[c].(phase := C.Checking(id))]
    requires DistinctDocuments(s'.operations)
    ensures L.MayStart(t, id, JobOf(content, s.clients[c].request))
  {
    assert s'.clients[c].Owns();
    forall d | d in t.processes ensures t.processes[d].documentId != id {
      assert s'.clients[d] == s.clients[d] && s'.clients[d].Owns();
    }
  }

  /** A won claim's start is permitted. */
  lemma BeginPermitted(fp: C.Fingerprinter, g: L.Setting, content: Content, s: C.State, t: L.State, c: nat,
                       s': C.State, id: string)
    requires C.Inv(fp, s) && WellPlaced(g, s) && Joined(content, s, t) && c in s.clients
    requires !Uploading(s.clients[c].phase) && SlashFree(id)
    requires C.Inv(fp, s') && s'.clients == s.clients[c := s.clients[c].(phase := C.Checking(id))]
    requires DistinctDocuments(s'.operations)
    ensures L.AllPermitted(g, t, [Begins(content, c, s.clients[c].request, id)])
  {
    WinnerIsAlone(fp, content, s, t, c, s', id);
    var x := Begins(content, c, s.clients[c].request, id);
    assert [x] + [] == [x];
    Runs.PermittedFirst(g, t, x, []);
  }

  lemma UploadPermitted(g: L.Setting, content: Content, s: C.State, t: L.State, c: nat, reply: Reply, now: int)
    requires Joined(content, s, t) && c in s.clients && Uploading(s.clients[c].phase)
    requires s.clients[c].phase.Saving? ==> !reply.FailedAfter?
    ensures L.AllPermitted(g, t, [L.Advance(c, reply, now)])
  {
    var x := L.Advance(c, reply, now);
    assert t.processes[c] == ProcessOf(content, s.clients[c]);
    assert [x] + [] == [x];
    Runs.PermittedFirst(g, t, x, []);
  }

  lemma AdvancePermitted(fp: C.Fingerprinter, g: L.Setting, content: Content, s: C.State, t: L.State, c: nat,
                         reply: Reply, now: int)
    requires C.Inv(fp, s) && c in s.clients && C.Inv(fp, C.AdvanceClient(fp, s, c, reply, now)) && WellPlaced(g, s)
    requires Joined(content, s, t) && (s.clients[c].phase.Saving? ==> !reply.FailedAfter?)
    requires DistinctDocuments(C.AdvanceClient(fp, s, c, reply, now).operations)
    ensures L.AllPermitted(g, t, AdvanceSteps(content, s, c, reply, now))
  {
    var s' := C.AdvanceClient(fp, s, c, reply, now);
    if AdvanceSteps(content, s, c, reply, now) == [] {
    } else if Uploading(s.clients[c].phase) {
      UploadPermitted(g, content, s, t, c, reply, now);
    } else if s.clients[c].phase.Inserting? {
      assert s' == C.AfterInsert(fp, s, c, reply);
      BeginPermitted(fp, g, content, s, t, c, s', s.clients[c].phase.proposedId);
    } else {
      assert s' == C.AfterReclaim(s, c, reply);
      BeginPermitted(fp, g, content, s, t, c, s', s.clients[c].phase.seen.documentId);
    }
  }

  lemma StepPermitted(fp: C.Fingerprinter, g: L.Setting, content: Content, s: C.State, t: L.State, step: C.Step)
    requires C.Inv(fp, s) && WellPlaced(g, s) && Joined(content, s, t) && Orderly(g, s, step)
    requires DistinctDocuments(C.Exec(fp, s, step).operations)
    ensures L.AllPermitted(g, t, StoreSteps(content, s, step))
  {
    C.StepKeeps(fp, s, step);
    if step.Advance? && step.c in s.clients {
      AdvancePermitted(fp, g, content, s, t, step.c, step.reply, step.now);
    }
  }

  lemma DistinctBefore(fp: C.Fingerprinter, s: C.State, steps: seq<C.Step>)
    requires C.Inv(fp, s) && DistinctDocuments(C.Run(fp, s, steps).operations)
    ensures DistinctDocuments(s.operations)
  {
    forall k, j | k in s.operations && j in s.operations && k != j
      ensures s.operations[k].documentId != s.operations[j].documentId
    {
      RecordsAreForever(fp, s, steps, k);
      RecordsAreForever(fp, s, steps, j);
    }
  }

  // ---- Whole runs ---------------------------------------------------------------------------------

  lemma {:induction false} RunJoins(fp: C.Fingerprinter, g: L.Setting, content: Content, s: C.State, t: L.State,
                                    steps: seq<C.Step>)
    requires C.Inv(fp, s) && WellPlaced(g, s) && Sized(content) && Joined(content, s, t)
    requires AllOrderly(fp, g, s, steps) && DistinctDocuments(C.Run(fp, s, steps).operations)
    ensures var run := StoreRun(fp, content, s, steps);
            L.AllPermitted(g, t, run) && Joined(content, C.Run(fp, s, steps), L.Run(g.h, t, run))
    decreases |steps|
  {
    if steps != [] {
      var s', first := C.Exec(fp, s, steps[0]), StoreSteps(content, s, steps[0]);
      var rest := StoreRun(fp, content, s', steps[1..]);
      C.StepKeeps(fp, s, steps[0]);
      PlacesStay(fp, g, s, steps[0]);
      DistinctBefore(fp, s', steps[1..]);
      StepJoins(fp, g, content, s, t, steps[0]);
      StepPermitted(fp, g, content, s, t, steps[0]);
      RunJoins(fp, g, content, s', L.Run(g.h, t, first), steps[1..]);
      RunConcat(g.h, t, first, rest);
      Runs.PermittedConcat(g, t, first, rest);
    }
  }

  const NOTHING := L.State(map[], map[], map[])

  /** Whatever keyed uploads of distinct documents do, with any overlap, retries, failures and crashes,
      their part on the document stores is a permitted run, so every theorem on those holds of it;
      in particular each row has its object. */
  lemma KeyedUploadsAgree(fp: C.Fingerprinter, g: L.Setting, content: Content, steps: seq<C.Step>, id: string)
    requires L.Sound(g) && Sized(content) && AllOrderly(fp, g, C.INITIAL, steps)
    requires DistinctDocuments(C.Run(fp, C.INITIAL, steps).operations)
    ensures var s, run := C.Run(fp, C.INITIAL, steps), StoreRun(fp, content, C.INITIAL, steps);
            var e := L.Run(g.h, NOTHING, run);
            && L.AllPermitted(g, NOTHING, run) && Joined(content, s, e)
            && (id in s.rows ==> id in e.rows && e.rows[id].storageKey in e.objects
                                 && |e.objects[e.rows[id].storageKey]| == s.rows[id].fileSize)
  {
    RunJoins(fp, g, content, C.INITIAL, NOTHING, steps);
    var e := L.Run(g.h, NOTHING, StoreRun(fp, content, C.INITIAL, steps));
    if id in e.rows { StoresAlwaysAgree(g, NOTHING, StoreRun(fp, content, C.INITIAL, steps), id); }
  }

  /** End to end: a key that has SUCCEEDED has its document in both stores, AVAILABLE, with an object
      of the size that a request with the record's fingerprint declared. */
  lemma SucceededIsStored(fp: C.Fingerprinter, g: L.Setting, content: Content, steps: seq<C.Step>, k: C.OperationKey)
    returns (u: C.Payload)
    requires L.Sound(g) && Sized(content) && AllOrderly(fp, g, C.INITIAL, steps)
    requires DistinctDocuments(C.Run(fp, C.INITIAL, steps).operations)
    requires var s := C.Run(fp, C.INITIAL, steps); k in s.operations && s.operations[k].state.Succeeded?
    ensures var s := C.Run(fp, C.INITIAL, steps);
            var e := L.Run(g.h, NOTHING, StoreRun(fp, content, C.INITIAL, steps));
            var id := s.operations[k].documentId;
            && u in s.started && fp(u) == s.operations[k].fingerprint
            && id in e.rows && e.rows[id].status.Available? && C.Describes(u, e.rows[id])
            && e.rows[id].storageKey in e.objects && |e.objects[e.rows[id].storageKey]| == u.size
  {
    u := SucceededHasItsRow(fp, steps, k);
    KeyedUploadsAgree(fp, g, content, steps, C.Run(fp, C.INITIAL, steps).operations[k].documentId);
  }

  // ---- Why the documents must differ ------------------------------------------------------------

  function ClaimAndPut(c: nat, r: C.Request, id: string): seq<C.Step> {
    [C.Start(c, r, id)] + ([ReplayGuard.Go(c)] + ([ReplayGuard.Go(c)] + ([ReplayGuard.Go(c)] + [])))
  }

  /** Two keys that name one document: both claim and put, one saves, the other finds the row and
      removes the object. */
  function TwoKeys(a: C.Request, b: C.Request, id: string): seq<C.Step> {
    ClaimAndPut(0, a, id)
    + (ClaimAndPut(1, b, id) + ([ReplayGuard.Go(0)] + ([ReplayGuard.Go(1)] + ([ReplayGuard.Go(1)] + []))))
  }

  lemma StoreRunFirst(fp: C.Fingerprinter, content: Content, s: C.State, x: C.Step, rest: seq<C.Step>)
    ensures StoreRun(fp, content, s, [x] + rest)
            == StoreSteps(content, s, x) + StoreRun(fp, content, C.Exec(fp, s, x), rest)
  {
    assert ([x] + rest)[1..] == rest;
  }

  lemma {:induction false} StoreRunConcat(fp: C.Fingerprinter, content: Content, s: C.State, a: seq<C.Step>,
                                          b: seq<C.Step>)
    ensures StoreRun(fp, content, s, a + b)
            == StoreRun(fp, content, s, a) + StoreRun(fp, content, C.Run(fp, s, a), b)
    decreases |a|
  {
    if a == [] {
      assert a + b == b;
    } else {
      assert (a + b)[1..] == a[1..] + b;
      StoreRunConcat(fp, content, C.Exec(fp, s, a[0]), a[1..], b);
    }
  }

  function Claimed(fp: C.Fingerprinter, s: C.State, c: nat, r: C.Request, id: string): C.State {
    s.(operations := s.operations[r.key := C.Operation(fp(r.payload), id, C.Pending)],
       clients := s.clients[c := C.Client(r, C.Saving(id))], started := s.started + {r.payload})
  }

  lemma ClaimsAndPuts(fp: C.Fingerprinter, content: Content, s: C.State, c: nat, r: C.Request, id: string)
    requires c !in s.clients && r.key !in s.operations && id !in s.rows && r.payload.documentId == Some(id)
    ensures C.Run(fp, s, ClaimAndPut(c, r, id)) == Claimed(fp, s, c, r, id)
    ensures StoreRun(fp, content, s, ClaimAndPut(c, r, id))
            == UploadUpToSave(c, id, r.payload.partition, JobOf(content, r))
  {
    var x0, x := C.Start(c, r, id), ReplayGuard.Go(c);
    var s1 := C.Exec(fp, s, x0);
    var s2 := C.Exec(fp, s1, x);
    assert s2 == C.AfterInsert(fp, s1, c, Answered);
    var s3 := C.Exec(fp, s2, x);
    assert s3 == C.AfterCheck(s2, c, Answered) == C.Goto(s2, c, C.Putting(id));
    var s4 := C.Exec(fp, s3, x);
    assert s4 == C.AfterPut(s3, c, Answered) == C.Goto(s3, c, C.Saving(id));
    ReplayGuard.RunFirst(fp, s, x0, [x] + ([x] + ([x] + [])));
    ReplayGuard.RunFirst(fp, s1, x, [x] + ([x] + []));
    ReplayGuard.RunFirst(fp, s2, x, [x] + []);
    ReplayGuard.RunFirst(fp, s3, x, []);
    StoreRunFirst(fp, content, s, x0, [x] + ([x] + ([x] + [])));
    StoreRunFirst(fp, content, s1, x, [x] + ([x] + []));
    StoreRunFirst(fp, content, s2, x, [x] + []);
    StoreRunFirst(fp, content, s3, x, []);
  }

  lemma LoserCleans(fp: C.Fingerprinter, content: Content, s: C.State, id: string)
    requires 0 in s.clients && 1 in s.clients && id !in s.rows
    requires s.clients[0].phase == s.clients[1].phase == C.Saving(id)
    ensures var x, y := ReplayGuard.Go(0), ReplayGuard.Go(1);
            StoreRun(fp, content, s, [x] + ([y] + ([y] + []))) == [Go(0, 0)] + ([Go(1, 0)] + ([Go(1, 0)] + []))
  {
    var x, y := ReplayGuard.Go(0), ReplayGuard.Go(1);
    var s1 := C.Exec(fp, s, x);
    assert s1 == C.AfterSave(s, 0, Answered, 0);
    var s2 := C.Exec(fp, s1, y);
    assert s2 == C.AfterSave(s1, 1, Answered, 0) == C.Goto(s1, 1, C.Cleaning(id));
    StoreRunFirst(fp, content, s, x, [y] + ([y] + []));
    StoreRunFirst(fp, content, s1, y, [y] + []);
    StoreRunFirst(fp, content, s2, y, []);
  }

  /** Steps of placed requests that are all answered. */
  ghost predicate Plain(g: L.Setting, steps: seq<C.Step>) {
    forall i :: 0 <= i < |steps| ==>
      (steps[i].Start? && Orderly(g, C.INITIAL, steps[i])) || (steps[i].Advance? && steps[i].reply.Answered?)
  }

  lemma {:induction false} PlainIsOrderly(fp: C.Fingerprinter, g: L.Setting, s: C.State, steps: seq<C.Step>)
    requires Plain(g, steps)
    ensures AllOrderly(fp, g, s, steps)
    decreases |steps|
  {
    if steps != [] { PlainIsOrderly(fp, g, C.Exec(fp, s, steps[0]), steps[1..]); }
  }

  lemma TwoKeysRun(fp: C.Fingerprinter, content: Content, a: C.Request, b: C.Request, id: string)
    requires a.key != b.key && a.payload == b.payload && JobOf(content, a) == JobOf(content, b)
    requires a.payload.documentId == Some(id)
    ensures StoreRun(fp, content, C.INITIAL, TwoKeys(a, b, id))
            == Counterexamples.TwoUploads(id, a.payload.partition, JobOf(content, a))
  {
    var s1 := Claimed(fp, C.INITIAL, 0, a, id);
    var s2 := Claimed(fp, s1, 1, b, id);
    var rest := [ReplayGuard.Go(0)] + ([ReplayGuard.Go(1)] + ([ReplayGuard.Go(1)] + []));
    ClaimsAndPuts(fp, content, C.INITIAL, 0, a, id);
    ClaimsAndPuts(fp, content, s1, 1, b, id);
    LoserCleans(fp, content, s2, id);
    StoreRunConcat(fp, content, C.INITIAL, ClaimAndPut(0, a, id), ClaimAndPut(1, b, id) + rest);
    StoreRunConcat(fp, content, s1, ClaimAndPut(1, b, id), rest);
  }

  /** Without that hypothesis the theorem fails: two requests for one document under different keys
      are two overlapping uploads, and leave an AVAILABLE row without its object. */
  lemma SharedDocumentDisagrees(fp: C.Fingerprinter, g: L.Setting, content: Content, a: C.Request, b: C.Request,
                                id: string)
    requires a.key != b.key && a.payload == b.payload && JobOf(content, a) == JobOf(content, b)
    requires a.payload.documentId == Some(id) && SlashFree(id) && a.payload.partition.partitionId in g.partitionIds
    ensures var run := StoreRun(fp, content, C.INITIAL, TwoKeys(a, b, id));
            var e := L.Run(g.h, NOTHING, run);
            && AllOrderly(fp, g, C.INITIAL, TwoKeys(a, b, id))
            && run == Counterexamples.TwoUploads(id, a.payload.partition, JobOf(content, a))
            && id in e.rows && e.rows[id].status.Available? && e.rows[id].storageKey !in e.objects
  {
    TwoKeysRun(fp, content, a, b, id);
    PlainIsOrderly(fp, g, C.INITIAL, TwoKeys(a, b, id));
    Counterexamples.OverlappingUploadsDisagree(g, id, a.payload.partition, JobOf(content, a));
  }
}

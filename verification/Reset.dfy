/** Clearing one partition, or everything, from three stores without a transaction. */
module Reset {
  import opened Domain
  import opened Namespaces
  import opened Lifecycle
  import opened ClaimProtocol
  import opened Stores
  import Like

  datatype StoreName = ObjectsStore | MetadataRows | UploadOperations

  datatype DataResetResult = DataResetResult(
    metadataDeleted: nat,
    objectsDeleted: nat,
    operationsDeleted: nat,
    readyForDataLoad: bool)

  /** The result, and the stores that failed: a non-empty list is raised as an error carrying the result. */
  datatype ResetOutcome = ResetOutcome(result: DataResetResult, failedStores: seq<StoreName>)

  function ObjectPrefix(h: Hash, partition: Option<DocumentPartition>): string {
    match partition
    case Some(p) => StoragePrefix(h, p)
    case None => "documents/"
  }

  function ScopePattern(h: Hash, partition: Option<DocumentPartition>): Option<string> {
    match partition
    case Some(p) => Some(OperationScopePrefix(h, p) + "%")
    case None => None
  }

  // ---- What clearing one store may leave ------------------------------------------

  ghost predicate RowsCleared(partition: Option<DocumentPartition>, before: Rows, after: Rows, count: nat,
                              failed: bool)
  {
    && |before| == |after| + count
    && after == if failed then before else before - RowsOf(before, partition)
  }

  ghost predicate OperationsCleared(rule: Like.CaseRule, pattern: Option<string>, before: Operations, after: Operations,
                                    count: nat, failed: bool)
  {
    && |before| == |after| + count
    && after == if failed then before else before - OperationsLike(rule, before, pattern)
  }

  /** One store's contents are cleared. */
  ghost predicate PartCleared(h: Hash, rule: Like.CaseRule, partition: Option<DocumentPartition>, name: StoreName,
                              before: Contents, after: Contents, count: nat, failed: bool)
  {
    match name
    case ObjectsStore => PrefixCleared(ObjectPrefix(h, partition), before.objects, after.objects, count, failed)
    case MetadataRows => RowsCleared(partition, before.rows, after.rows, count, failed)
    case UploadOperations =>
      OperationsCleared(rule, ScopePattern(h, partition), before.operations, after.operations, count, failed)
  }

  predicate PartSame(name: StoreName, before: Contents, after: Contents) {
    match name
    case ObjectsStore => before.objects == after.objects
    case MetadataRows => before.rows == after.rows
    case UploadOperations => before.operations == after.operations
  }

  predicate OthersSame(name: StoreName, before: Contents, after: Contents) {
    match name
    case ObjectsStore => after == before.(objects := after.objects)
    case MetadataRows => after == before.(rows := after.rows)
    case UploadOperations => after == before.(operations := after.operations)
  }

  /** Which stores have raised. */
  datatype Flags = Flags(objects: bool, rows: bool, operations: bool)
  {
    function And(failed: seq<StoreName>): Flags {
      Flags(objects || ObjectsStore in failed, rows || MetadataRows in failed, operations || UploadOperations in failed)
    }

    function With(name: StoreName, failed: bool): Flags {
      Flags(objects || (failed && name.ObjectsStore?), rows || (failed && name.MetadataRows?),
            operations || (failed && name.UploadOperations?))
    }
  }

  /** The stores counted so far are cleared, and the others are unchanged. */
  ghost predicate Progress(h: Hash, rule: Like.CaseRule, partition: Option<DocumentPartition>,
                           before: Contents, after: Contents, counts: map<StoreName, nat>, failed: seq<StoreName>)
  {
    forall name: StoreName ::
      if name in counts then PartCleared(h, rule, partition, name, before, after, counts[name], name in failed)
      else PartSame(name, before, after) && name !in failed
  }

  function Noted(failed: seq<StoreName>, name: StoreName, cleared: Clearing): seq<StoreName> {
    if cleared.Cleared? then failed else failed + [name]
  }

  lemma PartChains(h: Hash, rule: Like.CaseRule, partition: Option<DocumentPartition>, name: StoreName,
                   before: Contents, mid: Contents, after: Contents, count: nat, failed: bool)
    ensures PartSame(name, before, mid) && PartCleared(h, rule, partition, name, mid, after, count, failed) ==>
              PartCleared(h, rule, partition, name, before, after, count, failed)
    ensures PartCleared(h, rule, partition, name, before, mid, count, failed) && PartSame(name, mid, after) ==>
              PartCleared(h, rule, partition, name, before, after, count, failed)
  {
  }

  predicate Attempted(stores: seq<StoreName>, i: nat, counts: map<StoreName, nat>) {
    && (forall j :: 0 <= j < |stores| ==> (stores[j] in counts <==> j < i))
    && (UploadOperations in counts ==> UploadOperations in stores)
    && (forall j, k :: 0 <= j < k < |stores| ==> stores[j] != stores[k])
  }

  lemma OneMoreAttempted(stores: seq<StoreName>, i: nat, counts: map<StoreName, nat>, counts': map<StoreName, nat>)
    requires i < |stores| && Attempted(stores, i, counts) && counts'.Keys == counts.Keys + {stores[i]}
    ensures Attempted(stores, i + 1, counts')
  {
    forall j | 0 <= j < |stores| ensures stores[j] in counts' <==> j < i + 1 {
      assert stores[j] in counts' <==> stores[j] in counts || stores[j] == stores[i];
    }
  }

  /** The stores a reset goes through. */
  function StoresOf(withOperations: bool): seq<StoreName> {
    if withOperations then [ObjectsStore, MetadataRows, UploadOperations] else [ObjectsStore, MetadataRows]
  }

  lemma AllAttempted(withOperations: bool, counts: map<StoreName, nat>)
    requires Attempted(StoresOf(withOperations), |StoresOf(withOperations)|, counts)
    ensures ObjectsStore in counts && MetadataRows in counts
    ensures UploadOperations in counts <==> withOperations
  {
    var stores := StoresOf(withOperations);
    assert stores[0] in counts && stores[1] in counts;
    assert withOperations ==> stores[2] in counts;
  }

  /** The order in which the stores are cleared. */
  function Turn(name: StoreName): nat {
    match name
    case ObjectsStore => 0
    case MetadataRows => 1
    case UploadOperations => 2
  }

  lemma TurnsFollow(withOperations: bool, i: nat)
    requires i < |StoresOf(withOperations)|
    ensures Turn(StoresOf(withOperations)[i]) == i
  {
  }

  /** The failed stores among the first `n`, in their order and each once. */
  ghost predicate InTurn(failed: seq<StoreName>, n: nat) {
    && (forall i :: 0 <= i < |failed| ==> Turn(failed[i]) < n)
    && forall i, j :: 0 <= i < j < |failed| ==> Turn(failed[i]) < Turn(failed[j])
  }

  lemma NotedInTurn(failed: seq<StoreName>, name: StoreName, cleared: Clearing)
    ensures InTurn(failed, Turn(name)) ==> InTurn(Noted(failed, name, cleared), Turn(name) + 1)
  {
  }

  function OutcomeOf(counts: map<StoreName, nat>, failed: seq<StoreName>): ResetOutcome
    requires ObjectsStore in counts && MetadataRows in counts
  {
    var operations := if UploadOperations in counts then counts[UploadOperations] else 0;
    ResetOutcome(DataResetResult(counts[MetadataRows], counts[ObjectsStore], operations, failed == []), failed)
  }

  lemma PartsOf(h: Hash, rule: Like.CaseRule, partition: Option<DocumentPartition>,
                before: Contents, after: Contents, counts: map<StoreName, nat>, failed: seq<StoreName>)
    requires Progress(h, rule, partition, before, after, counts, failed)
    requires ObjectsStore in counts && MetadataRows in counts
    ensures var r := OutcomeOf(counts, failed);
            && r.failedStores == failed && (r.result.readyForDataLoad <==> failed == [])
            && PrefixCleared(ObjectPrefix(h, partition), before.objects, after.objects, r.result.objectsDeleted,
                             ObjectsStore in failed)
            && RowsCleared(partition, before.rows, after.rows, r.result.metadataDeleted, MetadataRows in failed)
            && if UploadOperations in counts then
              OperationsCleared(rule, ScopePattern(h, partition), before.operations, after.operations,
                                r.result.operationsDeleted, UploadOperations in failed)
            else r.result.operationsDeleted == 0 && UploadOperations !in failed
  {
    assert PartCleared(h, rule, partition, ObjectsStore, before, after, counts[ObjectsStore], ObjectsStore in failed);
    assert PartCleared(h, rule, partition, MetadataRows, before, after, counts[MetadataRows], MetadataRows in failed);
    assert UploadOperations in counts ==>
      PartCleared(h, rule, partition, UploadOperations, before, after, counts[UploadOperations],
                  UploadOperations in failed);
    assert UploadOperations !in counts ==> PartSame(UploadOperations, before, after);
  }

  lemma FlagsAnd(f: Flags, failed: seq<StoreName>, name: StoreName, cleared: Clearing)
    ensures f.And(failed).With(name, !cleared.Cleared?) == f.And(Noted(failed, name, cleared))
  {
  }

  /** Clearing one more store keeps what is known of the others. */
  lemma OneMoreStore(h: Hash, rule: Like.CaseRule, partition: Option<DocumentPartition>,
                     before: Contents, mid: Contents, after: Contents, counts: map<StoreName, nat>,
                     failed: seq<StoreName>, name: StoreName, cleared: Clearing)
    requires Progress(h, rule, partition, before, mid, counts, failed) && name !in counts
    requires PartCleared(h, rule, partition, name, mid, after, cleared.Count(), !cleared.Cleared?)
    requires OthersSame(name, mid, after)
    ensures Progress(h, rule, partition, before, after, counts[name := cleared.Count()], Noted(failed, name, cleared))
  {
    forall s: StoreName
      ensures s in Noted(failed, name, cleared) <==> s in failed || (s == name && !cleared.Cleared?)
      ensures if s in counts[name := cleared.Count()]
              then PartCleared(h, rule, partition, s, before, after, counts[name := cleared.Count()][s],
                               s in Noted(failed, name, cleared))
              else PartSame(s, before, after)
    {
      PartChains(h, rule, partition, s, before, mid, after, if s == name then cleared.Count() else
                   if s in counts then counts[s] else 0, s in Noted(failed, name, cleared));
      assert PartSame(s, before, mid) && PartSame(s, mid, after) ==> PartSame(s, before, after);
    }
  }

  class Sdk {
    const objectStore: ObjectStore
    const metadataStore: MetadataStore
    const operationStore: UploadOperationStore?

    constructor (objectStore: ObjectStore, metadataStore: MetadataStore, operationStore: UploadOperationStore?)
      ensures this.objectStore == objectStore && this.metadataStore == metadataStore
      ensures this.operationStore == operationStore
    {
      this.objectStore := objectStore;
      this.metadataStore := metadataStore;
      this.operationStore := operationStore;
    }

    ghost function Now(): Contents
      reads objectStore, metadataStore, operationStore
    {
      Contents(metadataStore.rows, objectStore.objects,
               if operationStore == null then map[] else operationStore.operations)
    }

    ghost function Raised(): Flags
      reads objectStore, metadataStore, operationStore
    {
      Flags(objectStore.raised, metadataStore.raised, operationStore != null && operationStore.raised)
    }

    /** Clears the stores in turn. A store is noted as failed exactly when it raised itself, so
        the later ones are still attempted; for each store what was there is what is left plus
        the reported count. */
    method ResetData(h: Hash, rule: Like.CaseRule, partition: Option<DocumentPartition>) returns (r: ResetOutcome)
      requires metadataStore.Valid()
      modifies objectStore, metadataStore`rows, metadataStore`raised, operationStore
      ensures metadataStore.Valid()
      ensures PrefixCleared(ObjectPrefix(h, partition), old(Now()).objects, Now().objects,
                             r.result.objectsDeleted, ObjectsStore in r.failedStores)
      ensures RowsCleared(partition, old(Now()).rows, Now().rows, r.result.metadataDeleted,
                          MetadataRows in r.failedStores)
      ensures operationStore != null ==>
                OperationsCleared(rule, ScopePattern(h, partition), old(Now()).operations, Now().operations,
                                  r.result.operationsDeleted, UploadOperations in r.failedStores)
      ensures operationStore == null ==> r.result.operationsDeleted == 0 && UploadOperations !in r.failedStores
      ensures r.result.readyForDataLoad <==> r.failedStores == []
      ensures Raised() == old(Raised()).And(r.failedStores)
      ensures InTurn(r.failedStores, 3)
    {
      ghost var before, flags := Now(), Raised();
      var stores := StoresOf(operationStore != null);
      var counts: map<StoreName, nat> := map[];
      var failed: seq<StoreName> := [];
      for i := 0 to |stores|
        invariant metadataStore.Valid() && Attempted(stores, i, counts)
        invariant Progress(h, rule, partition, before, Now(), counts, failed)
        invariant Raised() == flags.And(failed)
        invariant InTurn(failed, i)
      {
        ghost var earlier := counts;
        TurnsFollow(operationStore != null, i);
        counts, failed := ClearNext(h, rule, partition, stores[i], before, flags, counts, failed);
        OneMoreAttempted(stores, i, earlier, counts);
      }
      AllAttempted(operationStore != null, counts);
      PartsOf(h, rule, partition, before, Now(), counts, failed);
      r := OutcomeOf(counts, failed);
    }

    /** One turn of the loop: clears a store, counts what went, and notes a failure. */
    method ClearNext(h: Hash, rule: Like.CaseRule, partition: Option<DocumentPartition>, name: StoreName,
                     ghost before: Contents, ghost flags: Flags, counts: map<StoreName, nat>, failed: seq<StoreName>)
      returns (counts': map<StoreName, nat>, failed': seq<StoreName>)
      requires metadataStore.Valid() && (name.UploadOperations? ==> operationStore != null) && name !in counts
      requires Progress(h, rule, partition, before, Now(), counts, failed) && Raised() == flags.And(failed)
      modifies objectStore, metadataStore`rows, metadataStore`raised, operationStore
      ensures metadataStore.Valid() && counts'.Keys == counts.Keys + {name}
      ensures Progress(h, rule, partition, before, Now(), counts', failed') && Raised() == flags.And(failed')
      ensures InTurn(failed, Turn(name)) ==> InTurn(failed', Turn(name) + 1)
    {
      ghost var mid := Now();
      var cleared := ClearStore(h, rule, partition, name);
      OneMoreStore(h, rule, partition, before, mid, Now(), counts, failed, name, cleared);
      FlagsAnd(flags, failed, name, cleared);
      NotedInTurn(failed, name, cleared);
      counts' := counts[name := cleared.Count()];
      failed' := Noted(failed, name, cleared);
    }

    method ClearObjects(h: Hash, rule: Like.CaseRule, partition: Option<DocumentPartition>) returns (cleared: Clearing)
      requires metadataStore.Valid()
      modifies objectStore
      ensures metadataStore.Valid()
      ensures PartCleared(h, rule, partition, ObjectsStore, old(Now()), Now(), cleared.Count(), !cleared.Cleared?)
      ensures OthersSame(ObjectsStore, old(Now()), Now())
      ensures Raised() == old(Raised()).With(ObjectsStore, !cleared.Cleared?)
    {
      cleared := objectStore.ClearPrefix(ObjectPrefix(h, partition));
    }

    method ClearRows(h: Hash, rule: Like.CaseRule, partition: Option<DocumentPartition>) returns (cleared: Clearing)
      requires metadataStore.Valid()
      modifies metadataStore`rows, metadataStore`raised
      ensures metadataStore.Valid()
      ensures PartCleared(h, rule, partition, MetadataRows, old(Now()), Now(), cleared.Count(), !cleared.Cleared?)
      ensures OthersSame(MetadataRows, old(Now()), Now())
      ensures Raised() == old(Raised()).With(MetadataRows, !cleared.Cleared?)
    {
      ghost var before := Now();
      cleared := metadataStore.ClearRows(partition);
      assert Now() == before.(rows := metadataStore.rows);
    }

    method ClearOperations(h: Hash, rule: Like.CaseRule, partition: Option<DocumentPartition>)
      returns (cleared: Clearing)
      requires metadataStore.Valid() && operationStore != null
      modifies operationStore
      ensures metadataStore.Valid()
      ensures PartCleared(h, rule, partition, UploadOperations, old(Now()), Now(), cleared.Count(), !cleared.Cleared?)
      ensures OthersSame(UploadOperations, old(Now()), Now())
      ensures Raised() == old(Raised()).With(UploadOperations, !cleared.Cleared?)
    {
      cleared := operationStore.ClearAll(rule, ScopePattern(h, partition));
    }

    method ClearStore(h: Hash, rule: Like.CaseRule, partition: Option<DocumentPartition>, name: StoreName)
      returns (cleared: Clearing)
      requires metadataStore.Valid() && (name.UploadOperations? ==> operationStore != null)
      modifies objectStore, metadataStore`rows, metadataStore`raised, operationStore
      ensures metadataStore.Valid()
      ensures PartCleared(h, rule, partition, name, old(Now()), Now(), cleared.Count(), !cleared.Cleared?)
      ensures OthersSame(name, old(Now()), Now())
      ensures Raised() == old(Raised()).With(name, !cleared.Cleared?)
    {
      match name {
        case ObjectsStore => cleared := ClearObjects(h, rule, partition);
        case MetadataRows => cleared := ClearRows(h, rule, partition);
        case UploadOperations => cleared := ClearOperations(h, rule, partition);
      }
    }
  }

  // ---- What a partition reset leaves of the others, and of its own -------------------

  /** Objects stored for another partition survive, whatever failed. */
  lemma OtherObjectsUntouched(h: Hash, p: DocumentPartition, before: Objects, after: Objects, count: nat, failed: bool,
                              q: DocumentPartition, id: string, f: string)
    requires HexDigests(h) && NoCollision(h, p.partitionId, q.partitionId) && p != q
    requires PrefixCleared(ObjectPrefix(h, Some(p)), before, after, count, failed)
    requires StorageKey(h, q, id, f) in before
    ensures StorageKey(h, q, id, f) in after && after[StorageKey(h, q, id, f)] == before[StorageKey(h, q, id, f)]
  {
    var key := StorageKey(h, q, id, f);
    assert !(StoragePrefix(h, p) <= key) by {
      if StoragePrefix(h, p) <= key {
        var x := key[|StoragePrefix(h, p)|..];
        var y := id + "/" + SanitizeFilename(f);
        KeySplits(h, q, id, f);
        PrefixesPart(h, p, q, key, x, y);
      }
    }
  }

  lemma KeySplits(h: Hash, q: DocumentPartition, id: string, f: string)
    ensures StorageKey(h, q, id, f) == StoragePrefix(h, q) + (id + "/" + SanitizeFilename(f))
  {
  }

  lemma PrefixesPart(h: Hash, p: DocumentPartition, q: DocumentPartition, key: string, x: string, y: string)
    requires HexDigests(h) && NoCollision(h, p.partitionId, q.partitionId)
    requires StoragePrefix(h, p) <= key && x == key[|StoragePrefix(h, p)|..]
    requires key == StoragePrefix(h, q) + y
    ensures p == q
  {
    assert key == StoragePrefix(h, p) + x;
    StoragePrefixesDisjoint(h, p, q, x, y);
  }

  /** Whatever failed, the rows of other partitions are unchanged and go on agreeing with their
      objects; on success no row of the partition is left. */
  lemma OtherRowsUntouched(g: Setting, p: DocumentPartition, o: Objects, o': Objects, objectCount: nat,
                           objectsFailed: bool, m: Rows, m': Rows, count: nat, failed: bool, id: string)
    requires Sound(g) && RowsInv(g, m) && StoresAgree(m, o) && p.partitionId in g.partitionIds
    requires PrefixCleared(ObjectPrefix(g.h, Some(p)), o, o', objectCount, objectsFailed)
    requires RowsCleared(Some(p), m, m', count, failed)
    ensures id in m && m[id].partition != p ==> id in m' && m'[id] == m[id] && RowMatchesObject(m'[id], o')
    ensures !failed && id in m' ==> m'[id].partition != p
  {
    if id in m && m[id].partition != p {
      var row := m[id];
      assert WellStored(g, row) && RowMatchesObject(row, o);
      if row.storageKey in o {
        OtherObjectsUntouched(g.h, p, o, o', objectCount, objectsFailed, row.partition, id, row.originalFilename);
      }
    }
  }

  /** Every record's scope was built for some partition. */
  ghost predicate ScopesBuilt(h: Hash, operations: Operations, owner: map<OperationKey, DocumentPartition>) {
    forall k :: k in operations ==>
      k in owner && OperationScopePrefix(h, owner[k]) <= k.scope
  }

  /** Clearing by one partition's pattern removes exactly that partition's records. */
  lemma OperationsOfPartition(rule: Like.CaseRule, h: Hash, p: DocumentPartition, before: Operations, after: Operations,
                              count: nat, failed: bool, owner: map<OperationKey, DocumentPartition>, k: OperationKey)
    requires HexDigests(h) && ScopesBuilt(h, before, owner) && k in before
    requires NoCollision(h, p.partitionId, owner[k].partitionId)
    requires OperationsCleared(rule, ScopePattern(h, Some(p)), before, after, count, failed)
    ensures owner[k] != p ==> k in after && after[k] == before[k]
    ensures !failed ==> (k in after <==> owner[k] != p)
  {
    var scope := k.scope[|OperationScopePrefix(h, owner[k])|..];
    assert k.scope == OperationScope(h, owner[k], scope);
    Like.ScopePatternExact(rule, h, p, owner[k], scope);
  }

  /** A reset that reports ready has left nothing of the partition in any store. */
  lemma ReadyMeansEmpty(rule: Like.CaseRule, h: Hash, p: DocumentPartition, r: ResetOutcome,
                        o: Objects, o': Objects, m: Rows, m': Rows, u: Operations, u': Operations,
                        owner: map<OperationKey, DocumentPartition>)
    requires HexDigests(h) && ScopesBuilt(h, u, owner)
    requires forall k :: k in owner ==> NoCollision(h, p.partitionId, owner[k].partitionId)
    requires PrefixCleared(ObjectPrefix(h, Some(p)), o, o', r.result.objectsDeleted, ObjectsStore in r.failedStores)
    requires RowsCleared(Some(p), m, m', r.result.metadataDeleted, MetadataRows in r.failedStores)
    requires OperationsCleared(rule, ScopePattern(h, Some(p)), u, u', r.result.operationsDeleted,
                               UploadOperations in r.failedStores)
    requires r.result.readyForDataLoad <==> r.failedStores == []
    requires r.result.readyForDataLoad
    ensures forall id, f :: StorageKey(h, p, id, f) !in o'
    ensures forall id :: id in m' ==> m'[id].partition != p
    ensures forall k :: k in u' ==> owner[k] != p
  {
    forall id, f ensures StorageKey(h, p, id, f) !in o' {
      assert StorageKey(h, p, id, f) !in Under(o', StoragePrefix(h, p));
      KeySplits(h, p, id, f);
    }
    forall k | k in u' ensures owner[k] != p {
      OperationsOfPartition(rule, h, p, u, u', r.result.operationsDeleted, false, owner, k);
    }
  }

  /** A reset of everything that reports ready has left no document of any partition, no row and
      no record. */
  lemma FullResetMeansEmpty(rule: Like.CaseRule, h: Hash, r: ResetOutcome, o: Objects, o': Objects, m: Rows, m': Rows,
                            u: Operations, u': Operations)
    requires PrefixCleared(ObjectPrefix(h, None), o, o', r.result.objectsDeleted, ObjectsStore in r.failedStores)
    requires RowsCleared(None, m, m', r.result.metadataDeleted, MetadataRows in r.failedStores)
    requires OperationsCleared(rule, ScopePattern(h, None), u, u', r.result.operationsDeleted,
                               UploadOperations in r.failedStores)
    requires (r.result.readyForDataLoad <==> r.failedStores == []) && r.result.readyForDataLoad
    ensures forall p, id, f :: StorageKey(h, p, id, f) !in o'
    ensures forall k :: k in o' ==> !("documents/" <= k)
    ensures m' == map[] && u' == map[]
  {
    forall k | k in o' ensures !("documents/" <= k) {
      assert k !in Under(o', "documents/");
    }
    forall p, id, f ensures StorageKey(h, p, id, f) !in o' {
      KeyBegins(h, p, id, f);
    }
  }

  lemma KeyBegins(h: Hash, p: DocumentPartition, id: string, f: string)
    ensures "documents/" <= StorageKey(h, p, id, f)
  {
    var key := StorageKey(h, p, id, f);
    assert key[..10] == "documents/";
  }

  /** Whatever failed, objects outside the documents are untouched by it. */
  lemma OutsideDocumentsUntouched(h: Hash, before: Objects, after: Objects, count: nat, failed: bool, key: string)
    requires PrefixCleared(ObjectPrefix(h, None), before, after, count, failed)
    requires key in before && !("documents/" <= key)
    ensures key in after && after[key] == before[key]
  {
  }
}

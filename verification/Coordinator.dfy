/** The reconciliation coordinator over its two stores: inspection, one recovery, and the
    loops over a batch and over a plan. Each is held against its undisturbed form. */
module Coordinator {
  import opened Domain
  import opened Text
  import opened Namespaces
  import opened Lifecycle
  import opened Inspection
  import opened Stores
  import opened Reconciliation
  import opened Batches

  lemma OneMoreItem(h: Hash, s: Stored, items: seq<PlanItem>, i: nat, dryRun: bool, partition: DocumentPartition,
                    clock: Clock,
                    mid: Stored, results: seq<ReconciliationResult>, after: Stored, result: ReconciliationResult)
    requires i < |items| && (mid, results) == BatchAlone(h, s, items[..i], dryRun, partition, clock)
    requires (after, result)
             == ItemAlone(h, mid, items[i].documentId, items[i].action, items[i].storageKey, dryRun, partition,
                          clock(i))
    ensures (after, results + [result]) == BatchAlone(h, s, items[..i + 1], dryRun, partition, clock)
  {
    assert items[..i] + [items[i]] == items[..i + 1];
    BatchAppends(h, s, items[..i], items[i], dryRun, partition, clock);
  }

  class ReconciliationCoordinator {
    const metadataStore: MetadataStore
    const objectStore: ObjectStore

    constructor (metadataStore: MetadataStore, objectStore: ObjectStore)
      ensures this.metadataStore == metadataStore && this.objectStore == objectStore
    {
      this.metadataStore := metadataStore;
      this.objectStore := objectStore;
    }

    ghost function Now(): Stored
      reads metadataStore, objectStore
    {
      Stored(metadataStore.rows, objectStore.objects)
    }

    ghost predicate Raised()
      reads metadataStore, objectStore
    {
      metadataStore.raised || objectStore.raised
    }

    method InspectDocument(id: string, partition: DocumentPartition)
      returns (r: Result<DocumentInspection, RecoveryError>)
      requires metadataStore.Valid()
      modifies metadataStore`raised, objectStore`raised
      ensures metadataStore.Valid()
      ensures r == Ok(Inspect(Now().rows, Now().objects, id, partition)) || (r == Err(StoreError) && Raised())
      ensures Raised() <==> old(Raised()) || r.Err?
    {
      var found := metadataStore.GetMetadata(id, partition);
      if found.Err? {
        return if found.error.Missing? then Ok(DocumentInspection(id, false, None, None, false, MetadataMissing, None))
               else Err(StoreError);
      }
      var m := found.value;
      var present := objectStore.ObjectExists(m.storageKey);
      if present.Err? { return Err(StoreError); }
      var consistent, issue;
      if m.status.Deleted? && !present.value { consistent, issue := true, NoIssue; }
      else if !present.value { consistent, issue := false, ObjectMissing; }
      else if m.status.Deleting? { consistent, issue := false, DeletionIncomplete; }
      else if m.status.Failed? { consistent, issue := false, FailedStatus; }
      else { consistent, issue := true, NoIssue; }
      r := Ok(DocumentInspection(id, true, Some(present.value), Some(m.status), consistent, issue, Some(m.storageKey)));
    }

    /** Carries out an action whose conditions hold. */
    method Carry(id: string, action: RecoveryAction, storageKey: Option<string>, partition: DocumentPartition, now: int)
      returns (done: bool)
      requires metadataStore.Valid() && (action.PurgeOrphan? ==> storageKey.Some?)
      requires !action.PurgeOrphan? ==> Lookup(metadataStore.rows, id, partition).Some?
      modifies metadataStore`rows, metadataStore`raised, objectStore
      ensures metadataStore.Valid()
      ensures done ==> Now() == Effect(old(Now()), id, action, storageKey, now) && Raised() == old(Raised())
      ensures !done ==> Raised() && (Now() == old(Now()) || Now() == Effect(old(Now()), id, action, storageKey, now))
    {
      match action {
        case PurgeOrphan =>
          done := objectStore.DeleteObject(storageKey.value);
        case CompleteHard =>
          var erased := metadataStore.HardDelete(id, partition);
          done := erased.Ok?;
        case CompleteSoft =>
          var marked := metadataStore.MarkDeleted(id, partition, now);
          done := marked.Ok?;
        case MarkAsFailed =>
          var found := metadataStore.GetMetadata(id, partition);
          if found.Err? { return false; }
          var updated := metadataStore.UpdateMetadata(WithStatus(found.value, DocumentStatus.Failed, now));
          done := updated.Ok?;
      }
    }

    /** The conditions of an action, after the inspection. */
    method Check(h: Hash, seen: DocumentInspection, id: string, action: RecoveryAction, storageKey: Option<string>,
                 partition: DocumentPartition)
      returns (refusal: Option<RecoveryError>)
      requires seen == Inspect(Now().rows, Now().objects, id, partition)
      modifies objectStore`raised
      ensures refusal == Refusal(h, Now(), id, action, storageKey, partition)
              || (refusal == Some(StoreError) && Raised())
      ensures Raised() <==> old(Raised()) || refusal == Some(StoreError)
    {
      if action.PurgeOrphan? {
        if seen.metadataExists { return Some(ValidationError); }
        if storageKey.None? || Blank(Points(storageKey.value)) { return Some(ValidationError); }
        if !(DocumentPrefix(h, partition, id) <= storageKey.value) { return Some(ValidationError); }
        var present := objectStore.ObjectExists(storageKey.value);
        if present.Err? { return Some(StoreError); }
        return if present.value then None else Some(ValidationError);
      }
      if !seen.metadataExists { return Some(NotFoundError); }
      if action.MarkAsFailed? {
        return if seen.objectExists != Some(false) then Some(ValidationError) else None;
      }
      return if seen.status != Some(Deleting) || seen.objectExists != Some(false) then Some(ValidationError) else None;
    }

    /** Inspects, checks, acts unless it is a dry run, and inspects again. What it does and
        answers is `ApplyAlone`, unless a store raised: then nothing, or all of it, happened. */
    method Apply(h: Hash, id: string, action: RecoveryAction, storageKey: Option<string>, dryRun: bool,
                 partition: DocumentPartition, now: int)
      returns (r: Result<ReconciliationResult, RecoveryError>)
      requires metadataStore.Valid()
      modifies metadataStore`rows, metadataStore`raised, objectStore
      ensures metadataStore.Valid()
      ensures dryRun ==> Now() == old(Now())
      ensures Now() == old(Now()) || Now() == ApplyAlone(h, old(Now()), id, action, storageKey, dryRun, partition,
                                                         now).0
      ensures r != Err(StoreError) ==>
                (Now(), r) == ApplyAlone(h, old(Now()), id, action, storageKey, dryRun, partition, now)
      ensures Raised() <==> old(Raised()) || r == Err(StoreError)
    {
      var seen := InspectDocument(id, partition);
      if seen.Err? { return Err(StoreError); }
      var refusal := Check(h, seen.value, id, action, storageKey, partition);
      if refusal.Some? { return Err(refusal.value); }
      if !dryRun {
        var done := Carry(id, action, storageKey, partition, now);
        if !done { return Err(StoreError); }
      }
      var after := InspectDocument(id, partition);
      if after.Err? { return Err(StoreError); }
      r := Ok(ReconciliationResult(id, action, !dryRun, Some(after.value), None));
    }

    /** An item never raises: an error becomes part of its result. */
    method ReconcileItem(h: Hash, item: PlanItem, dryRun: bool, partition: DocumentPartition, now: int)
      returns (r: ReconciliationResult)
      requires metadataStore.Valid()
      modifies metadataStore`rows, metadataStore`raised, objectStore
      ensures metadataStore.Valid()
      ensures ItemReached(h, old(Now()), item, dryRun, partition, now, Now(), r)
      ensures old(Raised()) || r.error == Some(StoreError) || r.inspection.None? ==> Raised()
      ensures Raised() ==> old(Raised()) || r.error == Some(StoreError) || r.inspection.None?
    {
      var applied := Apply(h, item.documentId, item.action, item.storageKey, dryRun, partition, now);
      if applied.Ok? { return applied.value; }
      var seen := InspectDocument(item.documentId, partition);
      r := ReconciliationResult(item.documentId, item.action, false, if seen.Ok? then Some(seen.value) else None,
                                Some(applied.error));
    }

    /** The items in order, one result each. Nothing is changed by a dry run; without a store
        failure stores and results are those of `BatchAlone`. */
    method ReconcileItems(h: Hash, items: seq<PlanItem>, dryRun: bool, partition: DocumentPartition, clock: Clock)
      returns (results: seq<ReconciliationResult>)
      requires metadataStore.Valid()
      modifies metadataStore`rows, metadataStore`raised, objectStore
      ensures metadataStore.Valid()
      ensures BatchEnded(h, old(Now()), items, dryRun, partition, clock, Now(), results)
      ensures ResultsOf(items, dryRun, results)
      ensures dryRun ==> Now() == old(Now())
      ensures !Raised() ==> (Now(), results) == BatchAlone(h, old(Now()), items, dryRun, partition, clock)
    {
      results := [];
      BatchBegins(h, Now(), dryRun, partition, clock);
      for i := 0 to |items|
        invariant metadataStore.Valid()
        invariant BatchEnded(h, old(Now()), items[..i], dryRun, partition, clock, Now(), results)
        invariant !Raised() ==> (Now(), results) == BatchAlone(h, old(Now()), items[..i], dryRun, partition, clock)
      {
        ghost var mid := Now();
        var result := ReconcileItem(h, items[i], dryRun, partition, clock(i));
        BatchGoesOn(h, old(Now()), items[..i], items[i], dryRun, partition, clock, mid, results, Now(), result);
        if !Raised() {
          OneMoreItem(h, old(Now()), items, i, dryRun, partition, clock, mid, results, Now(), result);
        }
        results := results + [result];
        assert items[..i] + [items[i]] == items[..i + 1];
      }
      assert items[..|items|] == items;
      EndedShape(h, old(Now()), items, dryRun, partition, clock, Now(), results);
    }

    method ReconcileDocuments(h: Hash, status: DocumentStatus, action: RecoveryAction, offset: nat, limit: nat,
                              dryRun: bool,
                              partition: DocumentPartition, candidates: seq<DocumentMetadata>, clock: Clock)
      returns (b: Batch)
      requires metadataStore.Valid()
      modifies metadataStore`rows, metadataStore`raised, objectStore
      ensures metadataStore.Valid()
      ensures b == Batch(partition, status, action, dryRun, offset, limit, b.items)
      ensures b.Scanned() == |candidates| == b.Failed() + b.Applied() + b.Skipped() && b.Skipped() >= 0
      ensures if dryRun then b.Applied() == 0 else b.Skipped() == 0
      ensures ResultsOf(Candidates(candidates, action), dryRun, b.items)
      ensures forall i :: 0 <= i < |candidates| ==>
                b.items[i].documentId == candidates[i].documentId && b.items[i].action == action
      ensures BatchEnded(h, old(Now()), Candidates(candidates, action), dryRun, partition, clock, Now(), b.items)
      ensures dryRun ==> Now() == old(Now())
      ensures !Raised() ==>
                (Now(), b.items) == BatchAlone(h, old(Now()), Candidates(candidates, action), dryRun, partition, clock)
    {
      var items := ReconcileItems(h, Candidates(candidates, action), dryRun, partition, clock);
      b := Batch(partition, status, action, dryRun, offset, limit, items);
      CountersAddUp(Candidates(candidates, action), b);
    }

    method ExecutePlan(h: Hash, plan: Plan, partition: DocumentPartition, clock: Clock)
      returns (r: Result<Batch, PlanError>)
      requires metadataStore.Valid()
      modifies metadataStore`rows, metadataStore`raised, objectStore
      ensures metadataStore.Valid()
      ensures r.Err? <==> plan.partition != partition
      ensures r.Err? ==> r.error.OtherPartition? && Now() == old(Now())
      ensures r.Ok? ==> r.value == Batch(partition, plan.status, plan.action, false, 0, |plan.items|, r.value.items)
      ensures r.Ok? ==> ResultsOf(plan.items, false, r.value.items)
      ensures r.Ok? ==> r.value.Scanned() == |plan.items| == r.value.Failed() + r.value.Applied()
      ensures r.Ok? ==> BatchEnded(h, old(Now()), plan.items, false, partition, clock, Now(), r.value.items)
      ensures r.Ok? && !Raised() ==>
                (Now(), r.value.items) == BatchAlone(h, old(Now()), plan.items, false, partition, clock)
    {
      if plan.partition != partition { return Err(OtherPartition); }
      var items := ReconcileItems(h, plan.items, false, partition, clock);
      r := Ok(Batch(partition, plan.status, plan.action, false, 0, |plan.items|, items));
      CountersAddUp(plan.items, r.value);
    }
  }
}

/** Batches of recoveries: dry runs, the plans exported from them, and their execution. */
module Batches {
  import opened Domain
  import opened Namespaces
  import opened Lifecycle
  import opened LifecycleTheorems
  import opened Runs
  import opened Reconciliation

  datatype PlanItem = PlanItem(documentId: string, action: RecoveryAction, storageKey: Option<string>)

  datatype Plan = Plan(partition: DocumentPartition, status: DocumentStatus, action: RecoveryAction,
                       items: seq<PlanItem>)

  datatype PlanError = NotADryRun | MixedActions | OtherPartition

  /** When each item of a batch is written. */
  type Clock = nat -> int

  // ---- Counters ------------------------------------------------------------------

  function FailedCount(items: seq<ReconciliationResult>): nat {
    if items == [] then 0
    else FailedCount(items[..|items| - 1]) + if items[|items| - 1].error.Some? then 1 else 0
  }

  function AppliedCount(items: seq<ReconciliationResult>): nat {
    if items == [] then 0
    else
      AppliedCount(items[..|items| - 1])
      + if items[|items| - 1].applied && items[|items| - 1].error.None? then 1 else 0
  }

  datatype Batch = Batch(
    partition: DocumentPartition,
    status: DocumentStatus,
    action: RecoveryAction,
    dryRun: bool,
    offset: nat,
    limit: nat,
    items: seq<ReconciliationResult>)
  {
    function Scanned(): int { |items| }

    function Failed(): int { FailedCount(items) }

    function Eligible(): int { Scanned() - Failed() }

    function Applied(): int { AppliedCount(items) }

    function Skipped(): int { Eligible() - Applied() }
  }

  lemma {:induction false} CountsFit(items: seq<ReconciliationResult>)
    ensures FailedCount(items) + AppliedCount(items) <= |items|
  {
    if items != [] {
      CountsFit(items[..|items| - 1]);
    }
  }

  lemma {:induction false} AllCounted(items: seq<ReconciliationResult>)
    requires forall i :: 0 <= i < |items| ==> items[i].applied || items[i].error.Some?
    ensures FailedCount(items) + AppliedCount(items) == |items|
  {
    if items != [] {
      AllCounted(items[..|items| - 1]);
    }
  }

  lemma {:induction false} NoneApplied(items: seq<ReconciliationResult>)
    requires forall i :: 0 <= i < |items| ==> !items[i].applied
    ensures AppliedCount(items) == 0
  {
    if items != [] {
      NoneApplied(items[..|items| - 1]);
    }
  }

  ghost function Failures(items: seq<ReconciliationResult>): set<int> {
    set i | 0 <= i < |items| && items[i].error.Some?
  }

  ghost function Done(items: seq<ReconciliationResult>): set<int> {
    set i | 0 <= i < |items| && items[i].applied && items[i].error.None?
  }

  lemma {:induction false} FailuresCounted(items: seq<ReconciliationResult>)
    ensures FailedCount(items) == |Failures(items)|
  {
    if items != [] {
      var n := |items| - 1;
      FailuresCounted(items[..n]);
      assert Failures(items) == Failures(items[..n]) + if items[n].error.Some? then {n} else {};
    }
  }

  lemma {:induction false} DoneCounted(items: seq<ReconciliationResult>)
    ensures AppliedCount(items) == |Done(items)|
  {
    if items != [] {
      var n := |items| - 1;
      DoneCounted(items[..n]);
      assert Done(items) == Done(items[..n]) + if items[n].applied && items[n].error.None? then {n} else {};
    }
  }

  /** The counters of a batch count the items with an error, those applied without one, and the rest. */
  lemma CountersMean(b: Batch)
    ensures b.Scanned() == |b.items| && b.Failed() == |Failures(b.items)| && b.Applied() == |Done(b.items)|
    ensures b.Eligible() == |b.items| - |Failures(b.items)|
    ensures b.Skipped() == |b.items| - |Failures(b.items)| - |Done(b.items)|
  {
    FailuresCounted(b.items);
    DoneCounted(b.items);
  }

  // ---- A batch, undisturbed ---------------------------------------------------------

  /** Each item in turn, on what the items before it left. */
  function BatchAlone(h: Hash, s: Stored, items: seq<PlanItem>, dryRun: bool, partition: DocumentPartition,
                      clock: Clock)
    : (r: (Stored, seq<ReconciliationResult>))
    ensures |r.1| == |items|
  {
    if items == [] then (s, [])
    else
      var n := |items| - 1;
      var (mid, done) := BatchAlone(h, s, items[..n], dryRun, partition, clock);
      var (last, result) := ItemAlone(h, mid, items[n].documentId, items[n].action, items[n].storageKey, dryRun,
                                      partition, clock(n));
      (last, done + [result])
  }

  /** Results keep the candidates' length and order; a dry run changes nothing and applies
      nothing, and otherwise an item without an error has been applied. */
  lemma {:induction false} BatchShape(h: Hash, s: Stored, items: seq<PlanItem>, dryRun: bool,
                                      partition: DocumentPartition,
                                      clock: Clock)
    ensures var (s', results) := BatchAlone(h, s, items, dryRun, partition, clock);
            && (dryRun ==> s' == s)
            && |results| == |items|
            && forall i :: 0 <= i < |items| ==>
                 && results[i].documentId == items[i].documentId && results[i].action == items[i].action
                 && (results[i].applied <==> !dryRun && results[i].error.None?)
    decreases |items|
  {
    if items != [] {
      BatchShape(h, s, items[..|items| - 1], dryRun, partition, clock);
    }
  }

  // ---- A batch in which stores may raise -----------------------------------------------

  /** How an item may end. Without a store error in its result it did what it does undisturbed and
      says so, but for the second inspection, which may have raised; with one, it was left alone
      or done. */
  ghost predicate ItemReached(h: Hash, mid: Stored, item: PlanItem, dryRun: bool, partition: DocumentPartition,
                              now: int, after: Stored, r: ReconciliationResult)
  {
    var (done, alone) := ItemAlone(h, mid, item.documentId, item.action, item.storageKey, dryRun, partition, now);
    && r.documentId == item.documentId && r.action == item.action
    && (after == mid || after == done)
    && (r.error == Some(StoreError) ==> !r.applied)
    && (r.error != Some(StoreError) ==>
          after == done && r == alone.(inspection := r.inspection)
          && (r.inspection == alone.inspection || (r.inspection.None? && r.error.Some?)))
  }

  /** The stores before each item and after the last. */
  ghost predicate Staged(h: Hash, stages: seq<Stored>, items: seq<PlanItem>, dryRun: bool,
                         partition: DocumentPartition, clock: Clock, results: seq<ReconciliationResult>)
  {
    && |stages| == |items| + 1 && |results| == |items|
    && forall i :: 0 <= i < |items| ==>
         ItemReached(h, stages[i], items[i], dryRun, partition, clock(i), stages[i + 1], results[i])
  }

  /** How a batch may end, whichever of its calls raised. */
  ghost predicate BatchEnded(h: Hash, s: Stored, items: seq<PlanItem>, dryRun: bool, partition: DocumentPartition,
                             clock: Clock, s': Stored, results: seq<ReconciliationResult>)
  {
    exists stages :: Staged(h, stages, items, dryRun, partition, clock, results)
                     && stages[0] == s && stages[|items|] == s'
  }

  lemma BatchBegins(h: Hash, s: Stored, dryRun: bool, partition: DocumentPartition, clock: Clock)
    ensures BatchEnded(h, s, [], dryRun, partition, clock, s, [])
  {
    assert Staged(h, [s], [], dryRun, partition, clock, []);
  }

  lemma BatchGoesOn(h: Hash, s: Stored, items: seq<PlanItem>, item: PlanItem, dryRun: bool,
                    partition: DocumentPartition, clock: Clock, mid: Stored, results: seq<ReconciliationResult>,
                    after: Stored, result: ReconciliationResult)
    requires BatchEnded(h, s, items, dryRun, partition, clock, mid, results)
    requires ItemReached(h, mid, item, dryRun, partition, clock(|items|), after, result)
    ensures BatchEnded(h, s, items + [item], dryRun, partition, clock, after, results + [result])
  {
    var stages :| Staged(h, stages, items, dryRun, partition, clock, results)
                  && stages[0] == s && stages[|items|] == mid;
    var stages' := stages + [after];
    forall i | 0 <= i < |items + [item]|
      ensures ItemReached(h, stages'[i], (items + [item])[i], dryRun, partition, clock(i), stages'[i + 1],
                          (results + [result])[i])
    {
      if i < |items| { assert stages'[i] == stages[i] && stages'[i + 1] == stages[i + 1]; }
    }
    assert Staged(h, stages', items + [item], dryRun, partition, clock, results + [result]);
  }

  /** Results in the items' order; an item is applied exactly if it has no error and this is no dry run. */
  ghost predicate ResultsOf(items: seq<PlanItem>, dryRun: bool, results: seq<ReconciliationResult>) {
    && |results| == |items|
    && forall i :: 0 <= i < |items| ==>
         && results[i].documentId == items[i].documentId && results[i].action == items[i].action
         && (results[i].applied <==> !dryRun && results[i].error.None?)
  }

  /** Whichever calls raised, the results keep length and order, a dry run has changed nothing, and an
      item of a real run counts as applied exactly if it has no error. */
  lemma EndedShape(h: Hash, s: Stored, items: seq<PlanItem>, dryRun: bool, partition: DocumentPartition, clock: Clock,
                   s': Stored, results: seq<ReconciliationResult>)
    requires BatchEnded(h, s, items, dryRun, partition, clock, s', results)
    ensures ResultsOf(items, dryRun, results)
    ensures dryRun ==> s' == s
  {
    var stages :| Staged(h, stages, items, dryRun, partition, clock, results)
                  && stages[0] == s && stages[|items|] == s';
    forall i | 0 <= i < |items|
      ensures results[i].documentId == items[i].documentId && results[i].action == items[i].action
      ensures results[i].applied <==> !dryRun && results[i].error.None?
    {
      assert ItemReached(h, stages[i], items[i], dryRun, partition, clock(i), stages[i + 1], results[i]);
    }
    if dryRun { DryStages(h, stages, items, partition, clock, results, |items|); }
  }

  lemma {:induction false} DryStages(h: Hash, stages: seq<Stored>, items: seq<PlanItem>, partition: DocumentPartition,
                                     clock: Clock, results: seq<ReconciliationResult>, n: nat)
    requires Staged(h, stages, items, true, partition, clock, results) && n <= |items|
    ensures stages[n] == stages[0]
  {
    if n > 0 {
      DryStages(h, stages, items, partition, clock, results, n - 1);
      assert ItemReached(h, stages[n - 1], items[n - 1], true, partition, clock(n - 1), stages[n - 1 + 1],
                         results[n - 1]);
    }
  }

  /** The undisturbed batch ends as a batch may. */
  ghost predicate EndsAlone(h: Hash, s: Stored, items: seq<PlanItem>, dryRun: bool, partition: DocumentPartition,
                            clock: Clock)
  {
    var (s', results) := BatchAlone(h, s, items, dryRun, partition, clock);
    BatchEnded(h, s, items, dryRun, partition, clock, s', results)
  }

  lemma {:induction false} PrefixEnds(h: Hash, s: Stored, items: seq<PlanItem>, dryRun: bool,
                                      partition: DocumentPartition, clock: Clock, n: nat)
    requires n <= |items|
    ensures EndsAlone(h, s, items[..n], dryRun, partition, clock)
  {
    if n == 0 {
      BatchBegins(h, s, dryRun, partition, clock);
      assert items[..0] == [];
    } else {
      PrefixEnds(h, s, items, dryRun, partition, clock, n - 1);
      OneMoreEnds(h, s, items[..n - 1], items[n - 1], dryRun, partition, clock);
      assert items[..n] == items[..n - 1] + [items[n - 1]];
    }
  }

  /** An undisturbed batch is one of the endings. */
  lemma AloneEnds(h: Hash, s: Stored, items: seq<PlanItem>, dryRun: bool, partition: DocumentPartition, clock: Clock)
    ensures var (s', results) := BatchAlone(h, s, items, dryRun, partition, clock);
            BatchEnded(h, s, items, dryRun, partition, clock, s', results)
  {
    PrefixEnds(h, s, items, dryRun, partition, clock, |items|);
    assert items[..|items|] == items;
  }

  lemma OneMoreEnds(h: Hash, s: Stored, items: seq<PlanItem>, item: PlanItem, dryRun: bool,
                    partition: DocumentPartition, clock: Clock)
    requires EndsAlone(h, s, items, dryRun, partition, clock)
    ensures EndsAlone(h, s, items + [item], dryRun, partition, clock)
  {
    var (mid, done) := BatchAlone(h, s, items, dryRun, partition, clock);
    var (s', r) := ItemAlone(h, mid, item.documentId, item.action, item.storageKey, dryRun, partition, clock(|items|));
    BatchAppends(h, s, items, item, dryRun, partition, clock);
    AloneReached(h, mid, item, dryRun, partition, clock(|items|));
    BatchGoesOn(h, s, items, item, dryRun, partition, clock, mid, done, s', r);
  }

  lemma AloneReached(h: Hash, mid: Stored, item: PlanItem, dryRun: bool, partition: DocumentPartition, now: int)
    ensures var (s', r) := ItemAlone(h, mid, item.documentId, item.action, item.storageKey, dryRun, partition, now);
            ItemReached(h, mid, item, dryRun, partition, now, s', r)
  {
  }

  /** scanned = failed + applied + skipped, with none negative; a dry run applies nothing and
      any other batch skips nothing, whichever calls raised. */
  lemma CountersAddUp(items: seq<PlanItem>, b: Batch)
    requires ResultsOf(items, b.dryRun, b.items)
    ensures b.Scanned() == |items| == b.Failed() + b.Applied() + b.Skipped() && b.Skipped() >= 0
    ensures b.dryRun ==> b.Applied() == 0
    ensures !b.dryRun ==> b.Skipped() == 0
  {
    CountsFit(b.items);
    if b.dryRun { NoneApplied(b.items); } else { AllCounted(b.items); }
  }

  /** Batches keep the agreement of rows and objects, whichever calls raised. */
  lemma BatchKeepsAgreement(g: Setting, s: Stored, items: seq<PlanItem>, dryRun: bool, partition: DocumentPartition,
                            clock: Clock, s': Stored, results: seq<ReconciliationResult>)
    requires Sound(g) && RowsInv(g, s.rows) && StoresAgree(s.rows, s.objects) && partition.partitionId in g.partitionIds
    requires BatchEnded(g.h, s, items, dryRun, partition, clock, s', results)
    ensures RowsInv(g, s'.rows) && StoresAgree(s'.rows, s'.objects)
  {
    var stages :| Staged(g.h, stages, items, dryRun, partition, clock, results)
                  && stages[0] == s && stages[|items|] == s';
    StagesAgree(g, stages, items, dryRun, partition, clock, results, |items|);
  }

  lemma {:induction false} StagesAgree(g: Setting, stages: seq<Stored>, items: seq<PlanItem>, dryRun: bool,
                                       partition: DocumentPartition, clock: Clock, results: seq<ReconciliationResult>,
                                       n: nat)
    requires Staged(g.h, stages, items, dryRun, partition, clock, results) && n <= |items|
    requires Sound(g) && RowsInv(g, stages[0].rows) && StoresAgree(stages[0].rows, stages[0].objects)
    requires partition.partitionId in g.partitionIds
    ensures RowsInv(g, stages[n].rows) && StoresAgree(stages[n].rows, stages[n].objects)
  {
    if n > 0 {
      var i := n - 1;
      StagesAgree(g, stages, items, dryRun, partition, clock, results, i);
      assert ItemReached(g.h, stages[i], items[i], dryRun, partition, clock(i), stages[i + 1], results[i]);
      RecoveryKeepsAgreement(g, stages[i], items[i].documentId, items[i].action, items[i].storageKey, dryRun, partition,
                             clock(i));
    }
  }

  /** A real batch, whichever calls raised, did what a permitted run of one recovering process after
      the other does. */
  lemma BatchIsARun(g: Setting, s: Stored, items: seq<PlanItem>, partition: DocumentPartition, clock: Clock,
                    s': Stored, results: seq<ReconciliationResult>) returns (steps: seq<Step>)
    requires Sound(g) && RowsInv(g, s.rows) && StoresAgree(s.rows, s.objects) && partition.partitionId in g.partitionIds
    requires forall i :: 0 <= i < |items| ==> SlashFree(items[i].documentId)
    requires BatchEnded(g.h, s, items, false, partition, clock, s', results)
    ensures Run(g.h, Idle(s), steps) == Idle(s') && AllPermitted(g, Idle(s), steps)
  {
    var stages :| Staged(g.h, stages, items, false, partition, clock, results)
                  && stages[0] == s && stages[|items|] == s';
    steps := StagesAreRuns(g, stages, items, partition, clock, results, |items|);
  }

  lemma {:induction false} StagesAreRuns(g: Setting, stages: seq<Stored>, items: seq<PlanItem>,
                                         partition: DocumentPartition, clock: Clock,
                                         results: seq<ReconciliationResult>, n: nat)
    returns (steps: seq<Step>)
    requires Staged(g.h, stages, items, false, partition, clock, results) && n <= |items|
    requires Sound(g) && RowsInv(g, stages[0].rows) && StoresAgree(stages[0].rows, stages[0].objects)
    requires partition.partitionId in g.partitionIds
    requires forall i :: 0 <= i < |items| ==> SlashFree(items[i].documentId)
    ensures Run(g.h, Idle(stages[0]), steps) == Idle(stages[n]) && AllPermitted(g, Idle(stages[0]), steps)
  {
    steps := [];
    if n > 0 {
      var i := n - 1;
      var before := StagesAreRuns(g, stages, items, partition, clock, results, i);
      var last := StageIsARun(g, stages, items, partition, clock, results, i);
      steps := before + last;
      RunConcat(g.h, Idle(stages[0]), before, last);
      PermittedConcat(g, Idle(stages[0]), before, last);
    }
  }

  lemma StageIsARun(g: Setting, stages: seq<Stored>, items: seq<PlanItem>, partition: DocumentPartition, clock: Clock,
                    results: seq<ReconciliationResult>, i: nat)
    returns (steps: seq<Step>)
    requires Staged(g.h, stages, items, false, partition, clock, results) && i < |items|
    requires Sound(g) && RowsInv(g, stages[0].rows) && StoresAgree(stages[0].rows, stages[0].objects)
    requires partition.partitionId in g.partitionIds && SlashFree(items[i].documentId)
    ensures Run(g.h, Idle(stages[i]), steps) == Idle(stages[i + 1]) && AllPermitted(g, Idle(stages[i]), steps)
  {
    assert ItemReached(g.h, stages[i], items[i], false, partition, clock(i), stages[i + 1], results[i]);
    StagesAgree(g, stages, items, false, partition, clock, results, i);
    steps := ItemIsARun(g, stages[i], items[i], partition, clock(i), stages[i + 1]);
  }

  lemma ItemIsARun(g: Setting, s: Stored, item: PlanItem, partition: DocumentPartition, now: int, s': Stored)
    returns (steps: seq<Step>)
    requires WellKeyed(s.rows) && SlashFree(item.documentId) && partition.partitionId in g.partitionIds
    requires s' == s || s' == ItemAlone(g.h, s, item.documentId, item.action, item.storageKey, false, partition, now).0
    ensures Run(g.h, Idle(s), steps) == Idle(s') && AllPermitted(g, Idle(s), steps)
  {
    steps := [];
    if !item.action.PurgeOrphan? || item.storageKey.Some? {
      steps := RecoveryIsARun(g, s, s', item.documentId, item.action, item.storageKey, partition, now);
    }
  }

  // ---- Plans --------------------------------------------------------------------------

  function MakePlan(partition: DocumentPartition, status: DocumentStatus, action: RecoveryAction, items: seq<PlanItem>)
    : Result<Plan, PlanError>
  {
    if exists i :: 0 <= i < |items| && items[i].action != action then Err(MixedActions)
    else Ok(Plan(partition, status, action, items))
  }

  function ToItem(r: ReconciliationResult): PlanItem {
    PlanItem(r.documentId, r.action,
             if r.action.PurgeOrphan? && r.inspection.Some? then r.inspection.value.storageKey else None)
  }

  function ToItems(results: seq<ReconciliationResult>): seq<PlanItem> {
    if results == [] then []
    else
      var last := results[|results| - 1];
      ToItems(results[..|results| - 1]) + if last.error.None? then [ToItem(last)] else []
  }

  /** The candidates without an error, as a plan. */
  function ToPlan(b: Batch): Result<Plan, PlanError> {
    if !b.dryRun then Err(NotADryRun) else MakePlan(b.partition, b.status, b.action, ToItems(b.items))
  }

  /** A result as a plan item: its document and action, and for a purge the key the inspection found. */
  predicate Exported(r: ReconciliationResult, item: PlanItem) {
    && item.documentId == r.documentId && item.action == r.action
    && item.storageKey == if r.action == PurgeOrphan && r.inspection.Some? then r.inspection.value.storageKey else None
  }

  lemma {:induction false} ItemsAreEligible(results: seq<ReconciliationResult>, item: PlanItem)
    ensures item in ToItems(results) <==> exists i :: 0 <= i < |results| && results[i].error.None?
                                                      && ToItem(results[i]) == item
  {
    if results != [] {
      var n := |results| - 1;
      ItemsAreEligible(results[..n], item);
      if exists i :: 0 <= i < |results| && results[i].error.None? && ToItem(results[i]) == item {
        var i :| 0 <= i < |results| && results[i].error.None? && ToItem(results[i]) == item;
        if i < n { assert results[..n][i] == results[i]; }
      }
    }
  }

  /** A batch is refused as a plan if it was a real run, and otherwise if a candidate without an
      error has another action than the batch; the plan is for the batch's own partition, status
      and action. */
  lemma PlanRefusedExactly(b: Batch)
    ensures ToPlan(b) == Err(NotADryRun) <==> !b.dryRun
    ensures ToPlan(b) == Err(MixedActions) <==>
            b.dryRun && exists i :: 0 <= i < |b.items| && b.items[i].error.None? && b.items[i].action != b.action
    ensures ToPlan(b).Ok? ==>
              var p := ToPlan(b).value;
              p.partition == b.partition && p.status == b.status && p.action == b.action
              && forall item :: item in p.items <==>
                   exists i :: 0 <= i < |b.items| && b.items[i].error.None? && Exported(b.items[i], item)
  {
    var items := ToItems(b.items);
    if i: nat :| i < |b.items| && b.items[i].error.None? && b.items[i].action != b.action {
      ItemsAreEligible(b.items, ToItem(b.items[i]));
      var j :| 0 <= j < |items| && items[j] == ToItem(b.items[i]);
    }
    if j: nat :| j < |items| && items[j].action != b.action {
      ItemsAreEligible(b.items, items[j]);
    }
    forall item ensures item in items <==>
      exists i :: 0 <= i < |b.items| && b.items[i].error.None? && Exported(b.items[i], item)
    {
      ItemsAreEligible(b.items, item);
      assert forall r :: Exported(r, item) <==> ToItem(r) == item;
    }
  }

  function Candidates(rows: seq<DocumentMetadata>, action: RecoveryAction): seq<PlanItem> {
    seq(|rows|, i requires 0 <= i < |rows| => PlanItem(rows[i].documentId, action, None))
  }

  /** A batch takes its candidates in order, one item each with the batch's action and no key. */
  lemma CandidatesMean(rows: seq<DocumentMetadata>, action: RecoveryAction, i: nat)
    requires i < |rows|
    ensures |Candidates(rows, action)| == |rows|
    ensures var item := Candidates(rows, action)[i];
            item.documentId == rows[i].documentId && item.action == action && item.storageKey == None
  {
  }

  ghost predicate DistinctIds(items: seq<PlanItem>) {
    forall i, j :: 0 <= i < j < |items| ==> items[i].documentId != items[j].documentId
  }

  predicate SameDocument(s: Stored, t: Stored, id: string) {
    s.objects == t.objects && (id in s.rows <==> id in t.rows) && (id in s.rows ==> s.rows[id] == t.rows[id])
  }

  /** Whether an action is refused depends on nothing but its document's row and the objects. */
  lemma RefusalIsLocal(h: Hash, s: Stored, t: Stored, id: string, action: RecoveryAction, storageKey: Option<string>,
                       partition: DocumentPartition)
    requires SameDocument(s, t, id)
    ensures Refusal(h, s, id, action, storageKey, partition) == Refusal(h, t, id, action, storageKey, partition)
  {
  }

  ghost predicate AllApplied(results: seq<ReconciliationResult>) {
    forall i :: 0 <= i < |results| ==> results[i].applied && results[i].error.None?
  }

  /** What an applied action has made of its document: gone, DELETED or FAILED, and the same
      document otherwise. */
  predicate Carried(s: Stored, s': Stored, id: string, action: RecoveryAction) {
    id in s.rows && match action
    case CompleteHard => id !in s'.rows
    case CompleteSoft => id in s'.rows && SameIdentity(s.rows[id], s'.rows[id]) && s'.rows[id].status.Deleted?
    case MarkAsFailed => id in s'.rows && SameIdentity(s.rows[id], s'.rows[id]) && s'.rows[id].status.Failed?
    case PurgeOrphan => false
  }

  /** A candidate without an error at the dry run is carried out, any other is left alone. */
  predicate ItemDone(s: Stored, s': Stored, item: PlanItem, dry: ReconciliationResult) {
    if dry.error.None? then Carried(s, s', item.documentId, item.action) else SameDocument(s, s', item.documentId)
  }

  /** Everything was applied, no object went, every candidate is done, and no other document changed. */
  ghost predicate Executed(s: Stored, items: seq<PlanItem>, dry: seq<ReconciliationResult>, s': Stored,
                           results: seq<ReconciliationResult>)
  {
    && AllApplied(results) && s'.objects == s.objects && |dry| == |items|
    && (forall i :: 0 <= i < |items| ==> ItemDone(s, s', items[i], dry[i]))
    && forall id :: !Named(items, id) ==> SameDocument(s, s', id)
  }

  ghost predicate Named(items: seq<PlanItem>, id: string) {
    exists i :: 0 <= i < |items| && items[i].documentId == id
  }

  lemma NamedAppends(items: seq<PlanItem>, item: PlanItem, id: string)
    ensures Named(items + [item], id) <==> Named(items, id) || item.documentId == id
  {
    if Named(items, id) {
      var i :| 0 <= i < |items| && items[i].documentId == id;
      assert (items + [item])[i].documentId == id;
    }
    assert (items + [item])[|items|] == item;
  }

  lemma BatchAppends(h: Hash, s: Stored, items: seq<PlanItem>, item: PlanItem, dryRun: bool,
                     partition: DocumentPartition, clock: Clock)
    ensures var (mid, done) := BatchAlone(h, s, items, dryRun, partition, clock);
            var (s', r) := ItemAlone(h, mid, item.documentId, item.action, item.storageKey, dryRun, partition,
                                     clock(|items|));
            BatchAlone(h, s, items + [item], dryRun, partition, clock) == (s', done + [r])
  {
    assert (items + [item])[..|items|] == items;
  }

  lemma ToItemsAppends(results: seq<ReconciliationResult>, r: ReconciliationResult)
    ensures ToItems(results + [r]) == ToItems(results) + if r.error.None? then [ToItem(r)] else []
  {
    assert (results + [r])[..|results|] == results;
  }

  function Executing(h: Hash, s: Stored, items: seq<PlanItem>, partition: DocumentPartition, dryClock: Clock,
                     clock: Clock)
    : (Stored, seq<ReconciliationResult>)
  {
    BatchAlone(h, s, ToItems(BatchAlone(h, s, items, true, partition, dryClock).1), false, partition, clock)
  }

  /** Executing the plan of a dry run on the same stores applies every item: an item's own
      precondition held at the dry run, and applying one keeps the others'. */
  lemma {:induction false} ItemsExecute(h: Hash, s: Stored, items: seq<PlanItem>, partition: DocumentPartition,
                                        dryClock: Clock, clock: Clock)
    requires DistinctIds(items) && forall i :: 0 <= i < |items| ==> items[i].storageKey.None?
    ensures var dry := BatchAlone(h, s, items, true, partition, dryClock).1;
            var (s', results) := Executing(h, s, items, partition, dryClock, clock);
            Executed(s, items, dry, s', results)
    decreases |items|
  {
    if items != [] {
      var n := |items| - 1;
      ItemsExecute(h, s, items[..n], partition, dryClock, clock);
      assert items == items[..n] + [items[n]];
      OneMoreExecutes(h, s, items[..n], items[n], partition, dryClock, clock);
    }
  }

  lemma OneMoreExecutes(h: Hash, s: Stored, items: seq<PlanItem>, item: PlanItem, partition: DocumentPartition,
                        dryClock: Clock, clock: Clock)
    requires item.storageKey.None? && !Named(items, item.documentId)
    requires var dry := BatchAlone(h, s, items, true, partition, dryClock).1;
             var (mid, done) := Executing(h, s, items, partition, dryClock, clock);
             Executed(s, items, dry, mid, done)
    ensures var dry := BatchAlone(h, s, items + [item], true, partition, dryClock).1;
            var (s', results) := Executing(h, s, items + [item], partition, dryClock, clock);
            Executed(s, items + [item], dry, s', results)
  {
    var dry := BatchAlone(h, s, items, true, partition, dryClock).1;
    var r := ItemAlone(h, s, item.documentId, item.action, None, true, partition, dryClock(|items|)).1;
    BatchShape(h, s, items, true, partition, dryClock);
    BatchAppends(h, s, items, item, true, partition, dryClock);
    ToItemsAppends(dry, r);
    var (mid, done) := Executing(h, s, items, partition, dryClock, clock);
    if r.error.None? {
      LastItemExecutes(h, s, mid, item, partition, dryClock(|items|), clock(|ToItems(dry)|));
      BatchAppends(h, s, ToItems(dry), item, false, partition, clock);
      var (s', last) := ItemAlone(h, mid, item.documentId, item.action, None, false, partition, clock(|ToItems(dry)|));
      assert Executing(h, s, items + [item], partition, dryClock, clock) == (s', done + [last]);
      ExecutedGrows(s, items, dry, item, r, mid, done, s', last);
    } else {
      assert ToItems(dry) + [] == ToItems(dry);
      assert Executing(h, s, items + [item], partition, dryClock, clock) == (mid, done);
      ExecutedStays(s, items, dry, item, r, mid, done);
    }
  }

  lemma ExecutedStays(s: Stored, items: seq<PlanItem>, dry: seq<ReconciliationResult>, item: PlanItem,
                      r: ReconciliationResult, mid: Stored, done: seq<ReconciliationResult>)
    requires Executed(s, items, dry, mid, done) && r.error.Some? && !Named(items, item.documentId)
    ensures Executed(s, items + [item], dry + [r], mid, done)
  {
    forall id | !Named(items + [item], id) ensures SameDocument(s, mid, id) {
      NamedAppends(items, item, id);
    }
    forall i | 0 <= i < |items + [item]| ensures ItemDone(s, mid, (items + [item])[i], (dry + [r])[i]) {
      assert i < |items| ==> ItemDone(s, mid, items[i], dry[i]);
    }
  }

  lemma ExecutedGrows(s: Stored, items: seq<PlanItem>, dry: seq<ReconciliationResult>, item: PlanItem,
                      r: ReconciliationResult, mid: Stored, done: seq<ReconciliationResult>,
                      s': Stored, last: ReconciliationResult)
    requires Executed(s, items, dry, mid, done) && last.applied && last.error.None? && s'.objects == mid.objects
    requires !Named(items, item.documentId) && Carried(mid, s', item.documentId, item.action) && r.error.None?
    requires forall id :: id != item.documentId ==> SameDocument(mid, s', id)
    ensures Executed(s, items + [item], dry + [r], s', done + [last])
  {
    assert SameDocument(s, mid, item.documentId);
    forall i | 0 <= i < |items + [item]| ensures ItemDone(s, s', (items + [item])[i], (dry + [r])[i]) {
      if i < |items| {
        assert ItemDone(s, mid, items[i], dry[i]) && items[i].documentId != item.documentId;
        assert SameDocument(mid, s', items[i].documentId);
      }
    }
    forall id | !Named(items + [item], id) ensures SameDocument(s, s', id) {
      NamedAppends(items, item, id);
      assert SameDocument(s, mid, id) && SameDocument(mid, s', id);
    }
  }

  lemma LastItemExecutes(h: Hash, s: Stored, mid: Stored, item: PlanItem, partition: DocumentPartition, t: int, u: int)
    requires item.storageKey.None? && SameDocument(s, mid, item.documentId)
    requires ItemAlone(h, s, item.documentId, item.action, None, true, partition, t).1.error.None?
    ensures ToItem(ItemAlone(h, s, item.documentId, item.action, None, true, partition, t).1) == item
    ensures var (s', r) := ItemAlone(h, mid, item.documentId, item.action, None, false, partition, u);
            && r.applied && r.error.None? && s'.objects == mid.objects
            && Carried(mid, s', item.documentId, item.action)
            && forall id :: id != item.documentId ==> SameDocument(mid, s', id)
  {
    RefusalIsLocal(h, s, mid, item.documentId, item.action, None, partition);
  }

  /** The exported plan is a plan of the batch's action with one item per eligible candidate.
      A purge exports no item, for want of a key. */
  lemma PlanHoldsTheEligible(h: Hash, s: Stored, rows: seq<DocumentMetadata>, dryClock: Clock, b: Batch)
    requires b.dryRun && b.items == BatchAlone(h, s, Candidates(rows, b.action), true, b.partition, dryClock).1
    ensures ToPlan(b) == Ok(Plan(b.partition, b.status, b.action, ToItems(b.items)))
    ensures |ToItems(b.items)| == b.Eligible()
    ensures b.action.PurgeOrphan? ==> b.Eligible() == 0
  {
    var items := Candidates(rows, b.action);
    BatchShape(h, s, items, true, b.partition, dryClock);
    PlanItemsFit(b.items, b.action);
    if b.action.PurgeOrphan? {
      KeylessPurgesFail(h, s, items, b.partition, dryClock);
    }
  }

  /** Executing the exported plan on the same stores applies every item without an error: each
      eligible candidate is gone, DELETED or FAILED as the action says, the other candidates and
      all other documents are unchanged, and no object is removed. */
  lemma PlanExecutes(h: Hash, s: Stored, rows: seq<DocumentMetadata>, dryClock: Clock, clock: Clock, b: Batch)
    requires forall i, j :: 0 <= i < j < |rows| ==> rows[i].documentId != rows[j].documentId
    requires b.dryRun && b.items == BatchAlone(h, s, Candidates(rows, b.action), true, b.partition, dryClock).1
    ensures ToPlan(b).Ok?
    ensures var (s', results) := BatchAlone(h, s, ToPlan(b).value.items, false, b.partition, clock);
            |results| == b.Eligible() && Executed(s, Candidates(rows, b.action), b.items, s', results)
  {
    PlanHoldsTheEligible(h, s, rows, dryClock, b);
    ItemsExecute(h, s, Candidates(rows, b.action), b.partition, dryClock, clock);
  }

  lemma {:induction false} PlanItemsFit(results: seq<ReconciliationResult>, action: RecoveryAction)
    requires forall i :: 0 <= i < |results| ==> results[i].action == action
    ensures |ToItems(results)| == |results| - FailedCount(results)
    ensures forall i :: 0 <= i < |ToItems(results)| ==> ToItems(results)[i].action == action
  {
    if results != [] {
      PlanItemsFit(results[..|results| - 1], action);
    }
  }

  lemma {:induction false} KeylessPurgesFail(h: Hash, s: Stored, items: seq<PlanItem>, partition: DocumentPartition,
                                             clock: Clock)
    requires forall i :: 0 <= i < |items| ==> items[i].storageKey.None? && items[i].action.PurgeOrphan?
    ensures var results := BatchAlone(h, s, items, true, partition, clock).1;
            FailedCount(results) == |results|
    decreases |items|
  {
    if items != [] {
      var n := |items| - 1;
      KeylessPurgesFail(h, s, items[..n], partition, clock);
      var results := BatchAlone(h, s, items, true, partition, clock).1;
      assert results[..n] == BatchAlone(h, s, items[..n], true, partition, clock).1;
    }
  }
}

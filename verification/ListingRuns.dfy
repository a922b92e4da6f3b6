/** Iterations while documents come and go: the tables that the requests of an iteration find are
    cut from one run of uploads, deletions, recoveries and purges. */
module ListingRuns {
  import opened Domain
  import opened Namespaces
  import opened Lifecycle
  import opened LifecycleTheorems
  import opened Runs
  import opened Pagination
  import opened PaginationLoops
  import PaginationTheorems
  import LifecycleProof

  /** A row that stays during a run stays during its first part and its last. */
  lemma {:induction false} StaysInParts(h: Hash, s: State, steps: seq<Step>, id: string, n: nat)
    requires n <= |steps| && StaysPresent(h, s, steps, id)
    ensures StaysPresent(h, s, steps[..n], id) && StaysPresent(h, Run(h, s, steps[..n]), steps[n..], id)
    decreases n
  {
    if n > 0 {
      StaysInParts(h, Exec(h, s, steps[0]), steps[1..], id, n - 1);
      assert steps[..n][1..] == steps[1..][..n - 1] && steps[1..][n - 1..] == steps[n..];
    }
  }

  /** Between two points of a run in which the row stays, its identity is the same and it has not
      come back to AVAILABLE. */
  lemma BetweenPoints(g: Setting, s: State, steps: seq<Step>, id: string, i: nat, j: nat)
    requires Sound(g) && Lifecycle.Inv(g, s) && AllPermitted(g, s, steps) && StaysPresent(g.h, s, steps, id)
    requires i <= j <= |steps|
    ensures var a, b := Run(g.h, s, steps[..i]).rows, Run(g.h, s, steps[..j]).rows;
            && id in a && id in b && SameIdentity(a[id], b[id])
            && (!a[id].status.Available? ==> !b[id].status.Available?)
  {
    var first, second := steps[..i], steps[i..j];
    assert first + second == steps[..j] && steps[..j] + steps[j..] == steps;
    StaysInParts(g.h, s, steps, id, j);
    StaysInParts(g.h, s, steps[..j], id, i);
    assert steps[..j][..i] == first && steps[..j][i..] == second;
    PermittedConcat(g, s, steps[..j], steps[j..]);
    PermittedConcat(g, s, first, second);
    RunConcat(g.h, s, first, second);
    LifecycleProof.RunKeeps(g, s, first);
    NeverRevived(g, Run(g.h, s, first), second, id);
  }

  /** Request `k` finds the metadata table as it is after `cuts(k)` steps. */
  ghost predicate CutFrom(h: Hash, s: State, steps: seq<Step>, cuts: nat -> nat, tables: Tables, requests: nat) {
    && (forall k: nat :: k < requests ==> cuts(k) <= |steps| && tables(k) == Run(h, s, steps[..cuts(k)]).rows)
    && forall j: nat, k: nat :: j <= k < requests ==> cuts(j) <= cuts(k)
  }

  /** A document that stays is found under one created_at, partition and filename by every request. */
  lemma FoundThroughout(g: Setting, s: State, steps: seq<Step>, cuts: nat -> nat, tables: Tables, requests: nat,
                        id: string, partition: DocumentPartition, status: Option<DocumentStatus>)
    requires Sound(g) && Lifecycle.Inv(g, s) && AllPermitted(g, s, steps) && StaysPresent(g.h, s, steps, id)
    requires CutFrom(g.h, s, steps, cuts, tables, requests)
    requires forall k: nat :: k < requests && id in tables(k) ==> Eligible(tables(k)[id], partition, status)
    ensures Throughout(tables, requests, id, s.rows[id].createdAt, partition, status)
  {
    forall k: nat | k < requests
      ensures id in tables(k) && tables(k)[id].createdAt == s.rows[id].createdAt
              && Eligible(tables(k)[id], partition, status)
    {
      BetweenPoints(g, s, steps, id, 0, cuts(k));
      assert Run(g.h, s, steps[..0]) == s;
    }
  }

  /** What the last request finds AVAILABLE, and what was there from the start, was AVAILABLE to
      every request. */
  lemma AvailableThroughout(g: Setting, s: State, steps: seq<Step>, cuts: nat -> nat, tables: Tables, requests: nat,
                            id: string, partition: DocumentPartition)
    requires Sound(g) && Lifecycle.Inv(g, s) && AllPermitted(g, s, steps) && StaysPresent(g.h, s, steps, id)
    requires CutFrom(g.h, s, steps, cuts, tables, requests) && requests > 0
    requires id in tables(requests - 1) ==> Eligible(tables(requests - 1)[id], partition, Some(Available))
    ensures Throughout(tables, requests, id, s.rows[id].createdAt, partition, Some(Available))
  {
    forall k: nat | k < requests && id in tables(k) ensures Eligible(tables(k)[id], partition, Some(Available)) {
      BetweenPoints(g, s, steps, id, cuts(k), cuts(requests - 1));
    }
    FoundThroughout(g, s, steps, cuts, tables, requests, id, partition, Some(Available));
  }

  /** So a listing of AVAILABLE documents, whatever runs beside it, lists every document exactly once
      that was there when it began and is AVAILABLE at its last request. */
  lemma AvailableListedOnce(g: Setting, s: State, steps: seq<Step>, cuts: nat -> nat, lt: Collation, tables: Tables,
                            q: Query, items: seq<DocumentMetadata>, requests: nat, id: string)
    returns (i: nat)
    requires Sound(g) && Lifecycle.Inv(g, s) && AllPermitted(g, s, steps) && StaysPresent(g.h, s, steps, id)
    requires CutFrom(g.h, s, steps, cuts, tables, requests)
    requires IsCollation(lt) && PaginationLoops.Complete(lt, tables, q, items, requests)
    requires q.status == Some(Available)
    requires id in tables(requests - 1) ==> Eligible(tables(requests - 1)[id], q.partition, q.status)
    ensures i < |items| && items[i].documentId == id && SameIdentity(s.rows[id], items[i])
    ensures forall j :: 0 <= j < |items| && items[j].documentId == id ==> j == i
  {
    AvailableThroughout(g, s, steps, cuts, tables, requests, id, q.partition);
    i := PaginationTheorems.ListedExactlyOnce(lt, tables, q, items, requests, id, s.rows[id].createdAt);
    assert InSome(tables, requests, q.partition, q.status, items[i]);
    var k: nat :| k < requests && FromTable(tables(k), q.partition, q.status, items[i]);
    BetweenPoints(g, s, steps, id, 0, cuts(k));
    assert Run(g.h, s, steps[..0]) == s;
  }
}

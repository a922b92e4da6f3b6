/** Runs of a single process of the step system, started on idle stores. */
module Runs {
  import opened Domain
  import opened Namespaces
  import opened Lifecycle
  import opened LifecycleTheorems
  import LifecycleProof

  /** The state with one process in it. */
  function Started(s: Stored, id: string, partition: DocumentPartition, job: Job, phase: Phase): State {
    State(s.rows, s.objects, map[0 := Process(id, partition, job, phase)])
  }

  lemma Moves(s: Stored, id: string, partition: DocumentPartition, job: Job, phase: Phase, next: Phase)
    ensures Goto(Started(s, id, partition, job, phase), 0, next) == Started(s, id, partition, job, next)
    ensures Leave(Started(s, id, partition, job, phase), 0) == Idle(s)
  {
    assert Leave(Started(s, id, partition, job, phase), 0).processes == map[];
  }

  /** Steps of process 0 that start nothing. */
  predicate OwnSteps(steps: seq<Step>) {
    forall i :: 0 <= i < |steps| ==> !steps[i].Start? && steps[i].c == 0
  }

  /** Process 0 is started once, for this job, and takes every step. */
  predicate OneProcess(steps: seq<Step>, id: string, partition: DocumentPartition, job: Job) {
    steps != [] && steps[0] == Start(0, id, partition, job) && OwnSteps(steps[1..])
  }

  lemma OneProcessAppends(a: seq<Step>, b: seq<Step>, id: string, partition: DocumentPartition, job: Job)
    requires OneProcess(a, id, partition, job) && OwnSteps(b)
    ensures OneProcess(a + b, id, partition, job)
  {
    assert (a + b)[1..] == a[1..] + b;
  }

  /** A single process working for `job` takes idle stores from `s` to `s'`. */
  ghost predicate RunOf(h: Hash, s: Stored, id: string, partition: DocumentPartition, job: Job, steps: seq<Step>,
                        s': Stored)
  {
    OneProcess(steps, id, partition, job) && Run(h, Idle(s), steps) == Idle(s')
  }

  lemma RunStarted(h: Hash, s: Stored, id: string, partition: DocumentPartition, job: Job, rest: seq<Step>)
    ensures Run(h, Idle(s), [Start(0, id, partition, job)] + rest)
            == Run(h, Started(s, id, partition, job, FirstPhase(job)), rest)
  {
    var x := Start(0, id, partition, job);
    RunFirst(h, Idle(s), x, rest);
    assert Exec(h, Idle(s), x) == Started(s, id, partition, job, FirstPhase(job));
  }

  // ---- Permission -------------------------------------------------------------------

  /** No call raises after taking effect. */
  predicate Calm(steps: seq<Step>) {
    forall i :: 0 <= i < |steps| ==> !steps[i].Start? && (steps[i].Advance? ==> !steps[i].reply.FailedAfter?)
  }

  lemma {:induction false} CalmPermitted(g: Setting, s: State, steps: seq<Step>)
    requires Calm(steps)
    ensures AllPermitted(g, s, steps)
    decreases |steps|
  {
    if steps != [] {
      CalmPermitted(g, Exec(g.h, s, steps[0]), steps[1..]);
    }
  }

  lemma PermittedFirst(g: Setting, s: State, x: Step, rest: seq<Step>)
    ensures AllPermitted(g, s, [x] + rest) <==> Permitted(g, s, x) && AllPermitted(g, Exec(g.h, s, x), rest)
  {
    assert ([x] + rest)[1..] == rest;
  }

  lemma {:induction false} PermittedConcat(g: Setting, s: State, a: seq<Step>, b: seq<Step>)
    ensures AllPermitted(g, s, a + b) <==> AllPermitted(g, s, a) && AllPermitted(g, Run(g.h, s, a), b)
    decreases |a|
  {
    if a == [] {
      assert a + b == b;
    } else {
      assert (a + b)[1..] == a[1..] + b;
      PermittedConcat(g, Exec(g.h, s, a[0]), a[1..], b);
    }
  }

  /** On idle stores any job may start on a slash-free id. */
  lemma StartPermitted(g: Setting, s: Stored, id: string, partition: DocumentPartition, job: Job, rest: seq<Step>)
    requires SlashFree(id) && partition.partitionId in g.partitionIds
    requires AllPermitted(g, Started(s, id, partition, job, FirstPhase(job)), rest)
    ensures AllPermitted(g, Idle(s), [Start(0, id, partition, job)] + rest)
  {
    var x := Start(0, id, partition, job);
    PermittedFirst(g, Idle(s), x, rest);
    assert Exec(g.h, Idle(s), x) == Started(s, id, partition, job, FirstPhase(job));
  }

  /** A call that raises after taking effect is permitted to any process that is not saving. */
  lemma LatePermitted(g: Setting, s: State, reply: Reply, now: int, rest: seq<Step>)
    requires 0 in s.processes ==> !s.processes[0].phase.Saving?
    requires Calm(rest)
    ensures AllPermitted(g, s, [Advance(0, reply, now)] + rest)
  {
    PermittedFirst(g, s, Advance(0, reply, now), rest);
    CalmPermitted(g, Exec(g.h, s, Advance(0, reply, now)), rest);
  }

  /** Where ids and partition are those of the setting, the steps are a permitted run. */
  ghost predicate Allowed(g: Setting, s: Stored, id: string, partition: DocumentPartition, steps: seq<Step>) {
    SlashFree(id) && partition.partitionId in g.partitionIds ==> AllPermitted(g, Idle(s), steps)
  }

  lemma CalmAllowed(g: Setting, s: Stored, id: string, partition: DocumentPartition, job: Job, rest: seq<Step>)
    requires Calm(rest)
    ensures Allowed(g, s, id, partition, [Start(0, id, partition, job)] + rest)
  {
    CalmPermitted(g, Started(s, id, partition, job, FirstPhase(job)), rest);
    if SlashFree(id) && partition.partitionId in g.partitionIds { StartPermitted(g, s, id, partition, job, rest); }
  }

  /** A permitted run from agreeing stores ends in agreeing stores. */
  lemma RunKeepsAgreement(g: Setting, s: Stored, id: string, partition: DocumentPartition, job: Job, steps: seq<Step>,
                          s': Stored)
    requires Sound(g) && RowsInv(g, s.rows) && StoresAgree(s.rows, s.objects)
    requires SlashFree(id) && partition.partitionId in g.partitionIds
    requires RunOf(g.h, s, id, partition, job, steps, s') && Allowed(g, s, id, partition, steps)
    ensures RowsInv(g, s'.rows) && StoresAgree(s'.rows, s'.objects)
  {
    LifecycleProof.RunKeeps(g, Idle(s), steps);
  }
}

/** Document ids drawn by any number of callers at once. A caller draws values in one
    transaction until the decimal text of one is not a document id, then commits. All the
    sequence table promises is its primary key: a value rolled back may be drawn again. */
module Allocation {
  import opened Domain
  import opened Text

  /** The values of a caller's open transaction, and the rows among which the last one was found free. */
  datatype Caller = Caller(values: seq<nat>, free: Option<Rows>)

  /** An id handed to a caller, and the rows it was checked against. */
  datatype Issued = Issued(id: string, checkedAgainst: Rows)

  datatype State = State(committed: set<nat>, callers: map<nat, Caller>, rows: Rows, returned: seq<Issued>)

  datatype Step =
    | Draw(c: nat, value: nat)
    | Check(c: nat)
    | Commit(c: nat, reply: Reply)
    | Abort(c: nat)
    | OthersWrite(rows: Rows)

  /** The primary key: not stored, and not in anyone's open transaction. */
  predicate Unused(s: State, value: nat) {
    value !in s.committed && forall c :: c in s.callers ==> value !in s.callers[c].values
  }

  function Last(values: seq<nat>): nat
    requires values != []
  {
    values[|values| - 1]
  }

  /** A caller draws first, and again after each value found taken. */
  predicate MayDraw(s: State, c: nat) {
    c !in s.callers || (s.callers[c].free.None? && s.callers[c].values != []
                        && Decimal(Last(s.callers[c].values)) in s.rows)
  }

  function Values(s: State, c: nat): seq<nat> {
    if c in s.callers then s.callers[c].values else []
  }

  function Exec(s: State, step: Step): State {
    match step
    case Draw(c, value) =>
      if MayDraw(s, c) && Unused(s, value)
      then s.(callers := s.callers[c := Caller(Values(s, c) + [value], None)]) else s
    case Check(c) =>
      if c in s.callers && s.callers[c].values != [] && Decimal(Last(s.callers[c].values)) !in s.rows
      then s.(callers := s.callers[c := s.callers[c].(free := Some(s.rows))]) else s
    case Commit(c, reply) =>
      if c !in s.callers || s.callers[c].free.None? || s.callers[c].values == [] then s
      else if reply.FailedBefore? then s.(callers := s.callers - {c})
      else
        var values := s.callers[c].values;
        State(s.committed + (set v | v in values), s.callers - {c}, s.rows,
              if !reply.Answered? then s.returned
              else s.returned + [Issued(Decimal(Last(values)), s.callers[c].free.value)])
    case Abort(c) => s.(callers := s.callers - {c})
    case OthersWrite(rows) => s.(rows := rows)
  }

  function Run(s: State, steps: seq<Step>): State
    decreases |steps|
  {
    if steps == [] then s else Run(Exec(s, steps[0]), steps[1..])
  }

  const INITIAL := State({}, map[], map[], [])

  ghost predicate FromTable(s: State, id: string) {
    exists v :: v in s.committed && id == Decimal(v)
  }

  ghost predicate Distinct(returned: seq<Issued>) {
    forall i, j :: 0 <= i < j < |returned| ==> returned[i].id != returned[j].id
  }

  ghost predicate WereFree(returned: seq<Issued>) {
    forall i :: 0 <= i < |returned| ==> returned[i].id !in returned[i].checkedAgainst
  }

  ghost predicate Inv(s: State) {
    && Distinct(s.returned) && WereFree(s.returned)
    && (forall i :: 0 <= i < |s.returned| ==> FromTable(s, s.returned[i].id))
    && (forall c :: c in s.callers && s.callers[c].free.Some? ==>
          s.callers[c].values != [] && Decimal(Last(s.callers[c].values)) !in s.callers[c].free.value)
    && (forall c, v :: c in s.callers && v in s.callers[c].values ==> v !in s.committed)
    && (forall c, d, v :: c in s.callers && d in s.callers && c != d && v in s.callers[c].values ==>
          v !in s.callers[d].values)
  }

  lemma FromTableGrows(s: State, s': State, id: string)
    requires FromTable(s, id) && s.committed <= s'.committed
    ensures FromTable(s', id)
  {
    var v :| v in s.committed && id == Decimal(v);
    assert v in s'.committed;
  }

  lemma FreshIsNew(s: State, v: nat)
    requires Inv(s) && v !in s.committed
    ensures forall i :: 0 <= i < |s.returned| ==> s.returned[i].id != Decimal(v)
  {
    forall i | 0 <= i < |s.returned| ensures s.returned[i].id != Decimal(v) {
      assert FromTable(s, s.returned[i].id);
      var w :| w in s.committed && s.returned[i].id == Decimal(w);
      DecimalInjective(v, w);
    }
  }

  lemma CommitKeeps(s: State, c: nat, reply: Reply)
    requires Inv(s)
    ensures Inv(Exec(s, Commit(c, reply)))
  {
    var s' := Exec(s, Commit(c, reply));
    forall i | 0 <= i < |s.returned| ensures FromTable(s', s.returned[i].id) {
      FromTableGrows(s, s', s.returned[i].id);
    }
    if c in s.callers && s.callers[c].values != [] {
      FreshIsNew(s, Last(s.callers[c].values));
    }
  }

  lemma StepKeeps(s: State, step: Step)
    requires Inv(s)
    ensures Inv(Exec(s, step))
  {
    if step.Commit? {
      CommitKeeps(s, step.c, step.reply);
    } else {
      var s' := Exec(s, step);
      forall i | 0 <= i < |s.returned| ensures FromTable(s', s.returned[i].id) {
        FromTableGrows(s, s', s.returned[i].id);
      }
    }
  }

  lemma {:induction false} RunKeeps(s: State, steps: seq<Step>)
    requires Inv(s)
    ensures Inv(Run(s, steps))
    decreases |steps|
  {
    if steps != [] {
      StepKeeps(s, steps[0]);
      RunKeeps(Exec(s, steps[0]), steps[1..]);
    }
  }

  /** No document id is handed out twice, and each was free when checked, however callers,
      rollbacks and other writers interleave. */
  lemma NeverTwice(steps: seq<Step>)
    ensures Distinct(Run(INITIAL, steps).returned) && WereFree(Run(INITIAL, steps).returned)
  {
    RunKeeps(INITIAL, steps);
  }
}

/** Job scheduling shared by both executors: wait rows, their inversion, and the counters
of unreleased predecessors. */
module Schedules {
  import opened Names
  import opened Cycles

  /** The part of a transaction the executor looks at: the jobs, what each waits for, and
      what each hard-requires (`startRequireNames`). */
  datatype Schedule = Schedule(jobs: set<Name>, waits: Waits, needs: map<Name, seq<Name>>)

  function Deps(plan: Schedule, n: Name): seq<Name> {
    if n in plan.waits then plan.waits[n] else []
  }

  /** `n` hard-requires the planned job `r`. */
  predicate Needs(plan: Schedule, n: Name, r: Name) {
    n in plan.jobs && r in plan.jobs && n in plan.needs && r in plan.needs[n]
  }

  ghost predicate Proper(plan: Schedule) {
    && plan.waits.Keys <= plan.jobs && plan.needs.Keys == plan.jobs
    && forall n :: n in plan.waits ==> NoDuplicates(plan.waits[n]) && forall d :: d in plan.waits[n] ==> d in plan.jobs
  }

  /** `row` lists the jobs waiting for `d`, each once. */
  ghost predicate Successors(plan: Schedule, d: Name, row: seq<Name>) {
    NoDuplicates(row) && forall s :: s in row <==> s in plan.jobs && d in Deps(plan, s)
  }

  /** How many entries of a wait row are not released. */
  function CountUnreleased(row: seq<Name>, released: set<Name>): nat {
    if row == [] then 0 else
    CountUnreleased(row[..|row| - 1], released) + (if row[|row| - 1] in released then 0 else 1)
  }

  /** Every counter is the number of predecessors not yet released. */
  ghost predicate Exact(plan: Schedule, released: set<Name>, counters: map<Name, int>) {
    && counters.Keys == plan.jobs
    && forall n :: n in plan.jobs ==> counters[n] == CountUnreleased(Deps(plan, n), released)
  }

  /** A counter is zero exactly when every predecessor is released. */
  lemma {:induction false} CountPositive(row: seq<Name>, released: set<Name>, name: Name)
    ensures name in row && name !in released ==> CountUnreleased(row, released) > 0
  {
    if row != [] {
      CountPositive(row[..|row| - 1], released, name);
      assert row == row[..|row| - 1] + [row[|row| - 1]];
    }
  }

  lemma {:induction false} CountWitness(row: seq<Name>, released: set<Name>) returns (d: Name)
    requires CountUnreleased(row, released) > 0
    ensures d in row && d !in released
  {
    d := row[|row| - 1];
    if d in released {
      d := CountWitness(row[..|row| - 1], released);
    }
  }

  lemma {:induction false} CountNoneReleased(row: seq<Name>)
    ensures CountUnreleased(row, {}) == |row|
  {
    if row != [] {
      CountNoneReleased(row[..|row| - 1]);
    }
  }

  lemma {:induction false} CountAfterRelease(row: seq<Name>, released: set<Name>, name: Name)
    requires NoDuplicates(row) && name !in released
    ensures CountUnreleased(row, released + {name}) == CountUnreleased(row, released) - (if name in row then 1 else 0)
  {
    if row != [] {
      CountAfterRelease(row[..|row| - 1], released, name);
      assert row == row[..|row| - 1] + [row[|row| - 1]];
      assert row[|row| - 1] !in row[..|row| - 1];
    }
  }

  lemma {:induction false} PositiveCounters(plan: Schedule, released: set<Name>, counters: map<Name, int>, name: Name, row: seq<Name>)
    requires Exact(plan, released, counters) && Successors(plan, name, row) && name !in released
    ensures forall n :: n in row ==> n in counters && counters[n] > 0
  {
    forall n | n in row ensures n in counters && counters[n] > 0 {
      CountPositive(Deps(plan, n), released, name);
    }
  }

  lemma {:induction false} CountersAfter(plan: Schedule, released: set<Name>, before: map<Name, int>, after: map<Name, int>,
                      name: Name, row: seq<Name>)
    requires Proper(plan) && Exact(plan, released, before) && Successors(plan, name, row) && name !in released
    requires after.Keys == before.Keys
    requires forall n :: n in before ==> after[n] == before[n] - (if n in row then 1 else 0)
    ensures Exact(plan, released + {name}, after)
  {
    forall n | n in plan.jobs ensures after[n] == CountUnreleased(Deps(plan, n), released + {name}) {
      CountAfterRelease(Deps(plan, n), released, name);
    }
  }

  /** The decrement loop with its clamp. When every listed counter is positive the clamp
      does nothing. */
  method DecrementAll(counters: map<Name, int>, row: seq<Name>) returns (r: map<Name, int>)
    requires NoDuplicates(row)
    requires forall n :: n in row ==> n in counters && counters[n] > 0
    ensures r.Keys == counters.Keys
    ensures forall n :: n in counters ==> r[n] == counters[n] - (if n in row then 1 else 0)
  {
    r := counters;
    for i := 0 to |row|
      invariant r.Keys == counters.Keys
      invariant forall n :: n in counters ==> r[n] == counters[n] - (if n in row[..i] then 1 else 0)
    {
      var succ := row[i];
      assert row[..i + 1] == row[..i] + [succ];
      r := r[succ := r[succ] - 1];
      if r[succ] < 0 {
        r := r[succ := 0];
      }
    }
    assert row[..|row|] == row;
  }

  /** `row` lists the members of `seen` that wait for `d`. */
  ghost predicate Inverted(plan: Schedule, d: Name, row: seq<Name>, seen: seq<Name>) {
    NoDuplicates(row) && forall x :: x in row <==> x in seen && d in Deps(plan, x)
  }

  /** The setup loop: counters start at the row lengths, and `unblock` inverts the rows. */
  method SetUp(plan: Schedule, names: seq<Name>) returns (remaining: map<Name, int>, unblock: map<Name, seq<Name>>)
    requires Proper(plan) && Elements(names) == plan.jobs && NoDuplicates(names)
    ensures Exact(plan, {}, remaining) && unblock.Keys == plan.jobs
    ensures forall d :: d in plan.jobs ==> Successors(plan, d, unblock[d])
  {
    hide Inverted, Proper, NoDuplicates, CountUnreleased;
    remaining := map[];
    unblock := map d | d in plan.jobs :: [];
    forall d | d in plan.jobs { NothingInverted(plan, d); }
    for i := 0 to |names|
      invariant remaining.Keys == Elements(names[..i])
      invariant forall n :: n in remaining ==> remaining[n] == CountUnreleased(Deps(plan, n), {})
      invariant unblock.Keys == plan.jobs
      invariant forall d :: d in plan.jobs ==> Inverted(plan, d, unblock[d], names[..i])
    {
      var name := names[i];
      NextName(names, i);
      CountNoneReleased(Deps(plan, name));
      remaining := remaining[name := |Deps(plan, name)|];
      unblock := AddWaiter(plan, unblock, names[..i], name);
    }
    assert names[..|names|] == names;
    forall d | d in plan.jobs { AllInverted(plan, d, unblock[d], names); }
  }

  method AddWaiter(plan: Schedule, unblock0: map<Name, seq<Name>>, ghost seen: seq<Name>, name: Name)
    returns (unblock: map<Name, seq<Name>>)
    requires Proper(plan) && unblock0.Keys == plan.jobs && name !in seen
    requires forall d :: d in plan.jobs ==> Inverted(plan, d, unblock0[d], seen)
    ensures unblock.Keys == plan.jobs
    ensures forall d :: d in plan.jobs ==> Inverted(plan, d, unblock[d], seen + [name])
  {
    hide Inverted;
    unblock := unblock0;
    var deps := Deps(plan, name);
    for k := 0 to |deps|
      invariant unblock.Keys == plan.jobs
      invariant forall d :: d in plan.jobs ==>
          unblock[d] == if d in deps[..k] then unblock0[d] + [name] else unblock0[d]
    {
      assert deps[..k + 1] == deps[..k] + [deps[k]];
      assert deps[k] !in deps[..k];
      unblock := unblock[deps[k] := unblock[deps[k]] + [name]];
    }
    assert deps[..|deps|] == deps;
    forall d | d in plan.jobs ensures Inverted(plan, d, unblock[d], seen + [name]) {
      WaiterAdded(plan, d, unblock0[d], seen, name);
    }
  }

  lemma {:induction false} WaiterAdded(plan: Schedule, d: Name, row: seq<Name>, seen: seq<Name>, name: Name)
    requires Inverted(plan, d, row, seen) && name !in seen
    ensures Inverted(plan, d, if d in Deps(plan, name) then row + [name] else row, seen + [name])
  {}

  lemma {:induction false} NextName(names: seq<Name>, i: nat)
    requires i < |names| && NoDuplicates(names)
    ensures names[i] in Elements(names) && names[i] !in names[..i] && names[..i + 1] == names[..i] + [names[i]]
    ensures Elements(names[..i + 1]) == Elements(names[..i]) + {names[i]}
  {}

  lemma {:induction false} NothingInverted(plan: Schedule, d: Name)
    ensures Inverted(plan, d, [], [])
  {}

  lemma {:induction false} AllInverted(plan: Schedule, d: Name, row: seq<Name>, names: seq<Name>)
    requires Inverted(plan, d, row, names) && Elements(names) == plan.jobs
    ensures Successors(plan, d, row)
  {
    assert forall x :: x in plan.jobs <==> x in Elements(names);
  }
}

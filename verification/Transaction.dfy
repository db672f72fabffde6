/** A planned transaction and its validation. */
module Transactions {
  import opened Options
  import opened Names
  import opened Cycles
  import opened Graphs

  datatype JobKind = JobStart | JobStop

  /** The planned job set, its roots, and the ordering among the jobs only. */
  datatype Transaction = Transaction(g: Graph, kind: JobKind, roots: seq<Name>, jobs: set<Name>, waits: Waits)

  /** What the planners guarantee and the executors rely on: jobs are loaded, and wait
      rows name jobs, each once. */
  ghost predicate WellPlanned(tx: Transaction) {
    && WellFormed(tx.g)
    && tx.jobs <= tx.g.Keys
    && tx.waits.Keys <= tx.jobs
    && forall n :: n in tx.waits ==> NoDuplicates(tx.waits[n]) && forall d :: d in tx.waits[n] ==> d in tx.jobs
  }

  /** A plan that passes validation. */
  ghost predicate Runnable(tx: Transaction) {
    WellPlanned(tx) && tx.jobs != {} && Acyclic(tx.jobs, tx.waits)
  }

  datatype PlanError =
    | NoUnits
    | EmptyUnitName
    | MissingUnit(unit_: Name, requiredBy: Name)
    | EmptyTransaction
    | OrderCycle(path: seq<Name>)

  /** `validate`: refuses an empty job set and any cycle among the jobs. The ghost result
      is a linear extension of the waits when the plan is accepted. */
  method Validate(tx: Transaction) returns (err: Option<PlanError>, ghost order: seq<Name>)
    requires WellPlanned(tx)
    ensures err.None? <==> tx.jobs != {} && Acyclic(tx.jobs, tx.waits)
    ensures err.Some? && tx.jobs == {} ==> err.value == EmptyTransaction
    ensures err.Some? && tx.jobs != {} ==> err.value.OrderCycle? && ClosedWalk(tx.jobs, tx.waits, err.value.path)
    ensures err.None? ==> Linear(tx.jobs, tx.waits, order)
  {
    if tx.jobs == {} {
      return Some(EmptyTransaction), [];
    }
    var names := SomeOrder(tx.jobs);
    KeysAreNamed(tx.g, names);
    var cycle: Option<seq<Name>>;
    cycle, order := FindCycle(names, tx.waits);
    err := if cycle.Some? then Some(OrderCycle(cycle.value)) else None;
  }
}

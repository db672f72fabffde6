/** The entry points: plan, validate and execute a start or a stop. */
module Execution {
  import opened Options
  import opened Names
  import opened Cycles
  import opened Graphs
  import opened Transactions
  import opened Reachability
  import opened Plans
  import opened States
  import S = Schedules
  import SR = StartRuns
  import SE = StartExecution
  import SX = StopExecution

  datatype ExecuteError = BadWorkerLimit | Invalid(error: PlanError)

  function ScheduleOf(tx: Transaction): S.Schedule {
    S.Schedule(tx.jobs, tx.waits, map n | n in tx.jobs && n in tx.g :: StartRequireNames(tx.g[n]))
  }

  /** In graph terms: the executor's requirement relation is Requires= plus BindsTo= among
      the jobs, and its wait rows are the planned ones. */
  lemma {:induction false} ScheduleMeans(tx: Transaction)
    requires WellPlanned(tx)
    ensures S.Proper(ScheduleOf(tx))
    ensures forall n, r :: S.Needs(ScheduleOf(tx), n, r) <==> n in tx.jobs && r in tx.jobs && StartRequires(tx.g[n], r)
    ensures forall n, d :: d in S.Deps(ScheduleOf(tx), n) <==> Lists(tx.waits, n, d)
  {
    hide CanonicalNode, CanonicalKeys, OrderedAfter, StartRequires, StartRequireNames;
    forall n | n in tx.jobs ensures forall r :: r in StartRequireNames(tx.g[n]) <==> StartRequires(tx.g[n], r) {
      RequireNamesAgree(tx.g[n]);
    }
  }

  /** `rootError`: the first root that has an error. */
  function FailedRoot(roots: seq<Name>, failed: set<Name>): (e: Option<Name>)
    ensures e.None? <==> forall x :: x in roots ==> x !in failed
    ensures e.Some? ==> exists i :: 0 <= i < |roots| && roots[i] == e.value && roots[i] in failed
                                    && forall j :: 0 <= j < i ==> roots[j] !in failed
  {
    if roots == [] then None
    else if roots[0] in failed then Some(roots[0])
    else
      var e := FailedRoot(roots[1..], failed);
      assert e.Some? ==> forall i :: 0 <= i < |roots[1..]| ==> roots[1..][i] == roots[i + 1];
      e
  }

  lemma {:induction false} FailedRootMeans(roots: seq<Name>, all: set<Name>, failed: set<Name>)
    requires Elements(roots) == all
    ensures FailedRoot(roots, failed).None? <==> all !! failed
    ensures FailedRoot(roots, failed).Some? ==> FailedRoot(roots, failed).value in all * failed
  {
    assert forall x :: x in roots <==> x in all;
  }

  /** Why a plan cannot run: it is empty, or its waits have this cycle. */
  ghost predicate Unrunnable(tx: Transaction, e: PlanError) {
    if tx.jobs == {} then e == EmptyTransaction else e.OrderCycle? && ClosedWalk(tx.jobs, tx.waits, e.path)
  }

  /** `ExecuteWithLimit`: runs exactly the valid plans, and every run is complete. */
  method ExecuteWithLimit(tx: Transaction, workers: int, cancelAfter: Option<nat>)
    returns (r: Result<SR.Run, ExecuteError>, err: Option<Name>, ghost log: seq<SR.Event>, ghost cancelled: bool)
    requires WellPlanned(tx)
    ensures r.Success? <==> workers >= 1 && Runnable(tx)
    ensures workers < 1 ==> r == Failure(BadWorkerLimit)
    ensures workers >= 1 && r.Failure? ==> r.error.Invalid? && Unrunnable(tx, r.error.error)
    ensures r.Success? ==> SR.RunComplete(ScheduleOf(tx), workers, r.value, log, cancelled)
    ensures r.Success? ==> SR.Heeds(log, cancelAfter, cancelled)
    ensures r.Success? ==> err == FailedRoot(tx.roots, r.value.errors.Keys)
  {
    hide WellFormed, WellPlanned, SR.RunComplete, SR.Consistent, SR.Propagated, SR.Settled, SR.Decided, Acyclic, S.Proper, ClosedWalk;
    log, cancelled, err := [], false, None;
    if workers < 1 { return Failure(BadWorkerLimit), None, [], false; }
    var bad, order := Validate(tx);
    if bad.Some? { return Failure(Invalid(bad.value)), None, [], false; }
    ScheduleMeans(tx);
    var plan := ScheduleOf(tx);
    var names := SomeOrder(tx.jobs);
    var remaining, unblock := S.SetUp(plan, names);
    var ex := new SE.Executor(plan, names, workers, remaining, unblock);
    ex.Run(cancelAfter, order);
    SR.FinishedRun(plan, workers, ex.s);
    log, cancelled := ex.s.log, ex.s.cancelled;
    r := Success(SR.Run(ex.s.states, ex.s.errors, ex.s.started));
    err := FailedRoot(tx.roots, ex.s.errors.Keys);
  }

  /** `ExecuteStopWithLimit`. */
  method ExecuteStopWithLimit(tx: Transaction, workers: int)
    returns (r: Result<SX.Run, ExecuteError>, err: Option<Name>, ghost log: seq<SX.Call>)
    requires WellPlanned(tx)
    ensures r.Success? <==> workers >= 1 && Runnable(tx)
    ensures workers < 1 ==> r == Failure(BadWorkerLimit)
    ensures workers >= 1 && r.Failure? ==> r.error.Invalid? && Unrunnable(tx, r.error.error)
    ensures r.Success? ==> SX.StopComplete(ScheduleOf(tx), workers, r.value, log)
    ensures r.Success? ==> err == FailedRoot(tx.roots, r.value.errors)
  {
    hide WellFormed, WellPlanned, SX.StopComplete, SX.Consistent, Acyclic, S.Proper, ClosedWalk;
    log, err := [], None;
    if workers < 1 { return Failure(BadWorkerLimit), None, []; }
    var bad, order := Validate(tx);
    if bad.Some? { return Failure(Invalid(bad.value)), None, []; }
    ScheduleMeans(tx);
    var plan := ScheduleOf(tx);
    var names := SomeOrder(tx.jobs);
    var remaining, unblock := S.SetUp(plan, names);
    var ex := new SX.StopExecutor(plan, names, workers, remaining, unblock);
    ex.Run(order);
    SX.FinishedStop(plan, workers, ex.s);
    log := ex.s.log;
    r := Success(SX.Run(ex.s.states, ex.s.errors, ex.s.stopped));
    err := FailedRoot(tx.roots, ex.s.errors);
  }

  /** The launch at `i` respects the graph: see `Start`. */
  ghost predicate StartsInOrder(g: Graph, jobs: set<Name>, log: seq<SR.Event>, i: nat)
    requires i < |log|
  {
    var n := log[i].name;
    && n in jobs && n in g
    && (forall j :: 0 <= j < |log| && j != i ==> log[j] != log[i])
    && (forall d :: d in jobs && d in g[n].waitsFor ==> exists j :: 0 <= j < i && SR.Settles(log[j], d))
    && (forall r, j :: r in jobs && StartRequires(g[n], r) && 0 <= j < i ==> !(log[j].Recorded? && log[j].name == r))
  }

  lemma {:induction false} StartedInOrder(tx: Transaction, workers: nat, log: seq<SR.Event>, i: nat)
    requires WellPlanned(tx) && Realizes(tx.g, Forward, tx.jobs, tx.waits)
    requires SR.SafeRun(ScheduleOf(tx), workers, log) && i < |log| && log[i].Launched?
    ensures StartsInOrder(tx.g, tx.jobs, log, i)
  {
    hide WellFormed, SR.SafeRun;
    var plan := ScheduleOf(tx);
    ScheduleMeans(tx);
    SR.AllowedAt(plan, workers, log, i);
    SR.LaunchDiscipline(plan, workers, log, i);
    var n := log[i].name;
    forall d | d in tx.jobs && d in tx.g[n].waitsFor ensures exists j :: 0 <= j < i && SR.Settles(log[j], d) {
      assert Lists(tx.waits, n, d);
      assert d in S.Deps(plan, n);
    }
    forall r, j | r in tx.jobs && StartRequires(tx.g[n], r) && 0 <= j < i
      ensures !(log[j].Recorded? && log[j].name == r)
    {
      assert S.Needs(plan, n, r);
    }
  }

  /** Just before the event at `i`, all workers were taken, or every member neither started nor
      failed was still ordered after one that had neither returned nor been rejected. */
  ghost predicate BusyStarting(g: Graph, members: set<Name>, workers: nat, log: seq<SR.Event>, i: nat)
    requires i < |log|
  {
    var past := log[..i];
    || SR.InFlight(past) >= workers
    || forall n :: n in members && n !in SR.Launches(past) && n !in SR.Records(past) ==>
         exists d :: d in members && MustWait(g, Forward, n, d) && d !in SR.Returns(past) && d !in SR.Rejects(past)
  }

  lemma {:induction false} StartedBusily(tx: Transaction, workers: nat, log: seq<SR.Event>, i: nat)
    requires WellPlanned(tx) && Realizes(tx.g, Forward, tx.jobs, tx.waits)
    requires SR.SafeRun(ScheduleOf(tx), workers, log) && i < |log| && log[i].Returned?
    ensures BusyStarting(tx.g, tx.jobs, workers, log, i)
  {
    hide WellFormed, SR.SafeRun, MustWait;
    var plan, past := ScheduleOf(tx), log[..i];
    ScheduleMeans(tx);
    SR.AllowedAt(plan, workers, log, i);
    if SR.InFlight(past) < workers {
      forall n | n in tx.jobs && n !in SR.Launches(past) && n !in SR.Records(past)
        ensures exists d :: d in tx.jobs && MustWait(tx.g, Forward, n, d) && d !in SR.Returns(past) && d !in SR.Rejects(past)
      {
        assert SR.Waits(plan, past, n);
        var d :| d in S.Deps(plan, n) && d !in SR.Returns(past) && d !in SR.Rejects(past);
        assert Lists(tx.waits, n, d);
      }
    }
  }

  /** `r` is a hard requirement of `n`, both members. */
  predicate Requires(g: Graph, members: set<Name>, n: Name, r: Name) {
    n in members && r in members && n in g && StartRequires(g[n], r)
  }

  /** Requirements lead from `n` to a root cause of its error. */
  ghost predicate Traced(g: Graph, members: set<Name>, run: SR.Run, log: seq<SR.Event>, cancelled: bool, n: Name, p: seq<Name>) {
    SR.Blames(run.errors, log, cancelled, n, p) && forall i :: 0 <= i < |p| - 1 ==> Requires(g, members, p[i], p[i + 1])
  }

  /** Every member was started once and the call returned, or it was rejected with an error;
      starts respect the graph, and nothing waits for a return while it could be started; final
      states fit the calls; a failure reaches every requirer that is not active, and every error
      has a root cause; the run's own error is that of a failed root, if there is one. */
  ghost predicate AllStarted(g: Graph, members: set<Name>, roots: set<Name>, workers: nat, run: SR.Run, err: Option<Name>,
                             log: seq<SR.Event>, cancelled: bool) {
    && SR.Accounted(members, run, log)
    && (forall i :: 0 <= i < |log| && log[i].Launched? ==> StartsInOrder(g, members, log, i))
    && (forall i :: 0 <= i < |log| && log[i].Returned? ==> BusyStarting(g, members, workers, log, i))
    && run.states.Keys == members && (forall n :: n in members ==> SR.Verdict(run, log, n))
    && (forall j, n :: j in run.errors && n != j && Requires(g, members, n, j) ==>
          n in run.errors || (n in run.states && run.states[n] == Active))
    && (forall n :: n in run.errors ==> exists p :: Traced(g, members, run, log, cancelled, n, p))
    && (err.None? <==> roots !! run.errors.Keys)
    && (err.Some? ==> err.value in roots * run.errors.Keys)
  }

  lemma {:induction false} StartMeans(tx: Transaction, workers: nat, roots: set<Name>, run: SR.Run, log: seq<SR.Event>, cancelled: bool)
    requires WellPlanned(tx) && Realizes(tx.g, Forward, tx.jobs, tx.waits) && Elements(tx.roots) == roots
    requires SR.RunComplete(ScheduleOf(tx), workers, run, log, cancelled)
    ensures AllStarted(tx.g, tx.jobs, roots, workers, run, FailedRoot(tx.roots, run.errors.Keys), log, cancelled)
  {
    hide WellPlanned, Realizes, StartsInOrder, BusyStarting, SR.SafeRun, SR.Verdict, SR.Accounted, SR.Blames, S.Needs, StartRequires;
    ScheduleMeans(tx);
    FailedRootMeans(tx.roots, roots, run.errors.Keys);
    forall i | 0 <= i < |log| && log[i].Launched? ensures StartsInOrder(tx.g, tx.jobs, log, i) {
      StartedInOrder(tx, workers, log, i);
    }
    forall i | 0 <= i < |log| && log[i].Returned? ensures BusyStarting(tx.g, tx.jobs, workers, log, i) {
      StartedBusily(tx, workers, log, i);
    }
    forall j, n | j in run.errors && n != j && Requires(tx.g, tx.jobs, n, j)
      ensures n in run.errors || (n in run.states && run.states[n] == Active)
    {
      assert S.Needs(ScheduleOf(tx), n, j);
    }
    forall n | n in run.errors ensures exists p :: Traced(tx.g, tx.jobs, run, log, cancelled, n, p) {
      var p :| SR.CauseChain(ScheduleOf(tx), run.errors, log, cancelled, n, p);
      ChainInGraph(tx, run, log, cancelled, n, p);
    }
  }

  lemma {:induction false} ChainInGraph(tx: Transaction, run: SR.Run, log: seq<SR.Event>, cancelled: bool, n: Name, p: seq<Name>)
    requires WellPlanned(tx) && SR.CauseChain(ScheduleOf(tx), run.errors, log, cancelled, n, p)
    ensures Traced(tx.g, tx.jobs, run, log, cancelled, n, p)
  {
    hide WellFormed, SR.Blames, S.Needs, StartRequires;
    ScheduleMeans(tx);
    forall i | 0 <= i < |p| - 1 ensures Requires(tx.g, tx.jobs, p[i], p[i + 1]) {
      assert S.Needs(ScheduleOf(tx), p[i], p[i + 1]);
    }
  }

  lemma {:induction false} SomeAdapterFailed(errors: map<Name, SR.StartError>, log: seq<SR.Event>, n: Name, p: seq<Name>) returns (m: Name)
    requires SR.Blames(errors, log, false, n, p)
    ensures SR.Returned(m, SR.Broke) in log
  {
    m := p[|p| - 1];
  }

  /** With no cancellation and no failed adapter call, everything is started and nothing fails. */
  lemma {:induction false} UndisturbedStart(g: Graph, members: set<Name>, roots: set<Name>, workers: nat, run: SR.Run,
                                             err: Option<Name>, log: seq<SR.Event>)
    requires AllStarted(g, members, roots, workers, run, err, log, false)
    requires forall n :: SR.Returned(n, SR.Broke) !in log
    ensures run.errors == map[] && err == None && SR.Launches(log) == members
    ensures forall n :: n in members ==> n in run.states && run.states[n] in {Active, Inactive}
    ensures forall n :: n in members && run.states[n] == Active ==> SR.Returned(n, SR.Completed) in log
    ensures forall n :: n in members && run.states[n] == Inactive ==> SR.Returned(n, SR.Skipped) in log
  {
    hide StartsInOrder, BusyStarting, Requires, SR.Blames;
    if run.errors != map[] {
      var n :| n in run.errors;
      var p :| Traced(g, members, run, log, false, n, p);
      var m := SomeAdapterFailed(run.errors, log, n, p);
    }
    assert forall n :: n in members ==> SR.Verdict(run, log, n);
  }

  /** A request that cannot be planned fails for that reason, any other one only for its worker
      limit. */
  ghost predicate FailsFor(g: Graph, q: Request, names: seq<Name>, workers: int, e: ExecuteError) {
    match e
    case Invalid(p) => Refused(g, q, names, p)
    case BadWorkerLimit => workers < 1 && Plannable(g, q, names)
  }

  /** On an acyclic ordering no start or shutdown is refused for a cycle. */
  lemma {:induction false} AcyclicIsPlannable(g: Graph, q: Request, names: seq<Name>)
    requires WellFormed(g) && q != ToStop && Acyclic(g.Keys, OrderWaits(g))
    ensures Plannable(g, q, names) <==> names != [] && NONAME !in RootSet(names) && !Missing(g, q, RootSet(names))
  {
    hide Missing, Members, Closure, WellFormed, Acyclic;
    forall p ensures !Deadlock(g, OrderOf(q), Members(g, q, RootSet(names)), p) {
      NoDeadlock(g, OrderOf(q), Members(g, q, RootSet(names)), p);
    }
  }

  lemma {:induction false} NoDeadlock(g: Graph, o: Ordering, members: set<Name>, p: seq<Name>)
    requires WellFormed(g) && o != Teardown && Acyclic(g.Keys, OrderWaits(g))
    ensures !Deadlock(g, o, members, p)
  {
    if Deadlock(g, o, members, p) {
      var q := if o == Forward then p else Reversed(p);
      forall i | 0 <= i < |q| - 1 ensures Edge(g.Keys, OrderWaits(g), q[i], q[i + 1]) {
        var k := if o == Forward then i else |p| - 2 - i;
        assert Holds(g, o, members, p[k], p[k + 1]);
      }
      assert ClosedWalk(g.Keys, OrderWaits(g), q);
    }
  }

  /** `Graph.Start`: every unit in the pull closure of the roots is started once, after every
      unit of the plan it is ordered after has returned or been rejected and never once a hard
      requirement in the plan has failed, or it is rejected. */
  method Start(g: Graph, names: seq<Name>, workers: int, cancelAfter: Option<nat>)
    returns (r: Result<SR.Run, ExecuteError>, err: Option<Name>, ghost log: seq<SR.Event>, ghost cancelled: bool)
    requires WellFormed(g)
    ensures r.Success? ==> workers >= 1 && AllStarted(g, Members(g, ToStart, RootSet(names)), RootSet(names), workers, r.value, err, log, cancelled)
    ensures r.Success? ==> SR.Heeds(log, cancelAfter, cancelled)
    ensures r.Success? <==> workers >= 1 && Plannable(g, ToStart, names)
    ensures r.Failure? ==> FailsFor(g, ToStart, names, workers, r.error)
  {
    hide WellFormed, WellPlanned, Runnable, Closure, Acyclic, Realizes, AllStarted, SR.RunComplete, Plannable, Refused, OrderWaits;
    log, err, cancelled := [], None, false;
    var plan := PlanStart(g, names);
    if plan.Failure? { return Failure(Invalid(plan.error)), None, [], false; }
    var tx := plan.value;
    RunnableIsPlanned(tx);
    r, err, log, cancelled := ExecuteWithLimit(tx, workers, cancelAfter);
    if r.Success? { StartMeans(tx, workers, RootSet(names), r.value, log, cancelled); }
  }

  lemma {:induction false} RunnableIsPlanned(tx: Transaction)
    requires Runnable(tx)
    ensures WellPlanned(tx)
  {}

  /** The Stop call at `i` is the member's only one and follows the return of Stop for every
      member it must wait for: on shutdown those ordered after it, otherwise also those that
      require it. */
  ghost predicate StopsInOrder(g: Graph, o: Ordering, jobs: set<Name>, log: seq<SX.Call>, i: nat)
    requires i < |log|
  {
    var n := log[i].name;
    && n in jobs
    && (forall j :: 0 <= j < |log| && j != i ==> log[j] != log[i])
    && (forall d :: d in jobs && MustWait(g, o, n, d) ==>
          exists j :: 0 <= j < i && log[j].Returned? && log[j].name == d)
  }

  lemma {:induction false} StoppedInOrder(tx: Transaction, o: Ordering, workers: nat, log: seq<SX.Call>, i: nat)
    requires WellPlanned(tx) && Realizes(tx.g, o, tx.jobs, tx.waits)
    requires SX.SafeStops(ScheduleOf(tx), workers, log) && i < |log| && log[i].Called?
    ensures StopsInOrder(tx.g, o, tx.jobs, log, i)
  {
    hide WellFormed, SX.SafeStops, MustWait;
    var plan := ScheduleOf(tx);
    ScheduleMeans(tx);
    SX.AllowedAt(plan, workers, log, i);
    SX.CallDiscipline(plan, workers, log, i);
    var n := log[i].name;
    forall d | d in tx.jobs && MustWait(tx.g, o, n, d)
      ensures exists j :: 0 <= j < i && log[j].Returned? && log[j].name == d
    {
      assert Lists(tx.waits, n, d);
      assert d in S.Deps(plan, n);
    }
  }

  /** Just before the event at `i`, all workers were taken, or every member not called yet had to
      wait for one that had not returned. */
  ghost predicate BusyStopping(g: Graph, o: Ordering, members: set<Name>, workers: nat, log: seq<SX.Call>, i: nat)
    requires i < |log|
  {
    var past := log[..i];
    || SX.InFlight(past) >= workers
    || forall n :: n in members && n !in SX.Calls(past) ==> exists d :: d in members && MustWait(g, o, n, d) && d !in SX.Returns(past)
  }

  lemma {:induction false} StoppedBusily(tx: Transaction, o: Ordering, workers: nat, log: seq<SX.Call>, i: nat)
    requires WellPlanned(tx) && Realizes(tx.g, o, tx.jobs, tx.waits)
    requires SX.SafeStops(ScheduleOf(tx), workers, log) && i < |log| && log[i].Returned?
    ensures BusyStopping(tx.g, o, tx.jobs, workers, log, i)
  {
    hide WellFormed, SX.SafeStops, MustWait;
    var plan, past := ScheduleOf(tx), log[..i];
    ScheduleMeans(tx);
    SX.AllowedAt(plan, workers, log, i);
    if SX.InFlight(past) < workers {
      forall n | n in tx.jobs && n !in SX.Calls(past)
        ensures exists d :: d in tx.jobs && MustWait(tx.g, o, n, d) && d !in SX.Returns(past)
      {
        assert SX.Waits(plan, past, n);
        var d :| d in S.Deps(plan, n) && d !in SX.Returns(past);
        assert Lists(tx.waits, n, d);
      }
    }
  }

  /** Every member was stopped: one call each, in order, all returned, with the errors they
      returned, and none waiting while it could be stopped; the run's own error is that of a failed root, if there is one. */
  ghost predicate AllStopped(g: Graph, o: Ordering, members: set<Name>, roots: set<Name>, workers: nat,
                             run: SX.Run, err: Option<Name>, log: seq<SX.Call>) {
    && SX.Calls(log) == SX.Returns(log) == members
    && run.errors == SX.Failures(log) && Elements(run.stopped) == members
    && (forall i :: 0 <= i < |log| && log[i].Called? ==> StopsInOrder(g, o, members, log, i))
    && (forall i :: 0 <= i < |log| && log[i].Returned? ==> BusyStopping(g, o, members, workers, log, i))
    && (err.None? <==> roots !! run.errors)
    && (err.Some? ==> err.value in roots * run.errors)
  }

  lemma {:induction false} StopMeans(tx: Transaction, o: Ordering, workers: nat, roots: set<Name>, run: SX.Run, log: seq<SX.Call>)
    requires WellPlanned(tx) && Realizes(tx.g, o, tx.jobs, tx.waits) && Elements(tx.roots) == roots
    requires SX.StopComplete(ScheduleOf(tx), workers, run, log)
    ensures AllStopped(tx.g, o, tx.jobs, roots, workers, run, FailedRoot(tx.roots, run.errors), log)
  {
    hide WellPlanned, Realizes, StopsInOrder, BusyStopping, SX.SafeStops;
    FailedRootMeans(tx.roots, roots, run.errors);
    forall i | 0 <= i < |log| && log[i].Called? ensures StopsInOrder(tx.g, o, tx.jobs, log, i) {
      StoppedInOrder(tx, o, workers, log, i);
    }
    forall i | 0 <= i < |log| && log[i].Returned? ensures BusyStopping(tx.g, o, tx.jobs, workers, log, i) {
      StoppedBusily(tx, o, workers, log, i);
    }
  }

  /** `Graph.Stop`: Stop is called exactly once on every loaded unit with a requirement path
      to a root, dependents first, whatever the calls return. */
  method Stop(g: Graph, names: seq<Name>, workers: int)
    returns (r: Result<SX.Run, ExecuteError>, err: Option<Name>, ghost log: seq<SX.Call>)
    requires WellFormed(g)
    ensures r.Success? ==> workers >= 1 && AllStopped(g, Teardown, Members(g, ToStop, RootSet(names)), RootSet(names), workers, r.value, err, log)
    ensures r.Success? <==> workers >= 1 && Plannable(g, ToStop, names)
    ensures r.Failure? ==> FailsFor(g, ToStop, names, workers, r.error)
  {
    hide WellFormed, WellPlanned, Runnable, Closure, Acyclic, Realizes, AllStopped, SX.StopComplete, Plannable, Refused, Deadlock;
    log, err := [], None;
    var plan := PlanStop(g, names);
    if plan.Failure? { return Failure(Invalid(plan.error)), None, []; }
    var tx := plan.value;
    RunnableIsPlanned(tx);
    r, err, log := ExecuteStopWithLimit(tx, workers);
    if r.Success? { StopMeans(tx, Teardown, workers, RootSet(names), r.value, log); }
  }

  /** `Graph.Shutdown`: Stop is called exactly once on every member, each only after it has
      returned for all members ordered after it. */
  method Shutdown(g: Graph, names: seq<Name>, workers: int)
    returns (r: Result<SX.Run, ExecuteError>, err: Option<Name>, ghost log: seq<SX.Call>)
    requires WellFormed(g)
    ensures r.Success? ==> workers >= 1 && AllStopped(g, Backward, Members(g, ToShutdown, RootSet(names)), RootSet(names), workers, r.value, err, log)
    ensures r.Success? <==> workers >= 1 && Plannable(g, ToShutdown, names)
    ensures r.Failure? ==> FailsFor(g, ToShutdown, names, workers, r.error)
  {
    hide WellFormed, WellPlanned, Runnable, Closure, Acyclic, Realizes, AllStopped, SX.StopComplete, Plannable, Refused, OrderWaits;
    log, err := [], None;
    var plan := PlanShutdown(g, names);
    if plan.Failure? { return Failure(Invalid(plan.error)), None, []; }
    var tx := plan.value;
    RunnableIsPlanned(tx);
    r, err, log := ExecuteStopWithLimit(tx, workers);
    if r.Success? { StopMeans(tx, Backward, workers, RootSet(names), r.value, log); }
  }
}

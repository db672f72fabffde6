/** Execution of a stop transaction: `ExecuteStopWithLimit` and `stopExecutor`.

A stop run has no failure propagation and ignores cancellation: every member is stopped
once, in order, whatever the earlier calls return. */
module StopExecution {
  import opened Names
  import opened Cycles
  import opened States
  import opened Schedules

  datatype Call = Called(name: Name) | Returned(name: Name, failed: bool)

  function Calls(log: seq<Call>): set<Name> {
    if log == [] then {} else
    Calls(log[..|log| - 1]) + (if log[|log| - 1].Called? then {log[|log| - 1].name} else {})
  }

  function Returns(log: seq<Call>): set<Name> {
    if log == [] then {} else
    Returns(log[..|log| - 1]) + (if log[|log| - 1].Returned? then {log[|log| - 1].name} else {})
  }

  /** The members whose Stop returned an error. */
  function Failures(log: seq<Call>): set<Name> {
    if log == [] then {} else
    var last := log[|log| - 1];
    Failures(log[..|log| - 1]) + (if last.Returned? && last.failed then {last.name} else {})
  }

  function InFlight(log: seq<Call>): int {
    if log == [] then 0 else
    InFlight(log[..|log| - 1]) + (if log[|log| - 1].Called? then 1 else -1)
  }

  ghost predicate Allowed(plan: Schedule, workers: nat, log: seq<Call>, e: Call) {
    match e
    case Called(n) =>
      && n in plan.jobs && n !in Calls(log)
      && (forall d :: d in Deps(plan, n) ==> d in Returns(log))
      && InFlight(log) < workers
    case Returned(n, _) => n in Calls(log) && n !in Returns(log) && KeptBusy(plan, workers, log)
  }

  /** While the executor waits for a call to return, all workers are taken or no further member
      can be stopped. */
  ghost predicate KeptBusy(plan: Schedule, workers: nat, log: seq<Call>) {
    InFlight(log) >= workers || forall n :: n in plan.jobs && n !in Calls(log) ==> Waits(plan, log, n)
  }

  ghost predicate Waits(plan: Schedule, log: seq<Call>, n: Name) {
    exists d :: d in Deps(plan, n) && d !in Returns(log)
  }

  ghost predicate SafeStops(plan: Schedule, workers: nat, log: seq<Call>) {
    log == [] ||
    (SafeStops(plan, workers, log[..|log| - 1]) && Allowed(plan, workers, log[..|log| - 1], log[|log| - 1]))
  }

  lemma {:induction false} SafeAppend(plan: Schedule, workers: nat, log: seq<Call>, e: Call)
    requires SafeStops(plan, workers, log) && Allowed(plan, workers, log, e)
    ensures SafeStops(plan, workers, log + [e])
    ensures Calls(log + [e]) == Calls(log) + (if e.Called? then {e.name} else {})
    ensures Returns(log + [e]) == Returns(log) + (if e.Returned? then {e.name} else {})
    ensures Failures(log + [e]) == Failures(log) + (if e.Returned? && e.failed then {e.name} else {})
    ensures InFlight(log + [e]) == InFlight(log) + (if e.Called? then 1 else -1)
  {
    assert (log + [e])[..|log|] == log;
  }

  /** `errors` is the set of members with a recorded Stop error. */
  datatype Snapshot = Snapshot(launched: set<Name>, released: set<Name>, remaining: map<Name, int>,
                               states: map<Name, State>, errors: set<Name>, stopped: seq<Name>,
                               inflight: int, running: set<Name>, log: seq<Call>)

  ghost predicate MemberOk(v: Snapshot, n: Name) {
    && n in v.states
    && v.states[n] == (if n !in v.launched then Active else if n in v.running then Deactivating else Inactive)
  }

  ghost predicate Tracked(plan: Schedule, workers: nat, v: Snapshot) {
    && v.states.Keys == plan.jobs && v.launched <= plan.jobs && v.running <= v.launched
    && v.released == v.launched - v.running
    && v.inflight == |v.running| <= workers
    && Elements(v.stopped) == v.launched && NoDuplicates(v.stopped)
    && forall n :: n in plan.jobs ==> MemberOk(v, n)
  }

  ghost predicate Logged(plan: Schedule, workers: nat, v: Snapshot) {
    SafeStops(plan, workers, v.log) && Matches(v.log, v.launched, v.released, v.errors, v.inflight)
  }

  ghost predicate Matches(log: seq<Call>, launched: set<Name>, released: set<Name>, errors: set<Name>, inflight: int) {
    && Calls(log) == launched && Returns(log) == released && Failures(log) == errors && InFlight(log) == inflight
  }

  ghost predicate Consistent(plan: Schedule, workers: nat, v: Snapshot) {
    Exact(plan, v.released, v.remaining) && Tracked(plan, workers, v) && Logged(plan, workers, v)
  }

  function Fresh(plan: Schedule, remaining: map<Name, int>): Snapshot {
    Snapshot({}, {}, remaining, map n | n in plan.jobs :: Active, {}, [], 0, {}, [])
  }

  function CallStop(v: Snapshot, name: Name): Snapshot {
    v.(launched := v.launched + {name}, states := v.states[name := Deactivating], stopped := v.stopped + [name],
       inflight := v.inflight + 1, running := v.running + {name}, log := v.log + [Called(name)])
  }

  lemma {:induction false} FreshConsistent(plan: Schedule, workers: nat, remaining: map<Name, int>)
    requires Exact(plan, {}, remaining)
    ensures Consistent(plan, workers, Fresh(plan, remaining))
  {
    hide Exact;
  }

  lemma {:induction false} CallKeeps(plan: Schedule, workers: nat, v: Snapshot, name: Name)
    requires Proper(plan) && Consistent(plan, workers, v) && name in plan.jobs && v.inflight < workers
    requires name !in v.launched && v.remaining[name] <= 0
    ensures Consistent(plan, workers, CallStop(v, name))
  {
    hide Exact, SafeStops, MemberOk, Matches, Allowed;
    CallAllowed(plan, workers, v, name);
    CallLogged(plan, workers, v.log, v.launched, v.released, v.errors, v.inflight, name);
    CallTracked(plan, workers, v, name);
  }

  lemma {:induction false} CallAllowed(plan: Schedule, workers: nat, v: Snapshot, name: Name)
    requires Proper(plan) && Consistent(plan, workers, v) && name in plan.jobs && v.inflight < workers
    requires name !in v.launched && v.remaining[name] <= 0
    ensures Allowed(plan, workers, v.log, Called(name))
  {
    hide SafeStops, MemberOk;
    forall d | d in Deps(plan, name) ensures d in Returns(v.log) {
      CountPositive(Deps(plan, name), v.released, d);
    }
  }

  lemma {:induction false} CallLogged(plan: Schedule, workers: nat, log: seq<Call>, launched: set<Name>, released: set<Name>,
                   errors: set<Name>, inflight: int, name: Name)
    requires SafeStops(plan, workers, log) && Matches(log, launched, released, errors, inflight)
    requires Allowed(plan, workers, log, Called(name))
    ensures SafeStops(plan, workers, log + [Called(name)])
    ensures Matches(log + [Called(name)], launched + {name}, released, errors, inflight + 1)
  {
    SafeAppend(plan, workers, log, Called(name));
  }

  lemma {:induction false} ReturnLogged(plan: Schedule, workers: nat, log: seq<Call>, launched: set<Name>, released: set<Name>,
                     errors: set<Name>, inflight: int, name: Name, failed: bool)
    requires SafeStops(plan, workers, log) && Matches(log, launched, released, errors, inflight)
    requires name in launched && name !in released && KeptBusy(plan, workers, log)
    ensures SafeStops(plan, workers, log + [Returned(name, failed)])
    ensures Matches(log + [Returned(name, failed)], launched, released + {name},
                    errors + (if failed then {name} else {}), inflight - 1)
  {
    hide KeptBusy;
    SafeAppend(plan, workers, log, Returned(name, failed));
  }

  lemma {:induction false} CallTracked(plan: Schedule, workers: nat, v: Snapshot, name: Name)
    requires Tracked(plan, workers, v) && name in plan.jobs && v.inflight < workers && name !in v.launched
    ensures Tracked(plan, workers, CallStop(v, name))
  {
    hide MemberOk, NoDuplicates, Elements;
    var w := CallStop(v, name);
    OneMore(v.stopped, name);
    forall n | n in plan.jobs ensures MemberOk(w, n) {
      CallMember(v, name, n);
    }
  }

  lemma {:induction false} CallMember(v: Snapshot, name: Name, n: Name)
    requires MemberOk(v, n) && name !in v.launched && v.running <= v.launched
    ensures MemberOk(CallStop(v, name), n)
  {}

  lemma {:induction false} ReturnKeeps(plan: Schedule, workers: nat, v: Snapshot, w: Snapshot, name: Name, failed: bool)
    requires Consistent(plan, workers, v) && name in v.running && KeptBusy(plan, workers, v.log)
    requires w == v.(running := v.running - {name}, inflight := v.inflight - 1, released := v.released + {name},
                     remaining := w.remaining, log := v.log + [Returned(name, failed)],
                     errors := w.errors, states := v.states[name := Inactive])
    requires w.errors == v.errors + (if failed then {name} else {})
    requires Exact(plan, w.released, w.remaining)
    ensures Consistent(plan, workers, w)
  {
    hide Exact, SafeStops, Matches, Tracked, KeptBusy;
    assert name in v.launched && name !in v.released by { RunningFacts(plan, workers, v, name); }
    ReturnTracked(plan, workers, v, w, name);
    ReturnLogged(plan, workers, v.log, v.launched, v.released, v.errors, v.inflight, name, failed);
  }

  lemma {:induction false} RunningFacts(plan: Schedule, workers: nat, v: Snapshot, name: Name)
    requires Tracked(plan, workers, v) && name in v.running
    ensures name in v.launched && name !in v.released
  {}

  lemma {:induction false} ReturnTracked(plan: Schedule, workers: nat, v: Snapshot, w: Snapshot, name: Name)
    requires Tracked(plan, workers, v) && name in v.running
    requires w == v.(running := v.running - {name}, inflight := v.inflight - 1, released := v.released + {name},
                     remaining := w.remaining, log := w.log, errors := w.errors, states := v.states[name := Inactive])
    ensures Tracked(plan, workers, w)
  {
    hide MemberOk, Elements, NoDuplicates;
    assert v.running == w.running + {name};
    assert w.released == w.launched - w.running;
    forall n | n in plan.jobs ensures MemberOk(w, n) {
      ReturnMember(v, w, name, n);
    }
  }

  lemma {:induction false} ReturnMember(v: Snapshot, w: Snapshot, name: Name, n: Name)
    requires MemberOk(v, n) && name in v.launched
    requires w.launched == v.launched && w.running == v.running - {name} && w.states == v.states[name := Inactive]
    ensures MemberOk(w, n)
  {}

  ghost function Progress(plan: Schedule, v: Snapshot): nat {
    2 * |plan.jobs - v.launched| + |v.running|
  }

  lemma {:induction false} Facts(plan: Schedule, workers: nat, v: Snapshot)
    requires Consistent(plan, workers, v)
    ensures v.inflight == |v.running| && (v.inflight == 0 <==> v.running == {})
    ensures v.remaining.Keys == plan.jobs && v.running <= v.launched <= plan.jobs
    ensures v.states.Keys == plan.jobs && v.released == v.launched - v.running
  {}

  lemma {:induction false} CallProgress(plan: Schedule, workers: nat, v: Snapshot, name: Name)
    requires Consistent(plan, workers, v) && name in plan.jobs
    ensures name !in v.launched ==> Progress(plan, CallStop(v, name)) <= Progress(plan, v)
    ensures CallStop(v, name).inflight > 0
  {
    hide Exact, Logged, MemberOk, Elements, NoDuplicates;
    var w := CallStop(v, name);
    if name !in v.launched {
      assert plan.jobs - v.launched == (plan.jobs - w.launched) + {name};
    }
  }

  lemma {:induction false} ReturnProgress(plan: Schedule, v: Snapshot, w: Snapshot, name: Name)
    requires name in v.running && w.running == v.running - {name} && w.launched == v.launched
    ensures Progress(plan, w) < Progress(plan, v)
  {
    assert v.running == w.running + {name};
  }

  ghost predicate Blocked(v: Snapshot, n: Name) {
    n in v.launched || (n in v.remaining && v.remaining[n] > 0)
  }

  /** After a round the workers are taken, or every member is called or waits for one that has
      not returned. */
  lemma {:induction false} RoundKeepsBusy(plan: Schedule, workers: nat, v: Snapshot)
    requires Consistent(plan, workers, v)
    requires v.inflight < workers ==> forall n :: n in plan.jobs ==> Blocked(v, n)
    ensures KeptBusy(plan, workers, v.log)
  {
    hide SafeStops, MemberOk;
    if v.inflight < workers {
      forall n | n in plan.jobs && n !in v.launched ensures Waits(plan, v.log, n) {
        assert Blocked(v, n);
        var d := CountWitness(Deps(plan, n), v.released);
      }
    }
  }

  lemma {:induction false} CallBlocks(v: Snapshot, name: Name)
    ensures forall n :: n == name || Blocked(v, n) ==> Blocked(CallStop(v, name), n)
  {}

  /** With nothing running and nothing to launch, every member has been stopped. */
  lemma {:induction false} NoOneStuck(plan: Schedule, workers: nat, v: Snapshot, order: seq<Name>, i: nat)
    requires Proper(plan) && Consistent(plan, workers, v) && v.running == {} && Linear(plan.jobs, plan.waits, order)
    requires forall n :: n in plan.jobs ==> Blocked(v, n)
    requires i < |order|
    ensures order[i] in v.launched
  {
    hide Logged;
    var n := order[i];
    assert n in Elements(order);
    if n !in v.launched {
      assert Blocked(v, n);
      var d := CountWitness(Deps(plan, n), v.released);
      assert Edge(plan.jobs, plan.waits, n, d);
      var j :| 0 <= j < i && order[j] == d;
      NoOneStuck(plan, workers, v, order, j);
      assert false;
    }
  }

  lemma {:induction false} AllStopped(plan: Schedule, workers: nat, v: Snapshot, order: seq<Name>)
    requires Proper(plan) && Consistent(plan, workers, v) && v.running == {} && Linear(plan.jobs, plan.waits, order)
    requires forall n :: n in plan.jobs ==> Blocked(v, n)
    ensures v.launched == plan.jobs
  {
    forall n | n in plan.jobs ensures n in v.launched {
      assert n in Elements(order);
      var i :| 0 <= i < |order| && order[i] == n;
      NoOneStuck(plan, workers, v, order, i);
    }
  }

  datatype Run = Run(states: map<Name, State>, errors: set<Name>, stopped: seq<Name>)

  /** Stop was called on every member exactly once, each only after Stop had returned for
      all it waits for; every call returned, and the errors are those the calls returned. */
  ghost predicate StopComplete(plan: Schedule, workers: nat, run: Run, log: seq<Call>) {
    && SafeStops(plan, workers, log)
    && Calls(log) == Returns(log) == plan.jobs
    && Elements(run.stopped) == plan.jobs && NoDuplicates(run.stopped)
    && run.errors == Failures(log)
    && run.states.Keys == plan.jobs && forall n :: n in plan.jobs ==> run.states[n] == Inactive
  }

  lemma {:induction false} FinishedStop(plan: Schedule, workers: nat, v: Snapshot)
    requires Consistent(plan, workers, v) && v.running == {} && v.launched == plan.jobs
    ensures StopComplete(plan, workers, Run(v.states, v.errors, v.stopped), v.log)
  {
    hide SafeStops, Exact;
    forall n | n in plan.jobs ensures v.states[n] == Inactive {
      assert MemberOk(v, n);
    }
  }

  lemma {:induction false} AllowedAt(plan: Schedule, workers: nat, log: seq<Call>, i: nat)
    requires SafeStops(plan, workers, log) && i < |log|
    ensures Allowed(plan, workers, log[..i], log[i])
  {
    var init := log[..|log| - 1];
    if i < |log| - 1 {
      AllowedAt(plan, workers, init, i);
      assert init[..i] == log[..i];
    }
  }

  lemma {:induction false} HistoryMeans(log: seq<Call>, n: Name)
    ensures n in Calls(log) <==> exists j :: 0 <= j < |log| && log[j] == Called(n)
    ensures n in Returns(log) <==> exists j :: 0 <= j < |log| && log[j].Returned? && log[j].name == n
  {
    if log != [] {
      var init := log[..|log| - 1];
      HistoryMeans(init, n);
      forall j | 0 <= j < |init| ensures log[j] == init[j] {}
    }
  }

  /** A Stop call is the only one for its member and follows the return of Stop for
      everything the member waits for. */
  lemma {:induction false} CallDiscipline(plan: Schedule, workers: nat, log: seq<Call>, i: nat)
    requires SafeStops(plan, workers, log) && i < |log| && log[i].Called?
    ensures forall j :: 0 <= j < |log| && j != i ==> log[j] != log[i]
    ensures forall d :: d in Deps(plan, log[i].name) ==> exists j :: 0 <= j < i && log[j].Returned? && log[j].name == d
  {
    hide SafeStops;
    var n := log[i].name;
    AllowedAt(plan, workers, log, i);
    HistoryMeans(log[..i], n);
    forall j | 0 <= j < |log| && j != i ensures log[j] != log[i] {
      if j < i {
        assert log[..i][j] == log[j];
      } else {
        AllowedAt(plan, workers, log, j);
        HistoryMeans(log[..j], n);
        assert log[..j][i] == log[i];
      }
    }
    forall d | d in Deps(plan, n) ensures exists j :: 0 <= j < i && log[j].Returned? && log[j].name == d {
      HistoryMeans(log[..i], d);
      var j :| 0 <= j < i && log[..i][j].Returned? && log[..i][j].name == d;
      assert log[..i][j] == log[j];
    }
  }

  class StopExecutor {
    const plan: Schedule
    const names: seq<Name>
    const workers: nat
    const unblock: map<Name, seq<Name>>
    var s: Snapshot

    ghost predicate Planned() {
      && Proper(plan)
      && Elements(names) == plan.jobs && NoDuplicates(names)
      && unblock.Keys == plan.jobs
      && forall d :: d in plan.jobs ==> Successors(plan, d, unblock[d])
    }

    ghost predicate Valid()
      reads this
    {
      Planned() && Consistent(plan, workers, s)
    }

    constructor (plan: Schedule, names: seq<Name>, workers: nat, remaining: map<Name, int>, unblock: map<Name, seq<Name>>)
      requires Proper(plan) && Elements(names) == plan.jobs && NoDuplicates(names)
      requires Exact(plan, {}, remaining) && unblock.Keys == plan.jobs
      requires forall d :: d in plan.jobs ==> Successors(plan, d, unblock[d])
      ensures Valid()
      ensures this.plan == plan && this.names == names && this.workers == workers && this.unblock == unblock
    {
      this.plan, this.names, this.workers, this.unblock := plan, names, workers, unblock;
      s := Fresh(plan, remaining);
      new;
      hide Consistent, Proper, Successors, NoDuplicates, Fresh;
      FreshConsistent(plan, workers, remaining);
    }

    lemma {:induction false} Listed()
      requires Planned()
      ensures Proper(plan) && forall n :: n in plan.jobs <==> n in names
    {
      assert forall n :: n in plan.jobs <==> n in Elements(names);
    }

    method ReleaseAfter(name: Name)
      requires Planned() && Exact(plan, s.released, s.remaining) && name in plan.jobs
      modifies this
      ensures Exact(plan, s.released, s.remaining)
      ensures s == old(s).(released := old(s).released + {name}, remaining := s.remaining)
    {
      var released := s.released;
      if name in released {
        assert released + {name} == released;
        return;
      }
      PositiveCounters(plan, released, s.remaining, name, unblock[name]);
      var remaining := DecrementAll(s.remaining, unblock[name]);
      CountersAfter(plan, released, s.remaining, remaining, name, unblock[name]);
      s := s.(released := released + {name}, remaining := remaining);
    }

    method TryLaunch(name: Name)
      requires Valid() && name in plan.jobs && s.inflight < workers
      modifies this
      ensures Valid()
      ensures (s == old(s) && Blocked(s, name)) || (name !in old(s).launched && s == CallStop(old(s), name))
    {
      hide Planned, Consistent, CallStop;
      Facts(plan, workers, s);
      if name in s.launched { return; }
      if s.remaining[name] > 0 { return; }
      Listed();
      CallKeeps(plan, workers, s, name);
      s := CallStop(s, name);
    }

    /** `onFinish` and `markDone`; releasing a second time changes nothing. */
    method OnFinish(name: Name, failed: bool)
      requires Valid() && name in s.running && KeptBusy(plan, workers, s.log)
      modifies this
      ensures Valid()
      ensures s == old(s).(running := old(s).running - {name}, inflight := old(s).inflight - 1,
                           released := old(s).released + {name}, remaining := s.remaining,
                           errors := old(s).errors + (if failed then {name} else {}),
                           states := old(s).states[name := Inactive], log := old(s).log + [Returned(name, failed)])
    {
      hide Proper, Successors, NoDuplicates, Tracked, Logged, KeptBusy;
      ghost var v := s;
      Facts(plan, workers, v);
      s := s.(running := s.running - {name}, inflight := s.inflight - 1, log := s.log + [Returned(name, failed)]);
      ReleaseAfter(name);
      if failed {
        if name !in s.errors {
          s := s.(errors := s.errors + {name});
        }
      }
      s := s.(states := s.states[name := Inactive]);
      ReleaseAfter(name);
      assert v.released + {name} + {name} == v.released + {name};
      ReturnKeeps(plan, workers, v, s, name, failed);
    }

    method LaunchRound()
      requires Valid() && workers >= 1
      modifies this
      ensures Valid() && Progress(plan, s) <= Progress(plan, old(s))
      ensures s.inflight < workers ==> forall n :: n in plan.jobs ==> Blocked(s, n)
      ensures KeptBusy(plan, workers, s.log)
    {
      hide Planned, Consistent, CallStop, Blocked, KeptBusy;
      Listed();
      for i := 0 to |names|
        invariant Valid() && Progress(plan, s) <= Progress(plan, old(s))
        invariant forall k :: 0 <= k < i ==> Blocked(s, names[k])
      {
        if s.inflight >= workers { break; }
        ghost var v := s;
        TryLaunch(names[i]);
        CallProgress(plan, workers, v, names[i]);
        CallBlocks(v, names[i]);
      }
      RoundKeepsBusy(plan, workers, s);
    }

    method Run(ghost order: seq<Name>)
      requires Valid() && workers >= 1 && Linear(plan.jobs, plan.waits, order)
      modifies this
      ensures Valid() && s.running == {} && s.launched == plan.jobs
    {
      hide Planned, Consistent, Linear, Blocked, KeptBusy;
      Listed();
      while true
        invariant Valid()
        decreases Progress(plan, s)
      {
        LaunchRound();
        Facts(plan, workers, s);
        if s.inflight == 0 {
          AllStopped(plan, workers, s, order);
          break;
        }
        var name :| name in s.running;
        var failed: bool := *;
        ghost var v := s;
        OnFinish(name, failed);
        ReturnProgress(plan, v, s, name);
      }
      // The drain loop has nothing to wait for, and no member is left unstopped.
      assert s.inflight == 0;
      for i := 0 to |names|
        invariant Valid() && s.running == {} && s.launched == plan.jobs
      {
        if names[i] !in s.launched {
          assert false;
        }
      }
    }
  }
}

/** Execution of a start transaction: `ExecuteWithLimit` and `executor`. */
module StartExecution {
  import opened Sets
  import opened Options
  import opened Names
  import opened Cycles
  import opened States
  import opened Schedules
  import opened StartRuns

  class Executor {
    const plan: Schedule
    const names: seq<Name>
    const workers: nat
    const unblock: map<Name, seq<Name>>
    var s: Snapshot

    ghost predicate Planned() {
      && Proper(plan)
      && Elements(names) == plan.jobs && NoDuplicates(names)
      && unblock.Keys == plan.jobs
      && forall d :: d in plan.jobs ==> Successors(plan, d, unblock[d])
    }

    ghost predicate Valid()
      reads this
    {
      Planned() && Consistent(plan, workers, s)
    }

    /** A fresh executor: every job inactive, every counter the length of its wait row. */
    constructor (plan: Schedule, names: seq<Name>, workers: nat, remaining: map<Name, int>, unblock: map<Name, seq<Name>>)
      requires Proper(plan) && Elements(names) == plan.jobs && NoDuplicates(names)
      requires Exact(plan, {}, remaining) && unblock.Keys == plan.jobs
      requires forall d :: d in plan.jobs ==> Successors(plan, d, unblock[d])
      ensures Valid() && Propagated(plan, s, {}) && Settled(plan, s, {})
      ensures this.plan == plan && this.names == names && this.workers == workers && this.unblock == unblock
      ensures !s.cancelled && s.log == []
    {
      this.plan, this.names, this.workers, this.unblock := plan, names, workers, unblock;
      s := Fresh(plan, remaining);
      new;
      assert s.log == [];
      hide Consistent, Propagated, Settled, Proper, Successors, NoDuplicates, Fresh;
      FreshConsistent(plan, workers, remaining);
    }

    lemma {:induction false} EveryJobListed(n: Name)
      requires Planned() && n in plan.jobs
      ensures n in names
    {
      assert n in Elements(names);
    }

    /** `releaseAfter`: one decrement per successor keeps every counter exact. */
    method ReleaseAfter(name: Name)
      requires Planned() && Exact(plan, s.released, s.remaining) && name in plan.jobs
      modifies this
      ensures Exact(plan, s.released, s.remaining)
      ensures s == old(s).(released := old(s).released + {name}, remaining := s.remaining)
    {
      var released := s.released;
      if name in released {
        assert released + {name} == released;
        return;
      }
      PositiveCounters(plan, released, s.remaining, name, unblock[name]);
      var remaining := DecrementAll(s.remaining, unblock[name]);
      CountersAfter(plan, released, s.remaining, remaining, name, unblock[name]);
      s := s.(released := released + {name}, remaining := remaining);
    }

    /** `requiresFailed`: the first planned hard requirement with a recorded error. */
    method RequiresFailed(name: Name) returns (why: Option<StartError>)
      requires Planned() && name in plan.jobs
      ensures why.None? ==> forall r :: Needs(plan, name, r) ==> r !in s.errors
      ensures why.Some? ==> why.value.Dependency? && Needs(plan, name, why.value.required)
                            && why.value.required in s.errors
    {
      var required := plan.needs[name];
      for i := 0 to |required|
        invariant forall k :: 0 <= k < i && required[k] in plan.jobs ==> required[k] !in s.errors
      {
        var r := required[i];
        if r !in plan.jobs { continue; }
        if r in s.errors {
          assert r in required;
          return Some(Dependency(name, r, s.errors[r]));
        }
      }
      why := None;
    }

    /** `jobNotYetStarted`. */
    predicate NotYetStarted(name: Name)
      reads this
      requires name in s.states
    {
      s.states[name] == Inactive || s.states[name] == Activating
    }

    /** The part of `markFailed` that settles one job, before its requirers are visited. */
    method RecordFailure(name: Name, err: StartError)
      requires Valid() && name in plan.jobs && name !in s.errors && s.states[name] != Active
      requires Explained(plan, s, name, err)
      modifies this
      ensures Valid() && Grown(old(s), s)
      ensures s.errors == old(s).errors[name := err] && s.states == old(s).states[name := Failed]
    {
      hide Planned, Tracked, Logged, AllExplained, Grown, Explained;
      ghost var v := s;
      s := s.(errors := s.errors[name := err], states := s.states[name := Failed], log := s.log + [Recorded(name, err)]);
      if name !in s.launched {
        s := s.(log := s.log + [Rejected(name, err)]);
        ReleaseAfter(name);
      }
      assert s.log == v.log + FailureEvents(name in v.launched, name, err);
      FailureKeeps(plan, workers, v, s, name, err);
    }

    /** `markFailed`: records the error, rejects and releases a job that never started, and
        fails every not-yet-started requirer in turn. `pending` are the jobs whose own
        propagation is still running further up the call stack. */
    method MarkFailed(name: Name, err: StartError, ghost pending: set<Name>)
      requires Valid() && name in plan.jobs
      requires Propagated(plan, s, pending) && Explained(plan, s, name, err)
      modifies this
      ensures Valid() && Propagated(plan, s, pending) && Grown(old(s), s)
      ensures name in s.states && (s.states[name] == Failed || (s == old(s) && s.states[name] == Active))
      ensures name !in old(s).errors && s.states[name] == Failed ==> name in s.errors && s.errors[name] == err
      decreases |plan.jobs - s.errors.Keys|, 0
    {
      hide Planned, Consistent, Grown, Propagated, JobOk, Explained, Reached;
      ghost var v := s;
      JobFacts(plan, workers, v, name);
      if !NotYetStarted(name) && s.states[name] != Failed {
        GrownReflexive(v);
        return;
      }
      if name in s.errors {
        s := s.(states := s.states[name := Failed]);
        RefailKeeps(plan, workers, v, s, name);
        PropagatedGrows(plan, v, s, pending, name);
        return;
      }
      RecordFailure(name, err);
      PropagatedGrows(plan, v, s, pending, name);
      WhiteShrinks(plan.jobs, v.errors.Keys, s.errors.Keys, name);
      ghost var u := s;
      FailRequirers(name, err, pending);
      GrownTransitive(v, u, s);
      GrownFacts(u, s);
    }

    /** The propagation loop of `markFailed`. */
    method FailRequirers(name: Name, err: StartError, ghost pending: set<Name>)
      requires Valid() && name in plan.jobs && name in s.errors && s.errors[name] == err
      requires Propagated(plan, s, pending + {name})
      modifies this
      ensures Valid() && Propagated(plan, s, pending) && Grown(old(s), s)
      decreases |plan.jobs - s.errors.Keys|, 1
    {
      hide Planned, Consistent, Grown, Propagated, JobOk, Explained;
      ghost var v := s;
      GrownReflexive(v);
      for i := 0 to |names|
        invariant Valid() && Grown(v, s) && Propagated(plan, s, pending + {name})
        invariant forall k :: 0 <= k < i && names[k] != name && Needs(plan, names[k], name) ==> Reached(s, names[k])
      {
        var other := names[i];
        if other == name { continue; }
        if !Needs(plan, other, name) { continue; }
        ghost var u := s;
        JobFacts(plan, workers, u, other);
        if !NotYetStarted(other) { continue; }
        GrownFacts(v, u);
        SubsetSize(plan.jobs - u.errors.Keys, plan.jobs - v.errors.Keys);
        DependencyExplains(plan, u, other, name);
        MarkFailed(other, Dependency(other, name, err), pending + {name});
        JobFacts(plan, workers, s, other);
        GrownTransitive(v, u, s);
        GrownFacts(u, s);
      }
      forall n | n in plan.jobs && n != name && Needs(plan, n, name) ensures Reached(s, n) {
        EveryJobListed(n);
      }
      PropagationDone(plan, s, pending, name);
    }

    /** `tryLaunch`. With errors fully propagated, the requirement check cannot fail: a job
        with a failed requirement is already marked Failed. */
    method TryLaunch(name: Name)
      requires Valid() && name in plan.jobs && s.inflight < workers
      requires Propagated(plan, s, {}) && Settled(plan, s, {})
      modifies this
      ensures Valid() && Propagated(plan, s, {}) && Settled(plan, s, {})
      ensures (s == old(s) && Blocked(s, name)) || (name !in old(s).launched && s == LaunchJob(old(s), name))
    {
      hide Consistent, Propagated, Settled, Explained, LaunchJob, Proper, Successors, NoDuplicates;
      JobFacts(plan, workers, s, name);
      if name in s.launched { return; }
      if s.states[name] == Failed { return; }
      if s.remaining[name] > 0 { return; }
      var why := RequiresFailed(name);
      NoFailedRequirement(plan, workers, s, name);
      if why.Some? {
        assert false;
        return;
      }
      LaunchKeeps(plan, workers, s, name);
      s := LaunchJob(s, name);
    }

    /** One adapter call returns: `onFinish`. The requirement check after a successful
        return cannot fail either. */
    method OnFinish(name: Name, outcome: Outcome)
      requires Valid() && name in s.running && KeptBusy(plan, workers, s.log)
      requires Propagated(plan, s, {}) && Settled(plan, s, {})
      modifies this
      ensures Valid() && Propagated(plan, s, {}) && Settled(plan, s, {})
      ensures s.running == old(s).running - {name} && s.launched == old(s).launched && s.cancelled == old(s).cancelled
      ensures old(s).errors.Keys <= s.errors.Keys && Finished(old(s), s, name, outcome)
      ensures Quiet(old(s).log + [Returned(name, outcome)], s.log)
    {
      hide Propagated, Settled, Explained, Grown, Quiet, Proper, Successors, NoDuplicates, Tracked, Logged, AllExplained, Extends, OnlyFailed, KeptBusy;
      ghost var v := s;
      RunningFacts(plan, workers, v, name);
      s := s.(running := s.running - {name}, inflight := s.inflight - 1, log := s.log + [Returned(name, outcome)]);
      ReleaseAfter(name);
      ReturnKeeps(plan, workers, v, s, name, outcome);
      FinishReturned(name, outcome);
    }

    /** `onFinish` after the successors are released. */
    method FinishReturned(name: Name, outcome: Outcome)
      requires Valid() && name in s.launched - s.running && Returned(name, outcome) in s.log
      requires name in s.states && s.states[name] in {Activating, Failed} && name in s.released
      requires Propagated(plan, s, {}) && Settled(plan, s, {name})
      modifies this
      ensures Valid() && Propagated(plan, s, {}) && Settled(plan, s, {})
      ensures s.running == old(s).running && s.launched == old(s).launched && s.cancelled == old(s).cancelled
      ensures old(s).errors.Keys <= s.errors.Keys && Finished(old(s), s, name, outcome) && Quiet(old(s).log, s.log)
    {
      hide Planned, Consistent, Propagated, Settled, Explained, JobOk;
      ghost var v := s;
      ReturnedIsJob(plan, workers, v, name);
      match outcome
      case Skipped =>
        s := s.(states := s.states[name := Inactive]);
        SkipKeeps(plan, workers, v, s, name);
      case Broke =>
        AdapterExplains(plan, v, name);
        MarkFailed(name, AdapterError(name), {});
        GrownSettles(plan, workers, v, s, name);
        JobFacts(plan, workers, s, name);
        BrokeFinishes(v, s, name);
        GrownFrame(plan, v, s);
      case Completed =>
        if s.states[name] == Failed {
          SettledNow(plan, v, name);
          return;
        }
        var why := RequiresFailed(name);
        NoFailedRequirement(plan, workers, v, name);
        if why.Some? {
          assert false;
          return;
        }
        s := s.(states := s.states[name := Active]);
        ActivateKeeps(plan, workers, v, s, name);
    }

    /** One pass of launches over all jobs: afterwards all workers are taken or nothing more can
        be launched. */
    method LaunchRound()
      requires Valid() && Propagated(plan, s, {}) && Settled(plan, s, {}) && workers >= 1
      modifies this
      ensures Valid() && Propagated(plan, s, {}) && Settled(plan, s, {})
      ensures s.cancelled == old(s).cancelled && OnlyCalls(old(s).log, s.log)
      ensures Progress(plan, s) <= Progress(plan, old(s))
      ensures s.inflight < workers ==> forall n :: n in plan.jobs ==> Blocked(s, n)
      ensures KeptBusy(plan, workers, s.log)
    {
      hide Planned, Consistent, Propagated, Settled, LaunchJob, Blocked, KeptBusy;
      for i := 0 to |names|
        invariant Valid() && Propagated(plan, s, {}) && Settled(plan, s, {})
        invariant s.cancelled == old(s).cancelled && Progress(plan, s) <= Progress(plan, old(s))
        invariant forall k :: 0 <= k < i ==> Blocked(s, names[k])
        invariant OnlyCalls(old(s).log, s.log)
      {
        if s.inflight >= workers { break; }
        ghost var v := s;
        ListedIsJob(i);
        TryLaunch(names[i]);
        LaunchFacts(plan, workers, v, names[i]);
        LaunchBlocks(v, names[i]);
      }
      if s.inflight < workers {
        forall n | n in plan.jobs ensures Blocked(s, n) {
          EveryJobListed(n);
        }
      }
      PlanIsProper();
      RoundKeepsBusy(plan, workers, s);
    }

    lemma {:induction false} ListedIsJob(i: nat)
      requires Planned() && i < |names|
      ensures names[i] in plan.jobs
    {
      assert names[i] in Elements(names);
    }

    /** Cancellation: every job that is neither launched nor failed is rejected. */
    method RejectWaiting()
      requires Valid() && Propagated(plan, s, {}) && Settled(plan, s, {}) && s.cancelled
      modifies this
      ensures Valid() && Propagated(plan, s, {}) && Settled(plan, s, {}) && s.cancelled
      ensures s.launched == old(s).launched && s.running == old(s).running && ReturnCount(s.log) == ReturnCount(old(s).log)
      ensures forall k: nat :: LaunchedBefore(old(s).log, k) ==> LaunchedBefore(s.log, k)
      ensures Decided(plan, s)
    {
      hide Planned, Consistent, Propagated, Settled, Grown, JobOk, Quiet, LaunchedBefore, ReturnCount;
      for i := 0 to |names|
        invariant Valid() && Propagated(plan, s, {}) && Settled(plan, s, {}) && s.cancelled
        invariant s.launched == old(s).launched && s.running == old(s).running && ReturnCount(s.log) == ReturnCount(old(s).log)
        invariant forall k: nat :: LaunchedBefore(old(s).log, k) ==> LaunchedBefore(s.log, k)
        invariant forall k :: 0 <= k < i ==> names[k] in s.launched || names[k] in s.errors
      {
        var name := names[i];
        ghost var v := s;
        ListedIsJob(i);
        JobFacts(plan, workers, v, name);
        if s.states[name] == Inactive && name !in s.launched {
          MarkFailed(name, ContextDone, {});
          GrownFrame(plan, v, s);
          forall k: nat { QuietKeeps(v.log, s.log, k); }
          QuietKeeps(v.log, s.log, 0);
          GrownFacts(v, s);
          JobFacts(plan, workers, s, name);
        }
      }
      forall n | n in plan.jobs ensures n in s.launched || n in s.errors {
        EveryJobListed(n);
      }
    }

    /** One of the calls under way returns, whichever it is and however it went. */
    method Receive()
      requires Valid() && Propagated(plan, s, {}) && Settled(plan, s, {}) && s.running != {} && KeptBusy(plan, workers, s.log)
      modifies this
      ensures Valid() && Propagated(plan, s, {}) && Settled(plan, s, {}) && Progress(plan, s) < Progress(plan, old(s))
      ensures s.launched == old(s).launched && s.running < old(s).running && s.cancelled == old(s).cancelled
      ensures Decided(plan, old(s)) ==> Decided(plan, s)
      ensures ReturnCount(s.log) == ReturnCount(old(s).log) + 1
      ensures forall k: nat :: LaunchedBefore(old(s).log, k) ==> LaunchedBefore(s.log, k)
    {
      hide Planned, Consistent, Propagated, Settled, Decided, KeptBusy, LaunchedBefore, ReturnCount, Quiet, Finished;
      var name :| name in s.running;
      var outcome: Outcome := *;
      ghost var v := s;
      OnFinish(name, outcome);
      Waited(v.log, Returned(name, outcome), s.log);
      ReturnProgress(plan, v, s, name);
    }

    /** The main loop of `ExecuteWithLimit`. The context may be cancelled after any number of
        returns. */
    method Dispatch(cancelAfter: Option<nat>, ghost order: seq<Name>)
      requires Valid() && Propagated(plan, s, {}) && Settled(plan, s, {}) && workers >= 1 && !s.cancelled
      requires Linear(plan.jobs, plan.waits, order) && s.log == []
      modifies this
      ensures Valid() && Propagated(plan, s, {}) && Settled(plan, s, {}) && Decided(plan, s)
      ensures s.cancelled ==> cancelAfter == Some(ReturnCount(s.log)) && LaunchedBefore(s.log, ReturnCount(s.log))
      ensures !s.cancelled ==> s.inflight == 0 && (cancelAfter.Some? ==> ReturnCount(s.log) < cancelAfter.value)
    {
      hide Planned, Consistent, Propagated, Settled, Decided, Linear, Blocked, KeptBusy, LaunchedBefore, ReturnCount, OnlyCalls, Progress;
      var count: nat := 0;
      NothingYet();
      while true
        invariant Valid() && Propagated(plan, s, {}) && Settled(plan, s, {}) && !s.cancelled
        invariant count == ReturnCount(s.log) && LaunchedBefore(s.log, count) && (cancelAfter.Some? ==> count <= cancelAfter.value)
        decreases Progress(plan, s)
      {
        if cancelAfter == Some(count) {
          Cancel();
          return;
        }
        ghost var u := s;
        LaunchRound();
        CallsKeep(u.log, s.log);
        InflightFacts(plan, workers, s);
        if s.inflight == 0 {
          PlanIsProper();
          NoOneStuck(plan, workers, s, order);
          return;
        }
        Receive();
        count := count + 1;
      }
    }

    method Cancel()
      requires Valid() && Propagated(plan, s, {}) && Settled(plan, s, {})
      modifies this
      ensures Valid() && Propagated(plan, s, {}) && Settled(plan, s, {}) && Decided(plan, s) && s.cancelled
      ensures s.launched == old(s).launched && s.running == old(s).running && ReturnCount(s.log) == ReturnCount(old(s).log)
      ensures forall k: nat :: LaunchedBefore(old(s).log, k) ==> LaunchedBefore(s.log, k)
    {
      hide Planned, Consistent, Propagated, Settled, Decided, LaunchedBefore, ReturnCount;
      CancelKeeps(plan, workers, s);
      s := s.(cancelled := true);
      RejectWaiting();
    }

    /** The main loop, the drain and the final sweep of `ExecuteWithLimit`. */
    method Run(cancelAfter: Option<nat>, ghost order: seq<Name>)
      requires Valid() && Propagated(plan, s, {}) && Settled(plan, s, {}) && workers >= 1 && !s.cancelled
      requires Linear(plan.jobs, plan.waits, order) && s.log == []
      modifies this
      ensures Valid() && Propagated(plan, s, {}) && Settled(plan, s, {})
      ensures s.running == {} && Decided(plan, s) && Heeds(s.log, cancelAfter, s.cancelled)
    {
      hide Planned, Consistent, Propagated, Settled, Decided, Linear, LaunchedBefore, ReturnCount;
      Dispatch(cancelAfter, order);
      Drain();
      FinalSweep();
    }

    /** Calls under way are waited for, whether or not the run was cancelled. */
    method Drain()
      requires Valid() && Propagated(plan, s, {}) && Settled(plan, s, {}) && Decided(plan, s)
      modifies this
      ensures Valid() && Propagated(plan, s, {}) && Settled(plan, s, {}) && Decided(plan, s)
      ensures s.running == {} && s.cancelled == old(s).cancelled && ReturnCount(s.log) >= ReturnCount(old(s).log)
      ensures forall k: nat :: LaunchedBefore(old(s).log, k) ==> LaunchedBefore(s.log, k)
      ensures old(s).inflight == 0 ==> s == old(s)
    {
      hide Planned, Consistent, Propagated, Settled, Decided, KeptBusy, LaunchedBefore, ReturnCount, Quiet, Finished;
      InflightFacts(plan, workers, s);
      while s.inflight > 0
        invariant Valid() && Propagated(plan, s, {}) && Settled(plan, s, {}) && Decided(plan, s)
        invariant s.cancelled == old(s).cancelled && ReturnCount(s.log) >= ReturnCount(old(s).log)
        invariant forall k: nat :: LaunchedBefore(old(s).log, k) ==> LaunchedBefore(s.log, k)
        invariant old(s).inflight == 0 ==> s == old(s)
        decreases |s.running|
      {
        InflightFacts(plan, workers, s);
        DecidedKeepsBusy(plan, workers, s);
        Receive();
      }
      InflightFacts(plan, workers, s);
    }

    /** The sweep for jobs that were never started finds none. */
    method FinalSweep()
      requires Valid() && Decided(plan, s)
    {
      hide Planned, Consistent, Decided, JobOk;
      for i := 0 to |names| {
        ListedIsJob(i);
        JobFacts(plan, workers, s, names[i]);
        if s.states[names[i]] == Inactive {
          if names[i] in s.launched { continue; }
          DecidedFacts(plan, workers, s, names[i]);
          assert false;
        }
      }
    }

    lemma {:induction false} PlanIsProper()
      requires Planned()
      ensures Proper(plan)
    {}
  }
}

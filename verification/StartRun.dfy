/** Runs of a start transaction, as values.

Adapter calls run concurrently: the environment picks any running call to return next,
with any outcome, and may cancel the context before any round. `log` records the calls a
run makes. `Consistent` is the invariant every step keeps, and `RunComplete` is what a
finished run satisfies. */
module StartRuns {
  import opened Options
  import opened Names
  import opened Cycles
  import opened States
  import opened Schedules

  /** Why a job failed. `Dependency` carries the recorded error of the requirement. */
  datatype StartError =
    | AdapterError(job: Name)
    | Dependency(job: Name, required: Name, cause: StartError)
    | ContextDone
    | NotStarted(job: Name)

  datatype Outcome = Completed | Skipped | Broke

  datatype Event =
    | Launched(name: Name)
    | Returned(name: Name, outcome: Outcome)
    | Recorded(name: Name, error: StartError)
    | Rejected(name: Name, error: StartError)

  /** The job an event adds to one of the four histories. */
  function Launches(log: seq<Event>): set<Name> {
    if log == [] then {} else
    Launches(log[..|log| - 1]) + (if log[|log| - 1].Launched? then {log[|log| - 1].name} else {})
  }

  function Returns(log: seq<Event>): set<Name> {
    if log == [] then {} else
    Returns(log[..|log| - 1]) + (if log[|log| - 1].Returned? then {log[|log| - 1].name} else {})
  }

  function Records(log: seq<Event>): set<Name> {
    if log == [] then {} else
    Records(log[..|log| - 1]) + (if log[|log| - 1].Recorded? then {log[|log| - 1].name} else {})
  }

  function Rejects(log: seq<Event>): set<Name> {
    if log == [] then {} else
    Rejects(log[..|log| - 1]) + (if log[|log| - 1].Rejected? then {log[|log| - 1].name} else {})
  }

  /** Adapter calls made and not yet returned. */
  function InFlight(log: seq<Event>): int {
    if log == [] then 0 else
    var last := log[|log| - 1];
    InFlight(log[..|log| - 1]) + (if last.Launched? then 1 else if last.Returned? then -1 else 0)
  }

  function ReturnCount(log: seq<Event>): nat {
    if log == [] then 0 else
    ReturnCount(log[..|log| - 1]) + if log[|log| - 1].Returned? then 1 else 0
  }

  /** Nothing was launched after `k` returns. */
  ghost predicate LaunchedBefore(log: seq<Event>, k: nat) {
    forall i :: 0 <= i < |log| && log[i].Launched? ==> ReturnCount(log[..i]) < k
  }

  /** A context that is cancelled when `after` calls have returned is noticed exactly by the runs
      that get that far, and from then on nothing more is launched. */
  ghost predicate Heeds(log: seq<Event>, after: Option<nat>, cancelled: bool) {
    && (cancelled <==> after.Some? && ReturnCount(log) >= after.value)
    && (cancelled ==> LaunchedBefore(log, after.value))
  }

  /** From `a` to `b` only failures were recorded. */
  ghost predicate Quiet(a: seq<Event>, b: seq<Event>) {
    a <= b && forall i :: |a| <= i < |b| ==> b[i].Recorded? || b[i].Rejected?
  }

  /** From `a` to `b` only adapter calls were made. */
  ghost predicate OnlyCalls(a: seq<Event>, b: seq<Event>) {
    a <= b && forall i :: |a| <= i < |b| ==> b[i].Launched?
  }

  lemma {:induction false} NothingYet()
    ensures ReturnCount([]) == 0 && LaunchedBefore([], 0)
  {}

  lemma {:induction false} QuietKeeps(a: seq<Event>, b: seq<Event>, k: nat)
    requires Quiet(a, b)
    ensures ReturnCount(b) == ReturnCount(a)
    ensures LaunchedBefore(a, k) ==> LaunchedBefore(b, k)
    decreases |b|
  {
    if |b| > |a| {
      var c := b[..|b| - 1];
      QuietKeeps(a, c, k);
      if LaunchedBefore(a, k) { LaunchedNext(c, b[|b| - 1], k); }
      assert b == c + [b[|b| - 1]];
    } else {
      assert b == a;
    }
  }

  lemma {:induction false} CallsKeep(a: seq<Event>, b: seq<Event>)
    requires OnlyCalls(a, b) && LaunchedBefore(a, ReturnCount(a))
    ensures ReturnCount(b) == ReturnCount(a) && LaunchedBefore(b, ReturnCount(b) + 1)
    decreases |b|
  {
    hide LaunchedBefore, ReturnCount;
    if |b| > |a| {
      var c, e := b[..|b| - 1], b[|b| - 1];
      assert OnlyCalls(a, c) && e.Launched? && b == c + [e];
      hide OnlyCalls;
      CallsKeep(a, c);
      LaunchedNext(c, e, ReturnCount(c) + 1);
    } else {
      assert b == a;
      LaunchedLater(a, ReturnCount(a));
    }
  }

  lemma {:induction false} LaunchedLater(log: seq<Event>, k: nat)
    requires LaunchedBefore(log, k)
    ensures LaunchedBefore(log, k + 1)
  {}

  lemma {:induction false} LaunchedNext(log: seq<Event>, e: Event, k: nat)
    requires LaunchedBefore(log, k) && (e.Launched? ==> ReturnCount(log) < k)
    ensures LaunchedBefore(log + [e], k)
    ensures ReturnCount(log + [e]) == ReturnCount(log) + if e.Returned? then 1 else 0
  {
    var next := log + [e];
    assert next[..|log|] == log;
    forall i | 0 <= i < |next| && next[i].Launched? ensures ReturnCount(next[..i]) < k {
      if i < |log| { assert next[..i] == log[..i]; }
    }
  }

  lemma {:induction false} Waited(a: seq<Event>, e: Event, b: seq<Event>)
    requires e.Returned? && Quiet(a + [e], b)
    ensures ReturnCount(b) == ReturnCount(a) + 1
    ensures forall k: nat :: LaunchedBefore(a, k) ==> LaunchedBefore(b, k)
  {
    hide Quiet, ReturnCount, LaunchedBefore;
    forall k: nat ensures ReturnCount(b) == ReturnCount(a) + 1 && (LaunchedBefore(a, k) ==> LaunchedBefore(b, k)) {
      if LaunchedBefore(a, k) { LaunchedNext(a, e, k); }
      QuietKeeps(a + [e], b, k);
      CountNext(a, e);
    }
    QuietKeeps(a + [e], b, 0);
    CountNext(a, e);
  }

  lemma {:induction false} CountNext(a: seq<Event>, e: Event)
    ensures ReturnCount(a + [e]) == ReturnCount(a) + if e.Returned? then 1 else 0
  {
    assert (a + [e])[..|a|] == a;
  }

  /** What may happen after a given prefix of a run. */
  ghost predicate Allowed(plan: Schedule, workers: nat, log: seq<Event>, e: Event) {
    match e
    case Launched(n) =>
      && n in plan.jobs
      && n !in Launches(log) && n !in Rejects(log)
      && (forall d :: d in Deps(plan, n) ==> d in Returns(log) || d in Rejects(log))
      && (forall r :: Needs(plan, n, r) ==> r !in Records(log))
      && InFlight(log) < workers
    case Returned(n, _) => n in Launches(log) && n !in Returns(log) && KeptBusy(plan, workers, log)
    case Recorded(n, _) => n in plan.jobs && n !in Records(log)
    case Rejected(n, err) =>
      && n in plan.jobs && n !in Launches(log) && n !in Rejects(log)
      && log != [] && log[|log| - 1] == Recorded(n, err)
  }

  /** While the executor waits for a call to return, all workers are taken or no further job can
      be started. */
  ghost predicate KeptBusy(plan: Schedule, workers: nat, log: seq<Event>) {
    || InFlight(log) >= workers
    || forall n :: n in plan.jobs && n !in Launches(log) && n !in Records(log) ==> Waits(plan, log, n)
  }

  /** Something the job waits for has neither returned nor been rejected. */
  ghost predicate Waits(plan: Schedule, log: seq<Event>, n: Name) {
    exists d :: d in Deps(plan, n) && d !in Returns(log) && d !in Rejects(log)
  }

  /** Every event was allowed by the run before it. */
  ghost predicate SafeRun(plan: Schedule, workers: nat, log: seq<Event>) {
    log == [] ||
    (SafeRun(plan, workers, log[..|log| - 1]) && Allowed(plan, workers, log[..|log| - 1], log[|log| - 1]))
  }

  lemma {:induction false} SafeAppend(plan: Schedule, workers: nat, log: seq<Event>, e: Event)
    requires SafeRun(plan, workers, log) && Allowed(plan, workers, log, e)
    ensures SafeRun(plan, workers, log + [e])
    ensures Launches(log + [e]) == Launches(log) + (if e.Launched? then {e.name} else {})
    ensures Returns(log + [e]) == Returns(log) + (if e.Returned? then {e.name} else {})
    ensures Records(log + [e]) == Records(log) + (if e.Recorded? then {e.name} else {})
    ensures Rejects(log + [e]) == Rejects(log) + (if e.Rejected? then {e.name} else {})
    ensures InFlight(log + [e]) == InFlight(log) + (if e.Launched? then 1 else if e.Returned? then -1 else 0)
  {
    assert (log + [e])[..|log|] == log;
  }

  /* ---- The executor state and its invariant ---- */

  /** Everything the executor knows, as one value. `running` are the adapter calls that
      have not returned. */
  datatype Snapshot = Snapshot(launched: set<Name>, released: set<Name>, remaining: map<Name, int>,
                               states: map<Name, State>, errors: map<Name, StartError>, started: seq<Name>,
                               inflight: int, running: set<Name>, cancelled: bool, log: seq<Event>)

  /** How the fields of one job fit together. */
  ghost predicate JobOk(v: Snapshot, n: Name)
    requires n in v.states
  {
    && (n in v.errors ==> v.states[n] == Failed || (v.states[n] == Inactive && n in v.launched - v.running))
    && (v.states[n] == Failed ==> n in v.errors)
    && (n !in v.launched ==> v.states[n] in {Inactive, Failed} && (n in v.released <==> n in v.errors))
    && (n in v.running ==> v.states[n] in {Activating, Failed} && n !in v.released)
    && (n in v.launched - v.running ==> n in v.released)
    && (v.states[n] == Active ==> Returned(n, Completed) in v.log)
    && (v.states[n] == Inactive && n in v.launched ==> Returned(n, Skipped) in v.log)
    && v.states[n] != Deactivating
  }

  ghost predicate Tracked(plan: Schedule, workers: nat, v: Snapshot) {
    && v.states.Keys == plan.jobs && v.errors.Keys <= plan.jobs
    && v.released <= plan.jobs && v.launched <= plan.jobs && v.running <= v.launched
    && v.inflight == |v.running| <= workers
    && Elements(v.started) == v.launched && NoDuplicates(v.started)
    && forall n :: n in plan.jobs ==> JobOk(v, n)
  }

  /** The run so far agrees with the job sets. */
  ghost predicate Matches(log: seq<Event>, launched: set<Name>, running: set<Name>, failed: set<Name>, inflight: int) {
    && InFlight(log) == inflight
    && Launches(log) == launched && Returns(log) == launched - running
    && Records(log) == failed && Rejects(log) == failed - launched
  }

  ghost predicate Logged(plan: Schedule, workers: nat, v: Snapshot) {
    SafeRun(plan, workers, v.log) && Matches(v.log, v.launched, v.running, v.errors.Keys, v.inflight)
  }

  /** An error names its reason: the job's own adapter, a requirement that had already
      recorded `cause`, or cancellation. */
  ghost predicate Explained(plan: Schedule, v: Snapshot, n: Name, err: StartError) {
    match err
    case AdapterError(m) => m == n && Returned(n, Broke) in v.log
    case Dependency(m, r, cause) => m == n && r != n && Needs(plan, n, r) && r in v.errors && v.errors[r] == cause
    case ContextDone => v.cancelled && n !in v.launched
    case NotStarted(_) => false
  }

  ghost predicate AllExplained(plan: Schedule, v: Snapshot) {
    forall n :: n in v.errors ==> Explained(plan, v, n, v.errors[n])
  }

  ghost predicate Consistent(plan: Schedule, workers: nat, v: Snapshot) {
    Exact(plan, v.released, v.remaining) && Tracked(plan, workers, v) && Logged(plan, workers, v) && AllExplained(plan, v)
  }

  ghost predicate Reached(v: Snapshot, n: Name) {
    n in v.errors || (n in v.states && v.states[n] == Active)
  }

  /** Errors have reached every requirer that was not yet active, except those of the jobs
      whose propagation is still under way. */
  ghost predicate Propagated(plan: Schedule, v: Snapshot, pending: set<Name>) {
    forall j, n :: j in v.errors && j !in pending && n != j && Needs(plan, n, j) ==> Reached(v, n)
  }

  /** No adapter call has returned without its job reaching a final state, except those in
      `open`. */
  ghost predicate Settled(plan: Schedule, v: Snapshot, open: set<Name>) {
    forall n :: n in plan.jobs && n in v.launched - v.running && n !in open && n in v.states ==> v.states[n] != Activating
  }

  ghost predicate Blocked(v: Snapshot, n: Name) {
    n in v.launched || n in v.errors || (n in v.remaining && v.remaining[n] > 0)
  }

  /** Every job was launched or has an error. */
  ghost predicate Decided(plan: Schedule, v: Snapshot) {
    forall n :: n in plan.jobs ==> n in v.launched || n in v.errors
  }

  /** Work left: unlaunched jobs count twice, running ones once. */
  ghost function Progress(plan: Schedule, v: Snapshot): nat {
    2 * |plan.jobs - v.launched| + |v.running|
  }

  function Fresh(plan: Schedule, remaining: map<Name, int>): Snapshot {
    Snapshot({}, {}, remaining, map n | n in plan.jobs :: Inactive, map[], [], 0, {}, false, [])
  }

  lemma {:induction false} FreshConsistent(plan: Schedule, workers: nat, remaining: map<Name, int>)
    requires Exact(plan, {}, remaining)
    ensures var v := Fresh(plan, remaining);
      Consistent(plan, workers, v) && Propagated(plan, v, {}) && Settled(plan, v, {}) && !v.cancelled
  {
    hide Exact;
  }

  /** The state after the adapter call for `name` is started. */
  function LaunchJob(v: Snapshot, name: Name): Snapshot {
    v.(launched := v.launched + {name}, states := v.states[name := Activating], started := v.started + [name],
       inflight := v.inflight + 1, running := v.running + {name}, log := v.log + [Launched(name)])
  }

  /* ---- Facts read off the invariant ---- */

  lemma {:induction false} JobFacts(plan: Schedule, workers: nat, v: Snapshot, n: Name)
    requires Consistent(plan, workers, v) && n in plan.jobs
    ensures v.states.Keys == plan.jobs && v.errors.Keys <= plan.jobs && JobOk(v, n)
    ensures v.states[n] == Failed ==> n in v.errors
    ensures v.states[n] !in {Inactive, Activating} ==> Reached(v, n)
    ensures v.states[n] !in {Inactive, Activating, Failed} ==> v.states[n] == Active
    ensures n in v.remaining && (n !in v.launched ==> v.states[n] in {Inactive, Failed})
  {}

  lemma {:induction false} RunningFacts(plan: Schedule, workers: nat, v: Snapshot, name: Name)
    requires Consistent(plan, workers, v) && name in v.running
    ensures name in plan.jobs && name in v.launched && v.states.Keys == plan.jobs && JobOk(v, name)
    ensures |v.running - {name}| == |v.running| - 1
  {}

  lemma {:induction false} InflightFacts(plan: Schedule, workers: nat, v: Snapshot)
    requires Consistent(plan, workers, v)
    ensures v.inflight == |v.running| && v.inflight >= 0
    ensures v.inflight == 0 <==> v.running == {}
  {}

  lemma {:induction false} ReturnedIsJob(plan: Schedule, workers: nat, v: Snapshot, name: Name)
    requires Consistent(plan, workers, v) && name in v.launched
    ensures name in plan.jobs
  {}

  lemma {:induction false} ExplainedStays(plan: Schedule, v: Snapshot, w: Snapshot, n: Name, err: StartError)
    requires Explained(plan, v, n, err) && v.log <= w.log && w.cancelled == v.cancelled && w.launched == v.launched
    requires forall m :: m in v.errors ==> m in w.errors && w.errors[m] == v.errors[m]
    ensures Explained(plan, w, n, err)
  {}

  lemma {:induction false} AllExplainedStays(plan: Schedule, v: Snapshot, w: Snapshot)
    requires AllExplained(plan, v) && v.log <= w.log && w.errors == v.errors && (v.cancelled ==> w.cancelled)
    requires forall n :: n in v.errors && n in w.launched ==> n in v.launched
    ensures AllExplained(plan, w)
  {
    forall n | n in w.errors ensures Explained(plan, w, n, w.errors[n]) {
      assert Explained(plan, v, n, v.errors[n]);
    }
  }

  lemma {:induction false} DependencyExplains(plan: Schedule, v: Snapshot, name: Name, required: Name)
    requires name != required && Needs(plan, name, required) && required in v.errors
    ensures Explained(plan, v, name, Dependency(name, required, v.errors[required]))
  {}

  lemma {:induction false} AdapterExplains(plan: Schedule, v: Snapshot, name: Name)
    requires Returned(name, Broke) in v.log
    ensures Explained(plan, v, name, AdapterError(name))
  {}

  /** The reason both `requiresFailed` checks are dead. */
  lemma {:induction false} NoFailedRequirement(plan: Schedule, workers: nat, v: Snapshot, name: Name)
    requires Consistent(plan, workers, v) && Propagated(plan, v, {}) && name in plan.jobs
    requires (v.states[name] == Inactive && name !in v.launched) || v.states[name] == Activating
    ensures name !in v.errors && forall r :: Needs(plan, name, r) ==> r !in v.errors
  {
    assert JobOk(v, name);
    assert !Reached(v, name);
  }

  lemma {:induction false} ReleasedMeans(plan: Schedule, workers: nat, v: Snapshot, name: Name)
    requires Proper(plan) && Consistent(plan, workers, v) && name in plan.jobs && v.remaining[name] <= 0
    ensures forall d :: d in Deps(plan, name) ==> d in Returns(v.log) || d in Rejects(v.log)
  {
    forall d | d in Deps(plan, name) ensures d in Returns(v.log) || d in Rejects(v.log) {
      CountPositive(Deps(plan, name), v.released, d);
      assert JobOk(v, d);
    }
  }

  /* ---- Failing a job ---- */

  /** What failing jobs may change: errors only accumulate, states only become Failed. */
  ghost predicate Grown(v: Snapshot, w: Snapshot) {
    && w == v.(released := w.released, remaining := w.remaining, states := w.states, errors := w.errors, log := w.log)
    && v.released <= w.released && Quiet(v.log, w.log)
    && Extends(v.errors, w.errors) && OnlyFailed(v.states, w.states)
  }

  ghost predicate Extends(e: map<Name, StartError>, f: map<Name, StartError>) {
    forall n :: n in e ==> n in f && f[n] == e[n]
  }

  ghost predicate OnlyFailed(s: map<Name, State>, t: map<Name, State>) {
    t.Keys == s.Keys && forall n :: n in s ==> t[n] == s[n] || (t[n] == Failed && s[n] != Active)
  }

  /** What the return of one adapter call does, by its outcome. */
  ghost predicate Finished(v: Snapshot, w: Snapshot, name: Name, outcome: Outcome) {
    && name in v.states && name in w.states && v.released + {name} <= w.released
    && match outcome
       case Skipped => w.states == v.states[name := Inactive] && w.errors == v.errors
       case Completed => w.states == v.states[name := if v.states[name] == Failed then Failed else Active] && w.errors == v.errors
       case Broke =>
         && w.states[name] == Failed && name in w.errors && (name in v.errors || w.errors[name] == AdapterError(name))
         && Extends(v.errors, w.errors) && OnlyFailed(v.states, w.states)
  }

  lemma {:induction false} BrokeFinishes(v: Snapshot, w: Snapshot, name: Name)
    requires Grown(v, w) && name in v.released && name in w.states && w.states[name] == Failed
    requires name in w.errors && (name in v.errors || w.errors[name] == AdapterError(name))
    ensures Finished(v, w, name, Broke)
  {}

  lemma {:induction false} GrownReflexive(v: Snapshot)
    ensures Grown(v, v)
  {}

  lemma {:induction false} GrownTransitive(a: Snapshot, b: Snapshot, c: Snapshot)
    requires Grown(a, b) && Grown(b, c)
    ensures Grown(a, c)
  {
    forall n | n in a.errors ensures n in c.errors && c.errors[n] == a.errors[n] {
      assert n in b.errors && b.errors[n] == a.errors[n];
    }
  }

  lemma {:induction false} GrownFacts(v: Snapshot, w: Snapshot)
    requires Grown(v, w)
    ensures v.errors.Keys <= w.errors.Keys
    ensures forall n :: Reached(v, n) ==> Reached(w, n)
    ensures forall n :: n in v.errors ==> n in w.errors && w.errors[n] == v.errors[n]
    ensures forall n :: n in v.states && v.states[n] == Failed ==> n in w.states && w.states[n] == Failed
  {}

  lemma {:induction false} GrownFrame(plan: Schedule, v: Snapshot, w: Snapshot)
    requires Grown(v, w)
    ensures w.launched == v.launched && w.running == v.running && w.cancelled == v.cancelled && Quiet(v.log, w.log)
    ensures Settled(plan, v, {}) ==> Settled(plan, w, {})
  {}

  lemma {:induction false} GrownSettles(plan: Schedule, workers: nat, v: Snapshot, w: Snapshot, name: Name)
    requires Settled(plan, v, {name}) && Grown(v, w) && Consistent(plan, workers, w)
    requires name in w.states && w.states[name] != Activating
    ensures Settled(plan, w, {})
  {}

  lemma {:induction false} SettledNow(plan: Schedule, v: Snapshot, name: Name)
    requires Settled(plan, v, {name}) && (name in v.states ==> v.states[name] != Activating)
    ensures Settled(plan, v, {})
  {}

  /** The events that record a failure: a job that was never launched is also rejected. */
  function FailureEvents(launched: bool, name: Name, err: StartError): seq<Event> {
    if launched then [Recorded(name, err)] else [Recorded(name, err), Rejected(name, err)]
  }

  lemma {:induction false} FailureLogged(plan: Schedule, workers: nat, log: seq<Event>, launched: set<Name>, running: set<Name>,
                      failed: set<Name>, inflight: int, name: Name, err: StartError)
    requires SafeRun(plan, workers, log) && Matches(log, launched, running, failed, inflight)
    requires name in plan.jobs && name !in failed
    ensures SafeRun(plan, workers, log + FailureEvents(name in launched, name, err))
    ensures Matches(log + FailureEvents(name in launched, name, err), launched, running, failed + {name}, inflight)
  {
    var one := log + [Recorded(name, err)];
    SafeAppend(plan, workers, log, Recorded(name, err));
    if name !in launched {
      assert log + FailureEvents(false, name, err) == one + [Rejected(name, err)];
      SafeAppend(plan, workers, one, Rejected(name, err));
    }
  }

  lemma {:induction false} FailureTracked(plan: Schedule, workers: nat, v: Snapshot, w: Snapshot, name: Name, err: StartError)
    requires Tracked(plan, workers, v) && name in plan.jobs && name !in v.errors && v.states[name] != Active
    requires Quiet(v.log, w.log)
    requires w == v.(errors := v.errors[name := err], states := v.states[name := Failed],
                     log := w.log, released := w.released, remaining := w.remaining)
    requires w.released == if name in v.launched then v.released else v.released + {name}
    ensures Tracked(plan, workers, w) && Grown(v, w)
  {
    forall n | n in plan.jobs ensures JobOk(w, n) {
      assert JobOk(v, n);
    }
  }

  lemma {:induction false} AllExplainedGrows(plan: Schedule, v: Snapshot, w: Snapshot, name: Name, err: StartError)
    requires AllExplained(plan, v) && Explained(plan, v, name, err)
    requires v.log <= w.log && w.cancelled == v.cancelled && w.launched == v.launched && name !in v.errors && w.errors == v.errors[name := err]
    ensures AllExplained(plan, w)
  {
    forall n | n in w.errors ensures Explained(plan, w, n, w.errors[n]) {
      ExplainedStays(plan, v, w, n, w.errors[n]);
    }
  }

  /** Recording the first error of a job keeps the executor consistent. */
  lemma {:induction false} FailureKeeps(plan: Schedule, workers: nat, v: Snapshot, w: Snapshot, name: Name, err: StartError)
    requires Consistent(plan, workers, v) && name in plan.jobs && name !in v.errors && v.states[name] != Active
    requires Explained(plan, v, name, err)
    requires w == v.(errors := v.errors[name := err], states := v.states[name := Failed],
                     log := v.log + FailureEvents(name in v.launched, name, err),
                     released := w.released, remaining := w.remaining)
    requires w.released == if name in v.launched then v.released else v.released + {name}
    requires Exact(plan, w.released, w.remaining)
    ensures Consistent(plan, workers, w) && Grown(v, w)
  {
    hide JobOk, Explained, AllExplained, Exact, Grown, SafeRun, Matches;
    assert w.errors.Keys == v.errors.Keys + {name};
    FailureLogged(plan, workers, v.log, v.launched, v.running, v.errors.Keys, v.inflight, name, err);
    FailureTracked(plan, workers, v, w, name, err);
    AllExplainedGrows(plan, v, w, name, err);
  }

  lemma {:induction false} RefailTracked(plan: Schedule, workers: nat, v: Snapshot, w: Snapshot, name: Name)
    requires Tracked(plan, workers, v) && name in v.errors && w == v.(states := v.states[name := Failed])
    ensures Tracked(plan, workers, w) && Grown(v, w)
  {
    hide Elements, NoDuplicates;
    assert JobOk(v, name);
    forall n | n in plan.jobs ensures JobOk(w, n) {
      assert JobOk(v, n);
    }
  }

  /** A job that already has an error is only marked Failed again. */
  lemma {:induction false} RefailKeeps(plan: Schedule, workers: nat, v: Snapshot, w: Snapshot, name: Name)
    requires Consistent(plan, workers, v) && name in v.errors
    requires w == v.(states := v.states[name := Failed])
    ensures Consistent(plan, workers, w) && Grown(v, w)
  {
    hide Tracked, Exact, SafeRun, Matches, AllExplained, Grown;
    RefailTracked(plan, workers, v, w, name);
    AllExplainedStays(plan, v, w);
  }

  lemma {:induction false} PropagatedGrows(plan: Schedule, v: Snapshot, w: Snapshot, pending: set<Name>, name: Name)
    requires Grown(v, w)
    requires Propagated(plan, v, pending)
    requires w.errors.Keys <= v.errors.Keys + {name}
    ensures Propagated(plan, w, pending + {name})
    ensures name in v.errors ==> Propagated(plan, w, pending)
  {
    forall j, n | j in w.errors && j in v.errors && j !in pending && n != j && Needs(plan, n, j)
      ensures Reached(w, n)
    {
      assert Reached(v, n);
    }
  }

  lemma {:induction false} PropagationDone(plan: Schedule, v: Snapshot, pending: set<Name>, name: Name)
    requires Propagated(plan, v, pending + {name})
    requires forall n :: n in plan.jobs && n != name && Needs(plan, n, name) ==> Reached(v, n)
    ensures Propagated(plan, v, pending)
  {}

  /* ---- Launching a job ---- */

  lemma {:induction false} LaunchKeeps(plan: Schedule, workers: nat, v: Snapshot, name: Name)
    requires Proper(plan) && Consistent(plan, workers, v) && name in plan.jobs && v.inflight < workers
    requires Propagated(plan, v, {}) && Settled(plan, v, {})
    requires name !in v.launched && v.states[name] != Failed && v.remaining[name] <= 0
    requires name !in v.errors && forall r :: Needs(plan, name, r) ==> r !in v.errors
    ensures var w := LaunchJob(v, name);
      Consistent(plan, workers, w) && Propagated(plan, w, {}) && Settled(plan, w, {})
  {
    hide Explained, JobOk, SafeRun, Exact, AllExplained, Propagated, Settled, Matches, Allowed;
    LaunchAllowed(plan, workers, v, name);
    LaunchLogged(plan, workers, v.log, v.launched, v.running, v.errors.Keys, v.inflight, name);
    LaunchTracked(plan, workers, v, name);
    AllExplainedStays(plan, v, LaunchJob(v, name));
    LaunchPropagated(plan, v, LaunchJob(v, name), name);
  }

  lemma {:induction false} LaunchAllowed(plan: Schedule, workers: nat, v: Snapshot, name: Name)
    requires Proper(plan) && Consistent(plan, workers, v) && name in plan.jobs && v.inflight < workers
    requires name !in v.launched && name !in v.errors && v.remaining[name] <= 0
    requires forall r :: Needs(plan, name, r) ==> r !in v.errors
    ensures Allowed(plan, workers, v.log, Launched(name))
  {
    hide JobOk, Explained, AllExplained, Exact, SafeRun, Proper;
    ReleasedMeans(plan, workers, v, name);
  }

  lemma {:induction false} LaunchLogged(plan: Schedule, workers: nat, log: seq<Event>, launched: set<Name>, running: set<Name>,
                     failed: set<Name>, inflight: int, name: Name)
    requires SafeRun(plan, workers, log) && Matches(log, launched, running, failed, inflight)
    requires Allowed(plan, workers, log, Launched(name)) && name !in running && name !in failed
    ensures SafeRun(plan, workers, log + [Launched(name)])
    ensures Matches(log + [Launched(name)], launched + {name}, running + {name}, failed, inflight + 1)
  {
    SafeAppend(plan, workers, log, Launched(name));
  }

  lemma {:induction false} LaunchTracked(plan: Schedule, workers: nat, v: Snapshot, name: Name)
    requires Tracked(plan, workers, v) && name in plan.jobs && v.inflight < workers
    requires name !in v.launched && v.states[name] != Failed
    ensures Tracked(plan, workers, LaunchJob(v, name))
  {
    hide NoDuplicates, Elements, JobOk;
    var w := LaunchJob(v, name);
    OneMore(v.started, name);
    LaunchMember(v, name, name);
    forall n | n in plan.jobs ensures JobOk(w, n) {
      LaunchMember(v, name, n);
    }
  }

  lemma {:induction false} LaunchMember(v: Snapshot, name: Name, n: Name)
    requires n in v.states && JobOk(v, n) && name !in v.launched && name in v.states && v.states[name] != Failed && v.running <= v.launched
    ensures JobOk(LaunchJob(v, name), n)
    ensures n == name ==> name !in v.running
  {}

  lemma {:induction false} LaunchPropagated(plan: Schedule, v: Snapshot, w: Snapshot, name: Name)
    requires Propagated(plan, v, {}) && Settled(plan, v, {})
    requires w.errors == v.errors && forall r :: Needs(plan, name, r) ==> r !in v.errors
    requires name in v.states && w.states == v.states[name := Activating]
    requires w.launched == v.launched + {name} && w.running == v.running + {name}
    ensures Propagated(plan, w, {}) && Settled(plan, w, {})
  {
    forall j, n | j in w.errors && n != j && Needs(plan, n, j) ensures Reached(w, n) {
      assert Reached(v, n);
    }
  }

  lemma {:induction false} LaunchFacts(plan: Schedule, workers: nat, v: Snapshot, name: Name)
    requires name in plan.jobs
    ensures name !in v.launched && Consistent(plan, workers, v) ==> Progress(plan, LaunchJob(v, name)) <= Progress(plan, v)
    ensures LaunchJob(v, name).cancelled == v.cancelled && LaunchJob(v, name).log == v.log + [Launched(name)]
    ensures Consistent(plan, workers, v) ==> LaunchJob(v, name).inflight > 0
  {
    var w := LaunchJob(v, name);
    if name !in v.launched {
      assert plan.jobs - v.launched == (plan.jobs - w.launched) + {name};
    }
  }

  /** Launching one job unblocks none. */
  lemma {:induction false} LaunchBlocks(v: Snapshot, name: Name)
    ensures forall n :: n == name || Blocked(v, n) ==> Blocked(LaunchJob(v, name), n)
  {}

  /** After a round of launches the workers are taken, or every job is launched, failed or waits
      for one that is neither. */
  lemma {:induction false} RoundKeepsBusy(plan: Schedule, workers: nat, v: Snapshot)
    requires Proper(plan) && Consistent(plan, workers, v)
    requires v.inflight < workers ==> forall n :: n in plan.jobs ==> Blocked(v, n)
    ensures KeptBusy(plan, workers, v.log)
  {
    hide SafeRun, AllExplained, JobOk;
    if v.inflight < workers {
      forall n | n in plan.jobs && n !in v.launched && n !in v.errors ensures Waits(plan, v.log, n) {
        assert Blocked(v, n);
        var d := CountWitness(Deps(plan, n), v.released);
        Unsettled(plan, workers, v, d);
      }
    }
  }

  lemma {:induction false} Unsettled(plan: Schedule, workers: nat, v: Snapshot, d: Name)
    requires Tracked(plan, workers, v) && Logged(plan, workers, v) && d in plan.jobs && d !in v.released
    ensures d !in Returns(v.log) && d !in Rejects(v.log)
  {
    hide SafeRun;
    assert JobOk(v, d);
  }

  lemma {:induction false} DecidedKeepsBusy(plan: Schedule, workers: nat, v: Snapshot)
    requires Consistent(plan, workers, v) && Decided(plan, v)
    ensures KeptBusy(plan, workers, v.log)
  {
    hide SafeRun, AllExplained, JobOk;
  }

  /* ---- Returning from an adapter call ---- */

  lemma {:induction false} ReturnKeeps(plan: Schedule, workers: nat, v: Snapshot, w: Snapshot, name: Name, outcome: Outcome)
    requires Consistent(plan, workers, v) && name in v.running && KeptBusy(plan, workers, v.log)
    requires Propagated(plan, v, {}) && Settled(plan, v, {})
    requires w == v.(running := v.running - {name}, released := v.released + {name}, remaining := w.remaining,
                     inflight := v.inflight - 1, log := v.log + [Returned(name, outcome)])
    requires Exact(plan, w.released, w.remaining)
    ensures Consistent(plan, workers, w) && Propagated(plan, w, {}) && Settled(plan, w, {name})
    ensures Returned(name, outcome) in w.log && w.states[name] in {Activating, Failed}
  {
    hide JobOk, Explained, AllExplained, Exact, SafeRun, Matches, KeptBusy;
    ReturnTracked(plan, workers, v, w, name, outcome);
    ReturnLogged(plan, workers, v.log, v.launched, v.running, v.errors.Keys, v.inflight, name, outcome);
    AllExplainedStays(plan, v, w);
    assert forall n :: Reached(v, n) ==> Reached(w, n);
  }

  lemma {:induction false} ReturnLogged(plan: Schedule, workers: nat, log: seq<Event>, launched: set<Name>, running: set<Name>,
                     failed: set<Name>, inflight: int, name: Name, outcome: Outcome)
    requires SafeRun(plan, workers, log) && Matches(log, launched, running, failed, inflight)
    requires name in running && running <= launched && KeptBusy(plan, workers, log)
    ensures SafeRun(plan, workers, log + [Returned(name, outcome)])
    ensures Matches(log + [Returned(name, outcome)], launched, running - {name}, failed, inflight - 1)
  {
    hide KeptBusy;
    SafeAppend(plan, workers, log, Returned(name, outcome));
  }

  lemma {:induction false} ReturnTracked(plan: Schedule, workers: nat, v: Snapshot, w: Snapshot, name: Name, outcome: Outcome)
    requires Tracked(plan, workers, v) && name in v.running
    requires w == v.(running := v.running - {name}, released := v.released + {name}, remaining := w.remaining,
                     inflight := v.inflight - 1, log := v.log + [Returned(name, outcome)])
    ensures Tracked(plan, workers, w)
    ensures w.states[name] in {Activating, Failed}
  {
    assert JobOk(v, name);
    assert forall e :: e in v.log ==> e in w.log;
    forall n | n in plan.jobs ensures JobOk(w, n) {
      assert JobOk(v, n);
    }
  }

  /** The state a returned call leads to: skipped, or completed while nothing failed it. */
  ghost predicate Concludes(v: Snapshot, name: Name, to: State) {
    && name in v.launched - v.running && name in v.states
    && ((to == Inactive && v.states[name] in {Activating, Failed} && Returned(name, Skipped) in v.log)
        || (to == Active && v.states[name] == Activating && Returned(name, Completed) in v.log))
  }

  lemma {:induction false} StateTracked(plan: Schedule, workers: nat, v: Snapshot, w: Snapshot, name: Name, to: State)
    requires Tracked(plan, workers, v) && Concludes(v, name, to) && w == v.(states := v.states[name := to])
    ensures Tracked(plan, workers, w)
  {
    hide Elements, NoDuplicates;
    assert JobOk(v, name);
    forall n | n in plan.jobs ensures JobOk(w, n) {
      assert JobOk(v, n);
    }
  }

  lemma {:induction false} StateKeeps(plan: Schedule, workers: nat, v: Snapshot, w: Snapshot, name: Name, to: State)
    requires Consistent(plan, workers, v) && Concludes(v, name, to) && w == v.(states := v.states[name := to])
    requires Propagated(plan, v, {}) && Settled(plan, v, {name})
    ensures Consistent(plan, workers, w) && Propagated(plan, w, {}) && Settled(plan, w, {})
  {
    hide Tracked, Exact, SafeRun, Matches, AllExplained, Propagated, Settled, Concludes;
    StateTracked(plan, workers, v, w, name, to);
    AllExplainedStays(plan, v, w);
    StateSettles(plan, v, w, name, to);
  }

  lemma {:induction false} StateSettles(plan: Schedule, v: Snapshot, w: Snapshot, name: Name, to: State)
    requires Concludes(v, name, to) && w == v.(states := v.states[name := to])
    requires Propagated(plan, v, {}) && Settled(plan, v, {name})
    ensures Propagated(plan, w, {}) && Settled(plan, w, {})
  {
    assert forall n :: Reached(v, n) ==> Reached(w, n);
  }

  lemma {:induction false} SkipKeeps(plan: Schedule, workers: nat, v: Snapshot, w: Snapshot, name: Name)
    requires Consistent(plan, workers, v) && name in v.launched - v.running && v.states[name] in {Activating, Failed}
    requires Returned(name, Skipped) in v.log
    requires Propagated(plan, v, {}) && Settled(plan, v, {name})
    requires w == v.(states := v.states[name := Inactive])
    ensures Consistent(plan, workers, w) && Propagated(plan, w, {}) && Settled(plan, w, {})
  {
    assert name in v.states;
    assert Concludes(v, name, Inactive);
    hide Consistent, Propagated, Settled, Concludes;
    StateKeeps(plan, workers, v, w, name, Inactive);
  }

  lemma {:induction false} ActivateKeeps(plan: Schedule, workers: nat, v: Snapshot, w: Snapshot, name: Name)
    requires Consistent(plan, workers, v) && name in v.launched - v.running && v.states[name] == Activating
    requires Returned(name, Completed) in v.log
    requires Propagated(plan, v, {}) && Settled(plan, v, {name})
    requires w == v.(states := v.states[name := Active])
    ensures Consistent(plan, workers, w) && Propagated(plan, w, {}) && Settled(plan, w, {})
  {
    assert name in v.states;
    assert Concludes(v, name, Active);
    hide Consistent, Propagated, Settled, Concludes;
    StateKeeps(plan, workers, v, w, name, Active);
  }

  lemma {:induction false} ReturnProgress(plan: Schedule, v: Snapshot, w: Snapshot, name: Name)
    requires name in v.running && w.running == v.running - {name} && w.launched == v.launched
    requires v.errors.Keys <= w.errors.Keys
    ensures Progress(plan, w) < Progress(plan, v) && |w.running| < |v.running|
    ensures Decided(plan, v) ==> Decided(plan, w)
  {
    assert v.running == w.running + {name};
  }

  lemma {:induction false} CancelKeeps(plan: Schedule, workers: nat, v: Snapshot)
    requires Consistent(plan, workers, v)
    ensures var w := v.(cancelled := true);
      && Consistent(plan, workers, w) && (Propagated(plan, v, {}) ==> Propagated(plan, w, {}))
      && (Settled(plan, v, {}) ==> Settled(plan, w, {}))
  {
    hide SafeRun, Matches, Exact;
    var w := v.(cancelled := true);
    assert Tracked(plan, workers, w) by {
      forall n | n in plan.jobs ensures JobOk(w, n) {
        assert JobOk(v, n);
      }
    }
    AllExplainedStays(plan, v, w);
    assert forall n :: Reached(v, n) ==> Reached(w, n);
  }

  /* ---- No run gets stuck ---- */

  /** The no-stuck-run argument: when nothing is running and nothing can be launched, every
      job has been launched or has failed. By induction along a linear extension, an
      undecided job would need an undecided predecessor. */
  lemma {:induction false} NoOneStuck(plan: Schedule, workers: nat, v: Snapshot, order: seq<Name>)
    requires Proper(plan) && Consistent(plan, workers, v) && v.running == {} && Linear(plan.jobs, plan.waits, order)
    requires forall n :: n in plan.jobs ==> Blocked(v, n)
    ensures Decided(plan, v)
  {
    hide Logged, AllExplained;
    forall n | n in plan.jobs ensures n in v.launched || n in v.errors {
      assert n in Elements(order);
      var i :| 0 <= i < |order| && order[i] == n;
      DecidedAt(plan, workers, v, order, i);
    }
  }

  lemma {:induction false} DecidedAt(plan: Schedule, workers: nat, v: Snapshot, order: seq<Name>, i: nat)
    requires Proper(plan) && Consistent(plan, workers, v) && v.running == {} && Linear(plan.jobs, plan.waits, order)
    requires forall n :: n in plan.jobs ==> Blocked(v, n)
    requires i < |order|
    ensures order[i] in v.launched || order[i] in v.errors
  {
    hide Logged, AllExplained;
    var n := order[i];
    assert n in Elements(order);
    if n !in v.launched && n !in v.errors {
      assert Blocked(v, n);
      var d := CountWitness(Deps(plan, n), v.released);
      assert Edge(plan.jobs, plan.waits, n, d);
      var j :| 0 <= j < i && order[j] == d;
      assert JobOk(v, d);
      DecidedAt(plan, workers, v, order, j);
      assert false;
    }
  }

  lemma {:induction false} DecidedFacts(plan: Schedule, workers: nat, v: Snapshot, n: Name)
    requires Consistent(plan, workers, v) && Decided(plan, v) && n in plan.jobs && n !in v.launched
    ensures v.states[n] == Failed
  {
    assert JobOk(v, n);
  }

  /* ---- What a finished run means ---- */

  datatype Run = Run(states: map<Name, State>, errors: map<Name, StartError>, started: seq<Name>)

  /** The final state of a job against the calls made for it. An error does not always mean
      Failed: a job that failed by propagation and then returned "skipped" is Inactive. */
  ghost predicate Verdict(run: Run, log: seq<Event>, n: Name) {
    && n in run.states && run.states[n] in {Active, Failed, Inactive}
    && (run.states[n] == Active ==> n !in run.errors && Returned(n, Completed) in log)
    && (run.states[n] == Failed ==> n in run.errors)
    && (run.states[n] == Inactive ==> Returned(n, Skipped) in log)
  }

  /** Errors lead from `n` along `p` to a root cause: each wraps the recorded error of the next. */
  ghost predicate Blames(errors: map<Name, StartError>, log: seq<Event>, cancelled: bool, n: Name, p: seq<Name>) {
    && |p| > 0 && p[0] == n && (forall i :: 0 <= i < |p| ==> p[i] in errors)
    && (forall i :: 0 <= i < |p| - 1 ==> errors[p[i]] == Dependency(p[i], p[i + 1], errors[p[i + 1]]))
    && RootCause(errors[p[|p| - 1]], log, cancelled, p[|p| - 1])
  }

  /** The job's own adapter failed, or the run was cancelled before the job was launched. */
  predicate RootCause(err: StartError, log: seq<Event>, cancelled: bool, n: Name) {
    (err == AdapterError(n) && Returned(n, Broke) in log) || (err == ContextDone && cancelled && n !in Launches(log))
  }

  /** A requirement chain from `n` down to a root cause. */
  ghost predicate CauseChain(plan: Schedule, errors: map<Name, StartError>, log: seq<Event>, cancelled: bool, n: Name, p: seq<Name>) {
    Blames(errors, log, cancelled, n, p) && forall i :: 0 <= i < |p| - 1 ==> Needs(plan, p[i], p[i + 1])
  }

  /** Every job was launched and returned, or rejected with an error; never both. */
  ghost predicate Accounted(jobs: set<Name>, run: Run, log: seq<Event>) {
    && Launches(log) == Returns(log) == Elements(run.started) && NoDuplicates(run.started)
    && Records(log) == run.errors.Keys && Rejects(log) <= run.errors.Keys
    && jobs == Launches(log) + Rejects(log) && Launches(log) !! Rejects(log)
  }

  /** Requirers of a failed job failed too, unless they were already active. */
  ghost predicate Spread(plan: Schedule, run: Run) {
    forall j, n :: j in run.errors && n != j && Needs(plan, n, j) ==>
      n in run.errors || (n in run.states && run.states[n] == Active)
  }

  ghost predicate Rooted(plan: Schedule, run: Run, log: seq<Event>, cancelled: bool) {
    forall n :: n in run.errors ==> exists p :: CauseChain(plan, run.errors, log, cancelled, n, p)
  }

  /** The promise of `ExecuteWithLimit` over the whole run. */
  ghost predicate RunComplete(plan: Schedule, workers: nat, run: Run, log: seq<Event>, cancelled: bool) {
    && SafeRun(plan, workers, log)
    && Accounted(plan.jobs, run, log)
    && run.states.Keys == plan.jobs && (forall n :: n in plan.jobs ==> Verdict(run, log, n))
    && Spread(plan, run) && Rooted(plan, run, log, cancelled)
  }

  lemma {:induction false} FinishedRun(plan: Schedule, workers: nat, v: Snapshot)
    requires Consistent(plan, workers, v) && Propagated(plan, v, {}) && Settled(plan, v, {})
    requires v.running == {} && Decided(plan, v)
    ensures RunComplete(plan, workers, Run(v.states, v.errors, v.started), v.log, v.cancelled)
  {
    hide SafeRun, Exact, AllExplained, Verdict, Accounted, Spread, Rooted, Matches, JobOk, Propagated, Settled, Decided;
    FinalVerdicts(plan, workers, v);
    FinalPartition(plan, workers, v);
    FinalSpread(plan, workers, v);
    assert Launches(v.log) == v.launched by { LogMatches(plan, workers, v); }
    FinalCauses(plan, v);
  }

  lemma {:induction false} LogMatches(plan: Schedule, workers: nat, v: Snapshot)
    requires Logged(plan, workers, v)
    ensures Launches(v.log) == v.launched
  {}

  lemma {:induction false} FinalVerdicts(plan: Schedule, workers: nat, v: Snapshot)
    requires Tracked(plan, workers, v) && Settled(plan, v, {}) && v.running == {} && Decided(plan, v)
    ensures forall n :: n in plan.jobs ==> Verdict(Run(v.states, v.errors, v.started), v.log, n)
  {
    forall n | n in plan.jobs ensures Verdict(Run(v.states, v.errors, v.started), v.log, n) {
      assert JobOk(v, n);
    }
  }

  lemma {:induction false} FinalPartition(plan: Schedule, workers: nat, v: Snapshot)
    requires Tracked(plan, workers, v) && Logged(plan, workers, v) && v.running == {} && Decided(plan, v)
    ensures Accounted(plan.jobs, Run(v.states, v.errors, v.started), v.log)
  {
    hide JobOk, SafeRun, Launches, Returns, Records, Rejects, InFlight, Elements, NoDuplicates, Exact;
    assert v.launched - v.running == v.launched;
    assert plan.jobs == v.launched + (v.errors.Keys - v.launched);
  }

  lemma {:induction false} FinalSpread(plan: Schedule, workers: nat, v: Snapshot)
    requires Tracked(plan, workers, v) && Propagated(plan, v, {})
    ensures Spread(plan, Run(v.states, v.errors, v.started))
  {
    forall j, n | j in v.errors && n != j && Needs(plan, n, j) ensures Reached(v, n) {}
  }

  lemma {:induction false} FinalCauses(plan: Schedule, v: Snapshot)
    requires AllExplained(plan, v) && Launches(v.log) == v.launched
    ensures Rooted(plan, Run(v.states, v.errors, v.started), v.log, v.cancelled)
  {
    hide CauseChain, AllExplained;
    forall n | n in v.errors ensures exists p :: CauseChain(plan, v.errors, v.log, v.cancelled, n, p) {
      var p := TraceCause(plan, v, n, v.errors[n]);
    }
  }

  /** Follow `Dependency` links; the error values are finite, so the walk ends at a root
      cause. */
  lemma {:induction false} TraceCause(plan: Schedule, v: Snapshot, n: Name, err: StartError) returns (p: seq<Name>)
    requires AllExplained(plan, v) && Launches(v.log) == v.launched && n in v.errors && v.errors[n] == err
    ensures CauseChain(plan, v.errors, v.log, v.cancelled, n, p)
    decreases err
  {
    assert Explained(plan, v, n, err);
    match err
    case AdapterError(_) | ContextDone =>
      p := [n];
    case Dependency(m, r, cause) =>
      var rest := TraceCause(plan, v, r, cause);
      p := [n] + rest;
      forall i | 0 <= i < |p| - 1
        ensures Needs(plan, p[i], p[i + 1]) && v.errors[p[i]] == Dependency(p[i], p[i + 1], v.errors[p[i + 1]])
      {
        if i > 0 {
          assert p[i] == rest[i - 1] && p[i + 1] == rest[i];
        }
      }
  }

  /* ---- Reading a safe run ---- */

  lemma {:induction false} AllowedAt(plan: Schedule, workers: nat, log: seq<Event>, i: nat)
    requires SafeRun(plan, workers, log) && i < |log|
    ensures Allowed(plan, workers, log[..i], log[i])
  {
    var init := log[..|log| - 1];
    if i < |log| - 1 {
      AllowedAt(plan, workers, init, i);
      assert init[..i] == log[..i];
    }
  }

  lemma {:induction false} HistoryMeans(log: seq<Event>, n: Name)
    ensures n in Launches(log) <==> exists j :: 0 <= j < |log| && log[j] == Launched(n)
    ensures n in Returns(log) || n in Rejects(log) ==> exists j :: 0 <= j < |log| && Settles(log[j], n)
    ensures n in Records(log) <==> exists j :: 0 <= j < |log| && log[j].Recorded? && log[j].name == n
  {
    if log != [] {
      var init, last := log[..|log| - 1], log[|log| - 1];
      HistoryMeans(init, n);
      forall j | 0 <= j < |init| ensures log[j] == init[j] {}
      assert (last.Returned? || last.Rejected?) && last.name == n ==> Settles(log[|log| - 1], n);
    }
  }

  /** The adapter call for `n` returned, or `n` was rejected. */
  predicate Settles(e: Event, n: Name) {
    (e.Returned? || e.Rejected?) && e.name == n
  }

  /** A launch is the only one of its job, comes after every wait was settled, at a time when
      no hard requirement had an error and a worker was free. */
  lemma {:induction false} LaunchDiscipline(plan: Schedule, workers: nat, log: seq<Event>, i: nat)
    requires SafeRun(plan, workers, log) && i < |log| && log[i].Launched?
    ensures forall j :: 0 <= j < |log| && j != i ==> log[j] != log[i]
    ensures forall d :: d in Deps(plan, log[i].name) ==> exists j :: 0 <= j < i && Settles(log[j], d)
    ensures forall r, j :: Needs(plan, log[i].name, r) && 0 <= j < i ==> !(log[j].Recorded? && log[j].name == r)
    ensures InFlight(log[..i]) < workers
  {
    hide SafeRun;
    var n := log[i].name;
    AllowedAt(plan, workers, log, i);
    HistoryMeans(log[..i], n);
    forall j | 0 <= j < |log| && j != i ensures log[j] != log[i] {
      if j < i {
        assert log[..i][j] == log[j];
      } else {
        AllowedAt(plan, workers, log, j);
        HistoryMeans(log[..j], n);
        assert log[..j][i] == log[i];
      }
    }
    forall d | d in Deps(plan, n) ensures exists j :: 0 <= j < i && Settles(log[j], d) {
      HistoryMeans(log[..i], d);
      var j :| 0 <= j < i && Settles(log[..i][j], d);
      assert log[..i][j] == log[j];
    }
    forall r, j | Needs(plan, n, r) && 0 <= j < i ensures !(log[j].Recorded? && log[j].name == r) {
      HistoryMeans(log[..i], r);
      assert log[..i][j] == log[j];
    }
  }
}

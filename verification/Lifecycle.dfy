/** The lifecycle of one unit: launches, stops, exits and recoveries as the manager decides them.

Every handler runs under the manager mutex and is one atomic step. `LaunchUnit`, `StopUnit`,
`Watch`, `ReapFailed` and `WatchdogTimeout` hold the unit gate and follow the workers that
call the handlers; between their handlers `Interfere` takes any number of steps that need no
gate. Results of native calls, timing and contexts are arbitrary. */
module Lifecycles {
  import opened Options
  import opened States
  import opened Ownerships

  /** The rest of the record and of the manager, as far as decisions depend on it. `workload` and
      `others` are the pending cleanup bits, `otherOps` the operations that retain the record
      besides the launch under way. */
  datatype View = View(
    pos: Position, closed: bool, held: bool, unavailable: bool, unit: Def, configRevision: nat,
    invocationRevision: nat, workload: bool, others: bool, terminated: bool, otherOps: nat)

  datatype Outcome = Fine | Skipped | Error

  datatype Job = Explicit(plan: nat) | Recovery(token: Token)

  predicate JobOf(o: Ownership, job: Job) {
    match job case Explicit(i) => i < |o.plans| case Recovery(t) => t in o.recoveries
  }

  /** The stop epoch a start was admitted in. */
  function AdmittedIn(o: Ownership, job: Job): nat
    requires JobOf(o, job)
  {
    match job case Explicit(i) => o.plans[i].stopEpoch case Recovery(t) => t.admitted
  }

  /** Where in the history it was admitted. */
  function AdmittedAt(o: Ownership, job: Job): nat
    requires JobOf(o, job)
  {
    match job case Explicit(i) => o.plans[i].at case Recovery(t) => t.at
  }

  /** Becoming active leaves a mark in the history. */
  ghost predicate Marks(a: Ownership, va: View, b: Ownership, vb: View) {
    && ActivationsIn(a.log) <= ActivationsIn(b.log)
    && (vb.pos.state == Active && va.pos.state != Active ==> ActivationsIn(a.log) < ActivationsIn(b.log))
  }

  /** An active unit was activated. */
  ghost predicate Shown(o: Ownership, v: View) {
    v.pos.state == Active ==> ActivationsIn(o.log) > 0
  }

  /** The position an event leads to; an event that is not allowed changes nothing. */
  function After(p: Position, ev: Event): Position {
    match Step(p, ev) case None => p case Some(q) => q
  }

  predicate Pending(v: View) {
    v.workload || v.others
  }

  /** The definition of the invocation, if there is one. */
  function OwnedBy(o: Ownership, v: View): Def {
    if o.invocation.Some? then o.invocation.value else v.unit
  }

  predicate IsOneshot(def: Def) {
    def.Process? && def.oneshot
  }

  /* ---- What bound stops, recoveries and completions come to ---- */

  /** Bound stops come back to a loaded unit of an open manager, if it is part of a cycle. */
  ghost predicate Comes(o: Ownership, v: View, cycle: bool) {
    !v.closed && cycle && o.loaded
  }

  /** From `a` to `b` the unit moved to a position and, unless `quiet`, bound stops were queued. */
  ghost predicate StopsPeers(a: Ownership, va: View, b: Ownership, vb: View, pos: Position, quiet: bool, cycle: bool) {
    if !quiet && Comes(a, va, cycle) then b == StopOf(a) && vb == va.(pos := pos, otherOps := va.otherOps + 1)
    else b == a && vb == va.(pos := pos)
  }

  /** The generation may not be recovered. */
  ghost predicate Unrecoverable(o: Ownership, v: View, gen: nat) {
    v.closed || v.unavailable || o.stopping || o.proc.Some? || Pending(v) || !o.loaded || o.gen != gen
  }

  /** Where a recovery leads: an interrupted oneshot counts as failed first. */
  ghost function Interrupted(o: Ownership, v: View): Position {
    if v.pos == Position(Activating, Start) && IsOneshot(OwnedBy(o, v)) then After(v.pos, StartFailed) else v.pos
  }

  /** What a request to recover does: nothing if it is refused or one is waiting, a failure if the
      start limit is hit, a stop if bound stops come back, and otherwise a recovery admitted in
      the present epoch. */
  ghost predicate Recovers(a: Ownership, va: View, b: Ownership, vb: View, gen: nat, waiting: bool, limitHit: bool, cycle: bool) {
    if Unrecoverable(a, va, gen) || (va.pos.sub == AutoRestart && waiting) then b == a && vb == va
    else if limitHit then StopsPeers(a, va, b, vb, After(va.pos, MainExited), false, cycle)
    else Begins(a, va, b, vb, cycle)
  }

  /** A recovery that nothing stands against. */
  ghost predicate Begins(a: Ownership, va: View, b: Ownership, vb: View, cycle: bool) {
    var from := Interrupted(a, va);
    var pos := After(from, RestartBegun);
    if Step(from, RestartBegun).Some? && Comes(a, va, cycle) then StopsPeers(a, va, b, vb, pos, false, cycle)
    else b == RecoverOf(a) && vb == va.(pos := pos)
  }

  /** An outcome that `applyStartOutcomeLocked` passes over: a recovery waits, a live unit
      survives a rejection or a skip, or a stop came. */
  ghost predicate PassedOver(o: Ownership, v: View, state: State, launched: bool) {
    || v.pos.sub == AutoRestart
    || (state == Failed && v.pos.state == Active && !launched)
    || (state == Active && o.stopping)
    || (state == Inactive && !o.stopping && (v.pos.state == Active || v.pos.state == Activating || o.proc.Some?))
  }

  /** The position a published outcome gives. */
  function Published(p: Position, state: State): Position {
    match state
    case Active => Position(Active, Running)
    case Failed => Position(Failed, if p == Position(Failed, Watchdog) then Watchdog else NoSub)
    case _ => Position(state, NoSub)
  }

  /** What an outcome does: nothing if it is passed over; success activates; anything else is
      published and stops bound peers unless the unit is stopping. */
  ghost predicate Outcomes(a: Ownership, va: View, b: Ownership, vb: View, state: State, launched: bool, at: nat, cycle: bool) {
    if PassedOver(a, va, state, launched) then b == a && vb == va
    else if state == Active then b == ActivateOf(a, at) && vb == va.(pos := Position(Active, Running))
    else StopsPeers(a, va, b, vb, Published(va.pos, state), a.stopping, cycle)
  }

  /** The state a completed start is published with. */
  ghost function StateOf(o: Ownership, v: View, result: Outcome): State {
    if result == Error then Failed
    else if result == Skipped || (IsOneshot(OwnedBy(o, v)) && !OwnedBy(o, v).remain) then Inactive
    else Active
  }

  /** A failed unit with a process and nothing pending is marked for cleanup. */
  ghost function Reaped(o: Ownership, v: View): View {
    if o.loaded && v.pos.state == Failed && o.proc.Some? && !Pending(v) then v.(workload := true) else v
  }

  ghost function CompletedAt(o: Ownership, i: nat): Ownership
    requires i < |o.plans|
  {
    o.(plans := o.plans[i := o.plans[i].(completed := true)])
  }

  /** Whether the completion of member `i` is still wanted. */
  ghost predicate Wanted(o: Ownership, v: View, i: nat, originValid: bool)
    requires i < |o.plans|
  {
    o.loaded && o.stopEpoch == o.plans[i].stopEpoch && !v.closed && (o.plans[i].launched || originValid)
  }

  /** What a completion does: the member is done, and its outcome counts if it is still wanted. */
  ghost predicate Completes(a: Ownership, va: View, b: Ownership, vb: View, i: nat, result: Outcome, originValid: bool, cycle: bool)
    requires i < |a.plans|
  {
    if !Wanted(a, va, i, originValid) then b == CompletedAt(a, i) && vb == va
    else exists w :: Outcomes(CompletedAt(a, i), va, b, w, StateOf(a, va, result), a.plans[i].launched, a.plans[i].at, cycle)
                     && vb == Reaped(b, w)
  }

  /** Completions that count: a failure fails the unit, a success activates it unless it was a
      oneshot that does not remain, and a skip leaves an idle unit inactive. */
  lemma {:induction false} CompletionsCount(a: Ownership, va: View, b: Ownership, vb: View, i: nat, result: Outcome, originValid: bool, cycle: bool)
    requires i < |a.plans| && Completes(a, va, b, vb, i, result, originValid, cycle) && va.pos.sub != AutoRestart
    requires a.loaded && a.stopEpoch == a.plans[i].stopEpoch && !va.closed && (a.plans[i].launched || originValid)
    ensures result == Error && (a.plans[i].launched || va.pos.state != Active) ==> vb.pos.state == Failed
    ensures var def := if a.invocation.Some? then a.invocation.value else va.unit;
      result == Fine && !a.stopping && !(def.Process? && def.oneshot && !def.remain) ==> vb.pos == Position(Active, Running)
    ensures result == Skipped && va.pos.state in {Inactive, Failed} && a.proc.None? ==> vb.pos == Position(Inactive, NoSub)
    ensures vb.pos.state == Failed && b.proc.Some? && !va.others ==> vb.workload
  {
    hide Outcomes, OwnedBy;
    var state := StateOf(a, va, result);
    var w :| Outcomes(CompletedAt(a, i), va, b, w, state, a.plans[i].launched, a.plans[i].at, cycle) && vb == Reaped(b, w);
    OutcomesCount(CompletedAt(a, i), va, b, w, state, a.plans[i].launched, a.plans[i].at, cycle);
    assert OwnedBy(a, va) == if a.invocation.Some? then a.invocation.value else va.unit by { Owned(a, va); }
  }

  lemma {:induction false} Owned(o: Ownership, v: View)
    ensures OwnedBy(o, v) == if o.invocation.Some? then o.invocation.value else v.unit
  {}

  lemma {:induction false} OutcomesCount(a: Ownership, va: View, b: Ownership, vb: View, state: State, launched: bool, at: nat, cycle: bool)
    requires Outcomes(a, va, b, vb, state, launched, at, cycle) && va.pos.sub != AutoRestart
    ensures state == Failed && (launched || va.pos.state != Active) ==> vb.pos.state == Failed
    ensures state == Active && !a.stopping ==> vb.pos == Position(Active, Running)
    ensures state == Inactive && va.pos.state in {Inactive, Failed} && a.proc.None? ==> vb.pos == Position(Inactive, NoSub)
    ensures b.loaded == a.loaded && vb.others == va.others
  {
    hide StopsPeers, ActivateOf;
    if StopsPeers(a, va, b, vb, Published(va.pos, state), a.stopping, cycle) {
      PeersKept(a, va, b, vb, Published(va.pos, state), a.stopping, cycle);
    }
    assert ActivateOf(a, at).loaded == a.loaded by { ActivatesLoaded(a, at); }
  }

  lemma {:induction false} PeersKept(a: Ownership, va: View, b: Ownership, vb: View, pos: Position, quiet: bool, cycle: bool)
    requires StopsPeers(a, va, b, vb, pos, quiet, cycle)
    ensures vb.pos == pos && vb.others == va.others && b.loaded == a.loaded
  {}

  lemma {:induction false} PeersAfter(a: Ownership, va: View, pos: Position, b: Ownership, vb: View, cycle: bool)
    requires StopsPeers(a, va.(pos := pos), b, vb, pos, false, cycle)
    ensures StopsPeers(a, va, b, vb, pos, false, cycle)
  {}

  lemma {:induction false} ActivatesLoaded(o: Ownership, at: nat)
    ensures ActivateOf(o, at).loaded == o.loaded
  {}

  /** A recovery that is admitted waits in the one state for it, also out of an interrupted oneshot. */
  lemma {:induction false} RecoveryWaits(a: Ownership, va: View, b: Ownership, vb: View, gen: nat, waiting: bool, cycle: bool)
    requires Recovers(a, va, b, vb, gen, waiting, false, cycle) && b != a && b != StopOf(a)
    ensures b == RecoverOf(a) && a.gen == gen && a.loaded && !a.stopping && a.proc.None? && !va.closed && !va.unavailable
    ensures va.pos.state in {Inactive, Active, Failed} ==> vb == va.(pos := Position(Activating, AutoRestart))
    ensures va.pos == Position(Activating, Start) ==>
      var def := if a.invocation.Some? then a.invocation.value else va.unit;
      vb == if def.Process? && def.oneshot then va.(pos := Position(Activating, AutoRestart)) else va
  {
    if va.pos == Position(Activating, Start) && IsOneshot(OwnedBy(a, va)) {
      assert Interrupted(a, va) == Position(Failed, NoSub);
    }
  }

  /* ---- When a launch is accepted ---- */

  /** The start is still wanted: for an explicit one its epoch and origin, for a recovery its
      generation. */
  ghost predicate StillValid(o: Ownership, v: View, job: Job, cancelled: bool, originValid: bool)
    requires JobOf(o, job)
  {
    && !v.closed && !v.held && o.loaded
    && match job
       case Explicit(i) => o.plans[i].stopEpoch == o.stopEpoch && originValid
       case Recovery(t) => !cancelled && o.gen == t.gen && !o.stopping
  }

  /** Another start of the same oneshot definition has run meanwhile. */
  ghost predicate SharedRun(o: Ownership, v: View, job: Job)
    requires JobOf(o, job)
  {
    && job.Explicit? && IsOneshot(o.plans[job.plan].def) && o.plans[job.plan].revision == v.invocationRevision
    && (o.plans[job.plan].joining || o.plans[job.plan].gen != o.gen) && !o.plans[job.plan].restart
  }

  /** A retained oneshot that has completed counts as started. */
  ghost predicate AlreadyDone(o: Ownership, v: View) {
    v.pos.state == Active && IsOneshot(OwnedBy(o, v)) && OwnedBy(o, v).remain
  }

  /** An explicit start may not abandon another native target. */
  ghost predicate ForeignTarget(o: Ownership, v: View, job: Job)
    requires JobOf(o, job)
  {
    && job.Explicit? && o.invocation.Some? && Target(OwnedBy(o, v)) != 0
    && Target(OwnedBy(o, v)) != Target(o.plans[job.plan].def)
  }

  ghost predicate Limited(o: Ownership, job: Job, limitHit: bool)
    requires JobOf(o, job)
  {
    limitHit && (job.Recovery? || o.plans[job.plan].counts)
  }

  /** Everything but the start limit lets the launch through. */
  ghost predicate Launchable(o: Ownership, v: View, job: Job, cancelled: bool, seen: Option<Proc>, alive: bool, originValid: bool, peersActive: bool)
    requires JobOf(o, job)
  {
    && StillValid(o, v, job, cancelled, originValid) && !Pending(v) && !v.unavailable && o.proc == seen && !alive
    && !SharedRun(o, v, job) && !AlreadyDone(o, v) && peersActive && !ForeignTarget(o, v, job)
  }

  /** What a refused start is told: a recovery that is no longer wanted and a start that is already
      done are fine, one without its bound peers is skipped, anything else is an error. */
  ghost function Refusal(o: Ownership, v: View, job: Job, cancelled: bool, seen: Option<Proc>, alive: bool,
                         originValid: bool, peersActive: bool): Outcome
    requires JobOf(o, job)
  {
    if !StillValid(o, v, job, cancelled, originValid) then (if job.Recovery? then Fine else Error)
    else if Pending(v) || o.proc != seen then Error
    else if SharedRun(o, v, job) then (if v.pos.state == Inactive || v.pos.state == Active then Fine else Error)
    else if alive || AlreadyDone(o, v) then Fine
    else if v.unavailable then Error
    else if !peersActive then Skipped
    else if job.Recovery? then Fine else Error
  }

  /** A start that counts against the limit is marked launched before the limit is looked at. */
  ghost function MarkedLaunched(o: Ownership, job: Job): Ownership
    requires JobOf(o, job)
  {
    match job
    case Explicit(i) => o.(plans := o.plans[i := o.plans[i].(launched := true)])
    case Recovery(_) => o
  }

  /** The launch that is taken: a new generation with what the start was planned with, or with
      what the invocation to recover has. */
  ghost function LaunchOf(o: Ownership, v: View, job: Job): Launch
    requires JobOf(o, job)
  {
    match job
    case Explicit(i) => Launch(o.gen + 1, o.plans[i].stopEpoch, o.plans[i].at, o.plans[i].def, o.plans[i].revision, o.proc, false)
    case Recovery(t) =>
      Launch(o.gen + 1, t.admitted, t.at, OwnedBy(o, v), if o.invocation.Some? then v.invocationRevision else v.configRevision, o.proc, true)
  }

  /** From `a` to `b` a launch of the job was taken; a process still held is pending cleanup. */
  ghost predicate Taken(a: Ownership, va: View, b: Ownership, vb: View, job: Job)
    requires JobOf(a, job)
  {
    && b == a.(gen := a.gen + 1, stopping := false, launch := Some(LaunchOf(a, va, job)),
               plans := match job case Recovery(_) => a.plans
                        case Explicit(i) => a.plans[i := a.plans[i].(launched := true, launchGen := a.gen + 1)])
    && vb == va.(workload := va.workload || a.proc.Some?)
    && a.stopEpoch == LaunchOf(a, va, job).admitted
  }

  /** How the exit of a oneshot ends: failed while its cleanup is unconfirmed or other cleanup is
      pending, unchanged after a cancellation or stop, failed if it did not complete, and
      otherwise done. */
  ghost predicate OneshotEnds(a: Ownership, va: View, b: Ownership, vb: View, cancelled: bool, cleaned: bool, completed: bool, cycle: bool)
    requires a.launch.Some?
  {
    var l := a.launch.value;
    var remains := l.def.Process? && l.def.remain;
    var stops := !a.stopping && !(remains && cleaned && completed) && Comes(a, va, cycle);
    if stops then Settles(StopOf(a), va.(otherOps := va.otherOps + 1), b, vb, l, cancelled, cleaned, completed)
    else Settles(a, va, b, vb, l, cancelled, cleaned, completed)
  }

  /** The same once bound peers are stopped. */
  ghost predicate Settles(a: Ownership, va: View, b: Ownership, vb: View, l: Launch, cancelled: bool, cleaned: bool, completed: bool) {
    var remains := l.def.Process? && l.def.remain;
    var ignored := cancelled || va.closed || a.stopping;
    if !cleaned then b == a && vb == va.(pos := After(va.pos, StartFailed), workload := true)
    else if va.others || (!ignored && !completed) then
      b == a.(proc := None) && vb == va.(pos := After(va.pos, StartFailed), workload := false)
    else if ignored then b == a.(proc := None) && vb == va.(workload := false)
    else
      && vb == va.(pos := Published(va.pos, if remains then Active else Inactive), workload := false)
      && b == if remains then ActivateOf(a.(proc := None), l.at) else a.(proc := None)
  }

  /** With its cleanup confirmed and nothing else pending, an unstopped oneshot is done or failed. */
  lemma {:induction false} OneshotDone(a: Ownership, va: View, b: Ownership, vb: View, completed: bool)
    requires a.launch.Some? && OneshotEnds(a, va, b, vb, false, true, completed, false)
    requires !va.closed && !va.others && !a.stopping
    ensures b.proc.None? && !vb.workload
    ensures var def := a.launch.value.def;
      if !completed then va.pos.state in {Activating, Active} ==> vb.pos.state == Failed
      else if def.Process? && def.remain then vb.pos == Position(Active, Running) && |b.log| > |a.log|
      else vb.pos == Position(Inactive, NoSub) && b.log == a.log
  {
    hide StopOf;
    if !completed { StepsByState(va.pos, StartFailed); }
  }

  /** A launch that went well: a process was created for it, and a oneshot is over while any other
      service holds it; a native or passive start creates none. */
  ghost predicate Started(a: Ownership, b: Ownership)
    requires a.launch.Some?
  {
    var def := a.launch.value.def;
    if !def.Process? then b.created == a.created
    else b.created == a.created + 1 && if def.oneshot then a.created in b.confirmed else b.proc == Some(a.created)
  }

  /** What steps outside the gate leave of the rest: a pending workload stays pending, and a closed
      manager closed. */
  ghost predicate ViewKept(a: View, b: View) {
    && b.terminated == a.terminated && b.invocationRevision == a.invocationRevision && b.held == a.held
    && (a.workload ==> b.workload) && (a.closed ==> b.closed)
  }

  /** How the native parts of a launch turn out: the start is skipped `early`; preparation, passive
      or native start is `ok`; the launcher succeeded, or returned a process with its error; an
      error is of the account or carries an exit status; the process is alive after creation, has
      exited, its job was killed, its run completed, it became ready; the operation was cancelled;
      and what the restart policy, a waiting recovery, the start limit and bound stops say. */
  datatype Natives = Natives(
    early: bool, ok: bool, launched: bool, returned: bool, account: bool, exitStatus: bool, alive: bool, exited: bool,
    killed: bool, completed: bool, ready: bool, cancelled: bool, policy: bool, waiting: bool, limitHit: bool, cycle: bool)

  /** A process start that succeeds ran as its kind requires. */
  ghost predicate RanWell(def: Def, n: Natives) {
    && n.launched
    && match def
       case Process(oneshot, _, readiness) =>
         if oneshot then n.exited && n.killed && n.completed && !n.cancelled else readiness ==> n.ready && !n.cancelled
       case _ => true
  }

  /** The outcome of a launch that has no process to replace. */
  ghost predicate LaunchResult(a: Ownership, va: View, b: Ownership, vb: View, result: Outcome, n: Natives)
    requires a.launch.Some?
  {
    var l := a.launch.value;
    if n.early then result == Skipped && b == a && vb == va
    else match l.def
      case Passive => result == (if n.ok then Fine else Error) && b == a && vb == va
      case Native(target) =>
        && result == (if target != 0 && n.ok then Fine else Error) && b.created == a.created
        && (!va.closed ==> b.invocation == Some(l.def))
        && (result == Fine && l.auto && !n.cancelled && !vb.closed && !b.stopping ==> vb.pos.state != Activating)
      case Process(_, _, _) =>
        && b.created == a.created + (if n.ok && (n.launched || n.returned) then 1 else 0)
        && (result == Fine ==> n.ok && RanWell(l.def, n)) && result != Skipped
        && (n.ok && !n.launched && n.returned ==> b.proc == Some(a.created) && vb.workload)
  }

  class Lifecycle {
    var o: Ownership
    var v: View

    constructor (def: Def)
      ensures Inv(o) && Shown(o, v) && o.loaded && o.launch.None? && o.log == []
      ensures o == Ownership(true, 0, 0, false, None, None, None, 0, {}, None, [], {}, [])
      ensures v == View(Position(Inactive, NoSub), false, false, false, def, 0, 0, false, false, false, 0)
    {
      o := Ownership(true, 0, 0, false, None, None, None, 0, {}, None, [], {}, []);
      v := View(Position(Inactive, NoSub), false, false, false, def, 0, 0, false, false, false, 0);
    }

    /* ---- State changes ---- */

    /** `step` for every event but a successful start. */
    method Apply(ev: Event) returns (ok: bool)
      requires ev != StartSucceeded
      modifies this`v
      ensures Marks(old(o), old(v), o, v)
      ensures ViewKept(old(v), v)
      ensures ok == Step(old(v.pos), ev).Some?
      ensures v == old(v).(pos := After(old(v.pos), ev))
      ensures v.pos.state == Active ==> old(v.pos.state) == Active
    {
      match Step(v.pos, ev)
      case None => ok := false;
      case Some(p) => ok := true; v := v.(pos := p);
    }

    /** `step` for a successful start, by a start admitted in the current epoch. */
    method Succeed(at: nat) returns (ok: bool)
      requires Inv(o) && Placed(o, at, o.stopEpoch)
      modifies this
      ensures Marks(old(o), old(v), o, v)
      ensures ViewKept(old(v), v)
      ensures Inv(o) && Rely(old(o), o) && o == if ok then ActivateOf(old(o), at) else old(o)
      ensures ok == (old(v.pos.state) == Activating)
      ensures v == if ok then old(v).(pos := Position(Active, Running)) else old(v)
    {
      hide Inv, Rely;
      RelyRefl(o);
      match Step(v.pos, StartSucceeded)
      case None => ok := false;
      case Some(p) =>
        ok := true;
        Activated(o, at);
        MarkCounts(o.log, Activation(at));
        v := v.(pos := p);
        o := ActivateOf(o, at);
    }

    /** `publishStartOutcome`. */
    method Publish(state: State, at: nat)
      requires Inv(o) && state in {Active, Inactive, Failed} && (state == Active ==> Placed(o, at, o.stopEpoch))
      modifies this
      ensures Marks(old(o), old(v), o, v)
      ensures ViewKept(old(v), v)
      ensures Inv(o) && Rely(old(o), o) && o == if state == Active then ActivateOf(old(o), at) else old(o)
      ensures v == old(v).(pos := Published(old(v.pos), state))
      ensures v.pos.state == state && (v.pos.sub == Watchdog <==> state == Failed && old(v.pos) == Position(Failed, Watchdog))
    {
      hide Inv, Rely;
      RelyRefl(o);
      match state
      case Active =>
        Activated(o, at);
        MarkCounts(o.log, Activation(at));
        v := v.(pos := Position(Active, Running));
        o := ActivateOf(o, at);
      case Inactive => v := v.(pos := Position(Inactive, NoSub));
      case Failed =>
        v := v.(pos := Position(Failed, if v.pos == Position(Failed, Watchdog) then Watchdog else NoSub));
    }

    /* ---- Steps that need no gate ---- */

    /** `disarmStartLocked`: a stop takes precedence over every start admitted before it. */
    method DisarmStart()
      requires Inv(o)
      modifies this`o
      ensures Marks(old(o), old(v), o, v)
      ensures Inv(o) && Rely(old(o), o)
      ensures o == if old(o.loaded) then StopOf(old(o)) else old(o)
    {
      hide Inv, Rely;
      RelyRefl(o);
      if o.loaded {
        Disarmed(o);
        MarkCounts(o.log, Stopped(o.stopEpoch + 1));
        o := StopOf(o);
      }
    }

    /** `queueBoundStopsLocked`, as far as it comes back to this unit. */
    method BoundStops(cycle: bool)
      requires Inv(o)
      modifies this
      ensures Marks(old(o), old(v), o, v)
      ensures ViewKept(old(v), v)
      ensures Inv(o) && Rely(old(o), o) && StopsPeers(old(o), old(v), o, v, old(v.pos), false, cycle)
      ensures if cycle && !old(v.closed) && old(o.loaded) then o == StopOf(old(o)) && v == old(v).(otherOps := old(v.otherOps) + 1)
              else o == old(o) && v == old(v)
    {
      hide Inv, Rely, StopOf, ActivationsIn;
      RelyRefl(o);
      if !v.closed && cycle && o.loaded {
        DisarmStart();
        v := v.(otherOps := v.otherOps + 1);
      }
    }

    /** A start operation captures this unit as a member. A restart first stops the members of
        its stop scope; it may start others too. */
    method AdmitStart(joining: bool, restart: bool, scoped: bool, counts: bool)
      requires Inv(o) && (scoped ==> restart)
      modifies this
      ensures Marks(old(o), old(v), o, v)
      ensures ViewKept(old(v), v)
      ensures Inv(o) && Rely(old(o), o)
      ensures !old(v.closed || v.held) && old(o.loaded) ==> |o.plans| == |old(o.plans)| + 1
      ensures |o.plans| > |old(o.plans)| ==> o.plans[|old(o.plans)|].stopEpoch == o.stopEpoch
      ensures |o.plans| > |old(o.plans)| ==> o.stopEpoch == old(o.stopEpoch) + if scoped then 1 else 0
      ensures |o.plans| == |old(o.plans)| ==> o == old(o)
      ensures var from := if scoped then StopOf(old(o)) else old(o);
        if !old(v.closed || v.held) && old(o.loaded)
        then v == old(v).(otherOps := old(v.otherOps) + 1)
             && o == AdmitOf(from, Plan(old(v.unit), old(v.configRevision), from.stopEpoch, from.gen + (if scoped then 1 else 0),
                                        joining && !restart, restart, counts && !restart, false, false, 0, |from.log|))
        else o == old(o) && v == old(v)
    {
      hide Inv, Rely, ActivationsIn;
      RelyRefl(o);
      if !v.closed && !v.held && o.loaded {
        ghost var before := o;
        if scoped { DisarmStart(); }
        var p := Plan(v.unit, v.configRevision, o.stopEpoch, o.gen + (if scoped then 1 else 0), joining && !restart,
                      restart, counts && !restart, false, false, 0, |o.log|);
        Admitted(o, p);
        MarkCounts(o.log, Admission(o.stopEpoch));
        RelyComposes(before, o, AdmitOf(o, p));
        o := AdmitOf(o, p);
        v := v.(otherOps := v.otherOps + 1);
      }
    }

    /** An operation other than a launch is accepted or finishes. */
    method Retain(more: bool)
      modifies this`v
      ensures Marks(old(o), old(v), o, v)
      ensures ViewKept(old(v), v)
      ensures v == old(v).(otherOps := if more then old(v.otherOps) + 1 else if old(v.otherOps) > 0 then old(v.otherOps) - 1 else 0)
    {
      if more { v := v.(otherOps := v.otherOps + 1); }
      else if v.otherOps > 0 { v := v.(otherOps := v.otherOps - 1); }
    }

    /** `cancelOperationLocked`, for the member `i` of the cancelled operation. */
    method CancelOperation(i: nat)
      requires Inv(o) && i < |o.plans|
      modifies this
      ensures Marks(old(o), old(v), o, v)
      ensures ViewKept(old(v), v)
      ensures Inv(o) && Rely(old(o), o)
      ensures var p := old(o.plans)[i];
        if p.completed || !p.launched || p.launchGen == 0 || !old(o.loaded) || old(o.gen) != p.launchGen || old(o.stopEpoch) != p.stopEpoch
        then o == old(o) && v == old(v)
        else o == StopOf(old(o)) && v == old(v).(workload := old(v.workload) || o.proc.Some? || o.invocation.Some?)
    {
      hide Inv, Rely;
      RelyRefl(o);
      var p := o.plans[i];
      if p.completed || !p.launched || p.launchGen == 0 || !o.loaded || o.gen != p.launchGen || o.stopEpoch != p.stopEpoch {
        return;
      }
      if o.proc.Some? || o.invocation.Some? { v := v.(workload := true); }
      DisarmStart();
    }

    /** `sealShutdownLocked`. */
    method SealShutdown()
      requires Inv(o)
      modifies this
      ensures Marks(old(o), old(v), o, v)
      ensures ViewKept(old(v), v)
      ensures Inv(o) && Rely(old(o), o) && v.closed
      ensures o == if old(o.loaded) then old(o).(stopping := true) else old(o)
      ensures v == old(v).(closed := true, workload := old(v.workload) ||
        (o.loaded && (o.proc.Some? || (old(v.pos.state) != Inactive && Target(OwnedBy(o, old(v))) != 0))))
    {
      hide Inv, Rely;
      RelyRefl(o);
      v := v.(closed := true);
      if o.loaded {
        if o.proc.Some? || (v.pos.state != Inactive && Target(OwnedBy(o, v)) != 0) { v := v.(workload := true); }
        Sealed(o);
        o := o.(stopping := true);
      }
    }

    /** `retainWithoutConfig`; `attached` stands for an open capture, notify or watch handle. */
    predicate Retained(attached: bool)
      reads this
    {
      attached || o.proc.Some? || v.otherOps != 0 || o.launch.Some? || Pending(v)
      || (Target(OwnedBy(o, v)) != 0 && v.pos.state != Inactive)
    }

    /** `replaceLocked` for this name: a new definition, a retained record without one, or removal. */
    method Reload(def: Option<Def>, attached: bool)
      requires Inv(o)
      modifies this
      ensures Marks(old(o), old(v), o, v)
      ensures ViewKept(old(v), v)
      ensures Inv(o) && Rely(old(o), o)
      ensures old(o.loaded) && old(o.proc.Some?) ==> o.loaded
      ensures o == old(o).(loaded := old(o.loaded) && (def.Some? || old(Retained(attached))))
      ensures o.loaded <==>
        && old(o.loaded)
        && (def.Some? || attached || o.proc.Some? || o.launch.Some? || old(v.otherOps) != 0 || old(v.workload) || old(v.others)
            || (old(v.pos.state) != Inactive && Target(if o.invocation.Some? then o.invocation.value else old(v.unit)) != 0))
      ensures v == if !o.loaded then old(v)
                   else if def.Some? then old(v).(unit := def.value, unavailable := false, configRevision := old(v.configRevision) + 1)
                   else old(v).(unavailable := true, configRevision := 0)
    {
      hide Inv, Rely;
      RelyRefl(o);
      if o.loaded {
        if def.Some? {
          v := v.(unit := def.value, unavailable := false, configRevision := v.configRevision + 1);
        } else if Retained(attached) {
          v := v.(unavailable := true, configRevision := 0);
        } else {
          Unloaded(o);
          o := o.(loaded := false);
        }
      }
    }

    /** `applyStopCompletion`, delivered after the gate was released. */
    method ApplyStopCompletion(gen: nat, process: Option<Proc>, failed: bool)
      requires Inv(o)
      modifies this`v
      ensures Marks(old(o), old(v), o, v)
      ensures ViewKept(old(v), v)
      ensures v == if o.loaded && o.gen == gen && (o.proc.None? || o.proc == process)
                   then old(v).(pos := After(old(v.pos), if failed then StartFailed else StopFinished)) else old(v)
    {
      if o.loaded && o.gen == gen && (o.proc.None? || o.proc == process) {
        var _ := Apply(if failed then StartFailed else StopFinished);
      }
    }

    /** `applyProcessExit`, delivered after the gate was released; `success` and `restart` are
        the exit kind and the restart policy's verdict on it. */
    method ApplyProcessExit(gen: nat, def: Def, success: bool, restart: bool, suppressed: bool,
                            cycle: bool, waiting: bool, limitHit: bool, again: bool)
      requires Inv(o)
      modifies this
      ensures Marks(old(o), old(v), o, v)
      ensures ViewKept(old(v), v)
      ensures Inv(o) && Rely(old(o), o)
      ensures var done := IsOneshot(def) && success; var quiet := done && def.remain;
        if suppressed || !old(o.loaded) || old(o.gen) != gen || old(o.stopping) then o == old(o) && v == old(v)
        else if !restart then
          var pos := if old(v.pos.sub) == Watchdog || done then old(v.pos) else After(old(v.pos), MainExited);
          StopsPeers(old(o), old(v), o, v, pos, quiet, cycle)
        else if !quiet && Comes(old(o), old(v), cycle) then StopsPeers(old(o), old(v), o, v, old(v.pos), false, cycle)
        else Recovers(old(o), old(v), o, v, gen, waiting, limitHit, again)
    {
      hide Inv, Rely, ActivationsIn, Step, After, Recovers, StopsPeers;
      RelyRefl(o);
      if suppressed || !o.loaded || o.gen != gen || o.stopping { return; }
      var quiet := IsOneshot(def) && success && def.remain;
      if restart {
        RecoverExit(gen, quiet, cycle, waiting, limitHit, again);
      } else {
        SettleExit(IsOneshot(def) && success, quiet, cycle);
      }
    }

    /** An exit that is to be recovered from. */
    method RecoverExit(gen: nat, quiet: bool, cycle: bool, waiting: bool, limitHit: bool, again: bool)
      requires Inv(o)
      modifies this
      ensures Marks(old(o), old(v), o, v)
      ensures ViewKept(old(v), v)
      ensures Inv(o) && Rely(old(o), o)
      ensures if !quiet && Comes(old(o), old(v), cycle) then StopsPeers(old(o), old(v), o, v, old(v.pos), false, cycle)
              else Recovers(old(o), old(v), o, v, gen, waiting, limitHit, again)
    {
      hide Inv, Rely, ActivationsIn, Recovers;
      RelyRefl(o);
      if !quiet { BoundStops(cycle); }
      ghost var middle, shown := o, v;
      AcceptRecovery(gen, waiting, limitHit, again);
      RelyComposes(old(o), middle, o);
      StoppedStays(middle, shown, o, v, gen, waiting, limitHit, again);
    }

    /** An exit that is final. */
    method SettleExit(done: bool, quiet: bool, cycle: bool)
      requires Inv(o)
      modifies this
      ensures Marks(old(o), old(v), o, v)
      ensures ViewKept(old(v), v)
      ensures Inv(o) && Rely(old(o), o)
      ensures StopsPeers(old(o), old(v), o, v, if old(v.pos.sub) == Watchdog || done then old(v.pos) else After(old(v.pos), MainExited), quiet, cycle)
    {
      hide Inv, Rely, ActivationsIn, Step;
      RelyRefl(o);
      if !quiet { BoundStops(cycle); }
      if v.pos.sub == Watchdog || done { return; }
      var _ := Apply(MainExited);
    }

    /** `failStartLimitLocked`. */
    method FailStartLimit(cycle: bool)
      requires Inv(o)
      modifies this
      ensures Marks(old(o), old(v), o, v)
      ensures ViewKept(old(v), v)
      ensures Inv(o) && Rely(old(o), o)
      ensures StopsPeers(old(o), old(v), o, v, After(old(v.pos), MainExited), old(o.stopping), cycle)
    {
      hide Inv, Rely, ActivationsIn, Step;
      RelyRefl(o);
      var _ := Apply(MainExited);
      if !o.stopping { BoundStops(cycle); }
    }

    /** `acceptRecovery`: the generation that asked is still current and nothing stopped it.
        `waiting` tells of a recovery wait of the same invocation. */
    method AcceptRecovery(gen: nat, waiting: bool, limitHit: bool, cycle: bool)
      requires Inv(o)
      modifies this
      ensures Marks(old(o), old(v), o, v)
      ensures ViewKept(old(v), v)
      ensures Inv(o) && Rely(old(o), o)
      ensures Recovers(old(o), old(v), o, v, gen, waiting, limitHit, cycle)
      ensures var refused := old(v.closed || v.unavailable || v.workload || v.others || o.stopping || o.proc.Some? || !o.loaded || o.gen != gen);
        if refused || (old(v.pos.sub) == AutoRestart && waiting) then o == old(o) && v == old(v)
        else !cycle ==> o == if limitHit then old(o) else RecoverOf(old(o))
      ensures o == old(o) || o == StopOf(old(o)) || (o == RecoverOf(old(o)) && !o.stopping)
    {
      hide Inv, Rely, ActivationsIn, Step;
      RelyRefl(o);
      if v.closed || !o.loaded || o.gen != gen || o.stopping || v.unavailable || Pending(v) || o.proc.Some? { return; }
      if v.pos.sub == AutoRestart && waiting { return; }
      if limitHit {
        FailStartLimit(cycle);
        return;
      }
      hide Begins;
      BeginRecovery(cycle);
    }

    /** To the recovery wait; an interrupted oneshot fails first. */
    method BeginRestart() returns (moved: bool)
      modifies this`v
      ensures Marks(o, old(v), o, v)
      ensures ViewKept(old(v), v)
      ensures moved == Step(Interrupted(o, old(v)), RestartBegun).Some?
      ensures v == old(v).(pos := After(Interrupted(o, old(v)), RestartBegun))
    {
      if v.pos == Position(Activating, Start) && IsOneshot(OwnedBy(o, v)) { var _ := Apply(StartFailed); }
      moved := Apply(RestartBegun);
    }

    /** The second half of `acceptRecovery`. */
    method BeginRecovery(cycle: bool)
      requires Inv(o) && !o.stopping
      modifies this
      ensures Marks(old(o), old(v), o, v)
      ensures ViewKept(old(v), v)
      ensures Inv(o) && Rely(old(o), o) && Begins(old(o), old(v), o, v, cycle)
      ensures o == StopOf(old(o)) || (o == RecoverOf(old(o)) && !o.stopping)
    {
      hide Inv, Rely, ActivationsIn, Step, After, Interrupted, StopsPeers;
      RelyRefl(o);
      var moved := BeginRestart();
      ghost var w := v;
      if moved {
        BoundStops(cycle);
        PeersAfter(old(o), old(v), w.pos, o, v, cycle);
        if o.stopping { return; }
      }
      AdmitRecovery();
    }

    /** A recovery of the current generation is on its way. */
    method AdmitRecovery()
      requires Inv(o) && !o.stopping
      modifies this`o
      ensures Marks(old(o), v, o, v)
      ensures Inv(o) && Rely(old(o), o) && o == RecoverOf(old(o))
    {
      hide Inv, Rely, ActivationsIn;
      Recovered(o);
      MarkCounts(o.log, Admission(o.stopEpoch));
      o := RecoverOf(o);
    }

    /** `applyStartCompletionLocked`: the outcome of member `i`, if no stop came since it was
        admitted. */
    method ApplyStartCompletion(i: nat, result: Outcome, originValid: bool, cycle: bool)
      requires Inv(o) && i < |o.plans|
      modifies this
      ensures Marks(old(o), old(v), o, v)
      ensures ViewKept(old(v), v)
      ensures Inv(o) && Rely(old(o), o) && i < |o.plans| && o.plans[i].completed
      ensures Completes(old(o), old(v), o, v, i, result, originValid, cycle)
      ensures var p := old(o.plans)[i];
        !old(o.loaded) || old(o.stopEpoch) != p.stopEpoch || old(v.closed) || (!p.launched && !originValid) ==> v == old(v)
      ensures v.pos.state == Active && old(v.pos.state) != Active ==>
        result == Fine && old(o.plans[i].stopEpoch) == old(o.stopEpoch) && !old(o.stopping)
    {
      hide Inv, Rely, ActivationsIn, Step;
      var p := o.plans[i];
      Completed(o, i);
      o := o.(plans := o.plans[i := p.(completed := true)]);
      if !o.loaded || o.stopEpoch != p.stopEpoch || v.closed || (!p.launched && !originValid) { return; }
      hide Outcomes, StateOf, Reaped;
      ghost var middle := o;
      ghost var w := TakeCompletion(i, result, cycle);
      RelyComposes(old(o), middle, o);
      assert o.plans[i].completed by { PlansKept(middle, o, i); }
      assert middle == CompletedAt(old(o), i);
    }

    /** The second half of `applyStartCompletionLocked`: the outcome, then the reaping. */
    method TakeCompletion(i: nat, result: Outcome, cycle: bool) returns (ghost w: View)
      requires Inv(o) && i < |o.plans| && o.plans[i].stopEpoch == o.stopEpoch
      modifies this
      ensures Marks(old(o), old(v), o, v)
      ensures ViewKept(old(v), v)
      ensures Inv(o) && Rely(old(o), o)
      ensures Outcomes(old(o), old(v), o, w, StateOf(old(o), old(v), result), old(o.plans)[i].launched, old(o.plans)[i].at, cycle)
      ensures v == Reaped(o, w)
      ensures v.pos.state == Active && old(v.pos.state) != Active ==> result == Fine && !old(o.stopping)
    {
      hide Inv, Rely, ActivationsIn;
      var p := o.plans[i];
      var owned := OwnedBy(o, v);
      var state := if result == Error then Failed
                   else if result == Skipped || (owned.Process? && owned.oneshot && !owned.remain) then Inactive
                   else Active;
      PlanPlaced(o, i);
      ApplyStartOutcome(state, p.launched, p.at, cycle);
      w := v;
      OutcomeActive(old(o), old(v), o, w, state, p.launched, p.at, cycle);
      hide Outcomes;
      MarkForReaping();
    }

    /** The outcomes `applyStartOutcomeLocked` does not take. */
    method PassesOver(state: State, launched: bool) returns (over: bool)
      ensures over == PassedOver(o, v, state, launched)
      ensures over <==> v.pos.sub == AutoRestart || match state
                        case Failed => v.pos.state == Active && !launched
                        case Active => o.stopping
                        case Inactive => !o.stopping && (v.pos.state in {Active, Activating} || o.proc.Some?)
                        case _ => false
    {
      if v.pos.sub == AutoRestart { return true; }
      if state == Failed && v.pos.state == Active && !launched { return true; }
      if state == Active && o.stopping { return true; }
      return state == Inactive && !o.stopping && (v.pos.state == Active || v.pos.state == Activating || o.proc.Some?);
    }

    /** `applyStartOutcomeLocked`. */
    method ApplyStartOutcome(state: State, launched: bool, at: nat, cycle: bool)
      requires Inv(o) && state in {Active, Inactive, Failed} && Placed(o, at, o.stopEpoch)
      modifies this
      ensures Marks(old(o), old(v), o, v)
      ensures ViewKept(old(v), v)
      ensures Inv(o) && Rely(old(o), o)
      ensures Outcomes(old(o), old(v), o, v, state, launched, at, cycle)
      ensures old(v.pos.sub) != AutoRestart && state == Failed && (launched || old(v.pos.state) != Active) ==> v.pos.state == Failed
      ensures old(v.pos.sub) != AutoRestart && state == Active && !old(o.stopping) ==> v.pos == Position(Active, Running)
    {
      hide Inv, Rely, ActivationsIn;
      RelyRefl(o);
      var over := PassesOver(state, launched);
      if over { return; }
      hide PassedOver, StopsPeers, Published;
      TakeOutcome(state, at, cycle);
    }

    /** An outcome that counts. */
    method TakeOutcome(state: State, at: nat, cycle: bool)
      requires Inv(o) && state in {Active, Inactive, Failed} && (state == Active ==> Placed(o, at, o.stopEpoch))
      modifies this
      ensures Marks(old(o), old(v), o, v)
      ensures Inv(o) && Rely(old(o), o) && ViewKept(old(v), v)
      ensures if state == Active then o == ActivateOf(old(o), at) && v == old(v).(pos := Position(Active, Running))
              else StopsPeers(old(o), old(v), o, v, Published(old(v.pos), state), old(o.stopping), cycle)
    {
      hide Inv, Rely, ActivationsIn;
      Publish(state, at);
      if state != Active && !o.stopping {
        ghost var middle := o;
        BoundStops(cycle);
        RelyComposes(old(o), middle, o);
      }
    }

    /** `applyStartRejection`: a member that never got to run. */
    method ApplyStartRejection(i: nat, result: Outcome, originValid: bool, cycle: bool)
      requires Inv(o) && i < |o.plans|
      modifies this
      ensures Marks(old(o), old(v), o, v)
      ensures ViewKept(old(v), v)
      ensures Inv(o) && Rely(old(o), o)
      ensures if old(o.plans[i].completed) || !old(o.loaded) || old(o.gen) != old(o.plans[i].gen) then o == old(o) && v == old(v)
              else i < |o.plans| && o.plans[i].completed && Completes(old(o), old(v), o, v, i, result, originValid, cycle)
    {
      hide Inv, Rely, ActivationsIn, Step, Completes;
      RelyRefl(o);
      if o.plans[i].completed || !o.loaded || o.gen != o.plans[i].gen { return; }
      ApplyStartCompletion(i, result, originValid, cycle);
    }

    /** `completeNativeProbe`: the native target is confirmed inactive. */
    method CompleteNativeProbe(gen: nat, epoch: nat, cycle: bool)
      requires Inv(o)
      modifies this
      ensures Marks(old(o), old(v), o, v)
      ensures ViewKept(old(v), v)
      ensures Inv(o) && Rely(old(o), o)
      ensures var left := old(v).(otherOps := if old(v.otherOps) > 0 then old(v.otherOps) - 1 else 0);
        var done := !old(v.closed) && old(o.loaded) && old(o.gen) == gen && old(o.stopEpoch) == epoch && !old(o.stopping)
                    && old(v.pos.state) == Active && left.otherOps == 0 && old(o.launch).None?;
        if done then StopsPeers(old(o), left, o, v, Position(Inactive, NoSub), false, cycle) else o == old(o) && v == left
    {
      hide Inv, Rely, ActivationsIn, Step;
      RelyRefl(o);
      if v.otherOps > 0 { v := v.(otherOps := v.otherOps - 1); }
      if v.closed || !o.loaded || o.gen != gen || o.stopEpoch != epoch || o.stopping || v.pos.state != Active
         || v.otherOps != 0 || o.launch.Some? {
        return;
      }
      v := v.(pos := Position(Inactive, NoSub));
      BoundStops(cycle);
    }

    /** `reapFailedLocked`, after a completion of any unit: a failed unit's process is marked for
        cleanup. */
    method MarkForReaping()
      modifies this`v
      ensures Marks(old(o), old(v), o, v)
      ensures ViewKept(old(v), v)
      ensures v == Reaped(o, old(v))
      ensures v.workload <==> old(v.workload) || (o.loaded && v.pos.state == Failed && o.proc.Some? && !old(v.others))
    {
      if o.loaded && v.pos.state == Failed && o.proc.Some? && !Pending(v) { v := v.(workload := true); }
    }

    /** `syncTimersLocked`, on a reload: a timer that cannot be armed again fails. */
    method FailTimer(cycle: bool)
      requires Inv(o)
      modifies this
      ensures Marks(old(o), old(v), o, v)
      ensures ViewKept(old(v), v)
      ensures Inv(o) && Rely(old(o), o)
      ensures if old(o.loaded && v.pos.state == Active)
              then StopsPeers(old(o), old(v), o, v, Position(Failed, NoSub), old(o.stopping), cycle)
              else o == old(o) && v == old(v)
    {
      hide Inv, Rely;
      RelyRefl(o);
      if !o.loaded || v.pos.state != Active { return; }
      Publish(Failed, 0);
      if !o.stopping { BoundStops(cycle); }
    }

    /** A notify, watch, helper or journal cleanup starts or ends. */
    method OtherCleanup(pending: bool)
      modifies this`v
      ensures Marks(old(o), old(v), o, v)
      ensures ViewKept(old(v), v)
      ensures v == old(v).(others := pending)
    {
      v := v.(others := pending);
    }

    /** Any one of the steps above. */
    method Outside()
      requires Inv(o)
      modifies this
      ensures Marks(old(o), old(v), o, v)
      ensures ViewKept(old(v), v)
      ensures Inv(o) && Rely(old(o), o)
    {
      hide Inv, Rely, ViewKept, StopsPeers, Recovers, Completes, AdmitOf, StopOf, After, OwnedBy, Reaped;
      RelyRefl(o);
      assert ViewKept(v, v) by { KeptSelf(v); }
      var choice: nat, a: nat, b: nat := *, *, *;
      var x: bool, y: bool, z: bool, w: bool := *, *, *, *;
      var cycle: bool, again: bool, limited: bool := *, *, *;
      var def: Def := *;
      var process: Option<Proc> := *;
      var result: Outcome := *;
      match choice
      case 0 => DisarmStart();
      case 1 => AdmitStart(x, y || w, w, z);
      case 2 => if a < |o.plans| { CancelOperation(a); }
      case 3 => SealShutdown();
      case 4 => Reload(if x then Some(def) else None, y);
      case 5 => ApplyStopCompletion(a, process, x);
      case 6 => ApplyProcessExit(a, def, x, y, z, cycle, w, limited, again);
      case 7 => AcceptRecovery(a, x, limited, cycle);
      case 8 => if a < |o.plans| { ApplyStartCompletion(a, result, x, cycle); }
      case 9 => if a < |o.plans| { ApplyStartRejection(a, result, x, cycle); }
      case 10 => CompleteNativeProbe(a, b, cycle);
      case 11 => OtherCleanup(x);
      case 12 => MarkForReaping();
      case 13 => FailTimer(cycle);
      case _ => Retain(x);
    }

    /** Any number of steps outside the gate. `base` is where the stretch of the run under
        consideration began. */
    method Interfere(ghost base: Ownership)
      requires Inv(o) && Advances(base, o)
      modifies this
      ensures Marks(old(o), old(v), o, v)
      ensures ViewKept(old(v), v)
      ensures Inv(o) && Advances(base, o) && Rely(old(o), o) && SameOwner(old(o), o)
    {
      hide Inv, Rely, Advances, Follows;
      RelyRefl(o);
      var n: nat := *;
      while n > 0
        invariant Inv(o) && Rely(old(o), o) && Advances(base, o)
        invariant ViewKept(old(v), v)
        invariant Marks(old(o), old(v), o, v)
        decreases n
      {
        ghost var before := o;
        Outside();
        RelyComposes(old(o), before, o);
        RelyAdvances(before, o);
        AdvancesComposes(base, before, o);
        n := n - 1;
      }
      RelySame(old(o), o);
    }

    /* ---- Launching, under the unit gate ---- */

    /** The checks of `acceptLaunch`, in order. */
    method Screen(job: Job, cancelled: bool, seen: Option<Proc>, alive: bool, originValid: bool, peersActive: bool)
      returns (refused: Option<Outcome>)
      requires JobOf(o, job)
      ensures refused.None? <==> Launchable(o, v, job, cancelled, seen, alive, originValid, peersActive)
      ensures refused.None? <==>
        && !v.closed && !v.held && o.loaded && !v.workload && !v.others && !v.unavailable && o.proc == seen && !alive && peersActive
        && var owned := if o.invocation.Some? then o.invocation.value else v.unit;
           && !(v.pos.state == Active && owned.Process? && owned.oneshot && owned.remain)
           && match job
              case Recovery(t) => !cancelled && o.gen == t.gen && !o.stopping
              case Explicit(i) =>
                var p := o.plans[i];
                && p.stopEpoch == o.stopEpoch && originValid
                && !(p.def.Process? && p.def.oneshot && p.revision == v.invocationRevision && (p.joining || p.gen != o.gen) && !p.restart)
                && !(o.invocation.Some? && Target(owned) != 0 && Target(owned) != Target(p.def))
      ensures refused.Some? ==> refused.value == Refusal(o, v, job, cancelled, seen, alive, originValid, peersActive)
      ensures refused.None? ==> (match job case Explicit(i) => o.plans[i].stopEpoch == o.stopEpoch case Recovery(t) => o.gen == t.gen && !o.stopping)
      ensures v.closed || v.held || !o.loaded ==> refused == Some(if job.Recovery? then Fine else Error)
      ensures job.Explicit? && (o.plans[job.plan].stopEpoch != o.stopEpoch || !originValid) ==> refused == Some(Error)
      ensures job.Recovery? && (cancelled || o.gen != job.token.gen || o.stopping) ==> refused == Some(Fine)
      ensures refused == Some(Fine) && job.Explicit? ==> !v.workload && !v.others && o.proc == seen && (alive || v.pos.state in {Active, Inactive})
      ensures refused == Some(Skipped) ==> !peersActive && !alive && !v.unavailable && o.proc == seen && !v.workload && !v.others
      ensures refused.Some? && !v.closed && !v.held && o.loaded && peersActive && !alive && v.pos.state !in {Active, Inactive} ==>
        refused == Some(Error) || job.Recovery?
      ensures refused.None? ==>
        o.loaded && Refusal(o, v, job, cancelled, seen, alive, originValid, peersActive) == if job.Recovery? then Fine else Error
    {
      var auto := job.Recovery?;
      if auto && (cancelled || !o.loaded || o.gen != job.token.gen) { return Some(Fine); }
      if v.closed || v.held || !o.loaded { return Some(if auto then Fine else Error); }
      if auto && o.stopping { return Some(Fine); }
      if !auto && (o.plans[job.plan].stopEpoch != o.stopEpoch || !originValid) { return Some(Error); }
      if Pending(v) { return Some(Error); }
      if o.proc != seen { return Some(Error); }
      var owned := OwnedBy(o, v);
      if !auto {
        var p := o.plans[job.plan];
        if p.def.Process? && p.def.oneshot && p.revision == v.invocationRevision && (p.joining || p.gen != o.gen) && !p.restart {
          return Some(if v.pos.state == Inactive || v.pos.state == Active then Fine else Error);
        }
      }
      if alive { return Some(Fine); }
      if v.pos.state == Active && owned.Process? && owned.oneshot && owned.remain { return Some(Fine); }
      if v.unavailable { return Some(Error); }
      var def := if auto then owned else o.plans[job.plan].def;
      if !peersActive { return Some(Skipped); }
      if !auto && o.invocation.Some? && Target(owned) != 0 && Target(owned) != Target(def) { return Some(Error); }
      return None;
    }

    /** `acceptLaunch`. For an explicit start `seen` and `alive` are what was observed of the
        current process; `originValid`, `peersActive` and `limitHit` stand for the start's
        origin, the bound peers and the start limit. */
    method AcceptLaunch(ghost base: Ownership, job: Job, cancelled: bool, seen: Option<Proc>, alive: bool,
                        originValid: bool, peersActive: bool, limitHit: bool, cycle: bool) returns (accepted: bool, result: Outcome)
      requires Inv(o) && Advances(base, o) && o.launch.None? && JobOf(o, job)
      modifies this
      ensures Marks(old(o), old(v), o, v)
      ensures Inv(o) && Advances(base, o) && o.proc == old(o.proc) && o.hand == None && |o.plans| >= |old(o.plans)|
      ensures o.created == old(o.created)
      ensures if accepted then o.launch.Some? && o.launch.value.previous == o.proc && o.gen == old(o.gen) + 1 else o.launch.None?
      ensures accepted <==> Launchable(old(o), old(v), job, cancelled, seen, alive, originValid, peersActive) && !Limited(old(o), job, limitHit)
      ensures result == if accepted then Fine else Refusal(old(o), old(v), job, cancelled, seen, alive, originValid, peersActive)
      ensures accepted ==> !limitHit || (job.Explicit? && !old(o.plans)[job.plan].counts)
      ensures accepted && job.Explicit? ==> |o.plans| == |old(o.plans)| && o.plans[job.plan].launched && o.plans[job.plan].launchGen == o.gen
      ensures accepted ==> Taken(old(o), old(v), o, v, job)
      ensures !accepted && !Launchable(old(o), old(v), job, cancelled, seen, alive, originValid, peersActive) ==> o == old(o) && v == old(v)
      ensures !accepted && Launchable(old(o), old(v), job, cancelled, seen, alive, originValid, peersActive) ==>
        StopsPeers(MarkedLaunched(old(o), job), old(v), o, v, After(old(v.pos), MainExited), old(o.stopping), cycle)
    {
      hide Inv, Rely, Advances, Follows, ActivationsIn, Step;
      NoHand(o);
      var refused := Screen(job, cancelled, seen, alive, originValid, peersActive);
      if refused.Some? { return false, refused.value; }
      hide Launchable, Refusal;
      var auto := job.Recovery?;
      var def := if auto then OwnedBy(o, v) else o.plans[job.plan].def;
      var revision := if auto then (if o.invocation.Some? then v.invocationRevision else v.configRevision)
                      else o.plans[job.plan].revision;
      TokenCurrent(o, job);
      if limitHit && (auto || o.plans[job.plan].counts) {
        HitLimit(base, job, cycle);
        return false, if auto then Fine else Error;
      }
      TakeLaunch(base, job, def, revision);
      return true, Fine;
    }

    /** The launch is refused by the start limit. */
    method HitLimit(ghost base: Ownership, job: Job, cycle: bool)
      requires Inv(o) && Advances(base, o) && o.launch.None? && JobOf(o, job) && AdmittedIn(o, job) == o.stopEpoch
      modifies this
      ensures Marks(old(o), old(v), o, v)
      ensures Inv(o) && Advances(base, o) && o.proc == old(o.proc) && o.hand == old(o.hand)
      ensures o.launch.None? && |o.plans| >= |old(o.plans)| && o.created == old(o.created)
      ensures StopsPeers(MarkedLaunched(old(o), job), old(v), o, v, After(old(v.pos), MainExited), old(o.stopping), cycle)
    {
      hide Inv, Rely, Advances, Follows, ActivationsIn, Step;
      if job.Explicit? { MarkLaunched(base, job.plan); }
      ghost var before := o;
      FailStartLimit(cycle);
      RelySame(before, o);
      RelyAdvances(before, o);
      AdvancesComposes(base, before, o);
    }

    /** The launch is accepted: a new generation, with the start marked as launched. */
    method TakeLaunch(ghost base: Ownership, job: Job, def: Def, revision: nat)
      requires Inv(o) && Advances(base, o) && o.loaded && o.launch.None? && JobOf(o, job)
      requires AdmittedIn(o, job) == o.stopEpoch && Placed(o, AdmittedAt(o, job), o.stopEpoch)
      requires def == LaunchOf(o, v, job).def && revision == LaunchOf(o, v, job).revision
      modifies this
      ensures Marks(old(o), old(v), o, v)
      ensures Inv(o) && Advances(base, o) && Taken(old(o), old(v), o, v, job)
      ensures o.gen == old(o.gen) + 1 && !o.stopping && (o.proc.Some? ==> v.workload)
      ensures o.launch.Some? && o.launch.value.gen == o.gen && o.launch.value.def == def && o.launch.value.admitted == o.stopEpoch
      ensures job.Explicit? ==>
        o.plans == old(o.plans)[job.plan := old(o.plans)[job.plan].(launched := true, launchGen := old(o.gen) + 1)]
    {
      hide Inv, Rely, Advances, Follows;
      var l := Launch(o.gen + 1, AdmittedIn(o, job), AdmittedAt(o, job), def, revision, o.proc, job.Recovery?);
      var plans := if job.Recovery? then o.plans
                   else o.plans[job.plan := o.plans[job.plan].(launched := true, launchGen := l.gen)];
      ghost var w := o.(gen := l.gen, stopping := false, plans := plans, launch := Some(l));
      Launched(o, l, plans, w);
      AdvancesComposes(base, o, w);
      o := o.(gen := l.gen, stopping := false, plans := plans, launch := Some(l));
      if o.proc.Some? { v := v.(workload := true); }
    }

    /** A counted trigger that hits the start limit is marked launched before it fails. */
    method MarkLaunched(ghost base: Ownership, i: nat)
      requires Inv(o) && Advances(base, o) && i < |o.plans| && o.plans[i].stopEpoch == o.stopEpoch
      modifies this`o
      ensures Marks(old(o), old(v), o, v)
      ensures Inv(o) && Advances(base, o) && o == MarkedLaunched(old(o), Explicit(i))
    {
      hide Inv, Rely, Advances, Follows;
      Marked(o, i);
      AdvancesComposes(base, o, o.(plans := o.plans[i := o.plans[i].(launched := true)]));
      o := o.(plans := o.plans[i := o.plans[i].(launched := true)]);
    }

    /** The native stop of a process; success means it is known to be gone. */
    method StopProcess(ghost base: Ownership, p: Proc) returns (ok: bool)
      requires Inv(o) && Advances(base, o)
      modifies this`o
      ensures Marks(old(o), old(v), o, v)
      ensures Inv(o) && Advances(base, o)
      ensures o == if ok then old(o).(confirmed := old(o.confirmed) + {p}) else old(o)
    {
      hide Inv, Rely, Advances, Follows;
      ok := *;
      if ok {
        Confirmed(o, p);
        AdvancesComposes(base, o, o.(confirmed := o.confirmed + {p}));
        o := o.(confirmed := o.confirmed + {p});
      }
    }

    /** The record lets go of its process, which is confirmed stopped. */
    method ClearProcess(ghost base: Ownership)
      requires Inv(o) && Advances(base, o) && (o.proc.Some? ==> o.proc.value in o.confirmed)
      modifies this
      ensures Marks(old(o), old(v), o, v)
      ensures Inv(o) && Advances(base, o)
      ensures o == old(o).(proc := None) && v == old(v).(workload := false)
    {
      hide Inv, Rely, Advances, Follows;
      Cleared(o);
      AdvancesComposes(base, o, o.(proc := None));
      o := o.(proc := None);
      v := v.(workload := false);
    }

    /** `applyPreviousCleanup`. */
    method ApplyPreviousCleanup(ghost base: Ownership, ok: bool) returns (current: bool)
      requires Inv(o) && Advances(base, o) && o.launch.Some? && o.proc == o.launch.value.previous
      requires ok && o.proc.Some? ==> o.proc.value in o.confirmed
      modifies this
      ensures Marks(old(o), old(v), o, v)
      ensures Inv(o) && Advances(base, o) && o == old(o).(proc := o.proc)
      ensures current <==> !old(v.closed)
      ensures if current && ok then o.proc.None? && v == old(v).(workload := false) else o.proc == old(o.proc) && v == old(v)
    {
      LaunchIsCurrent(o);
      var l := o.launch.value;
      if v.closed || !Current(l) || !(o.proc.None? || o.proc == l.previous) { return false; }
      if ok { ClearProcess(base); }
      return true;
    }

    predicate Current(l: Launch)
      reads this
    {
      o.loaded && o.gen == l.gen
    }

    /** `recordServiceLaunch`. */
    method RecordServiceLaunch(ghost base: Ownership)
      requires Inv(o) && Advances(base, o) && o.launch.Some? && o.proc.None?
      modifies this
      ensures Marks(old(o), old(v), o, v)
      ensures Inv(o) && Advances(base, o)
      ensures o == if !old(v.closed) && old(o.launch).value.def.Native?
                   then old(o).(invocation := Some(old(o.launch).value.def)) else old(o)
      ensures v == if old(v.closed) then old(v)
                   else if IsOneshot(old(o.launch).value.def) then old(v).(pos := After(old(v.pos), StartRequested))
                   else if old(o.launch).value.def.Native? then old(v).(invocationRevision := old(o.launch).value.revision) else old(v)
    {
      LaunchIsCurrent(o);
      hide Inv, Rely, Advances, Follows;
      var l := o.launch.value;
      if v.closed || !Current(l) { return; }
      if l.def.Process? && l.def.oneshot { var _ := Apply(StartRequested); }
      if l.def.Native? { RecordInvocation(base); }
    }

    /** `recordInvocation`: the launch is current as long as it holds the gate. */
    method RecordInvocation(ghost base: Ownership)
      requires Inv(o) && Advances(base, o) && o.launch.Some? && o.proc.None?
      modifies this
      ensures Marks(old(o), old(v), o, v)
      ensures Inv(o) && Advances(base, o) && o == old(o).(invocation := Some(old(o.launch).value.def))
      ensures v == old(v).(invocationRevision := old(o.launch).value.revision)
    {
      LaunchIsCurrent(o);
      hide Inv, Rely, Advances, Follows;
      var l := o.launch.value;
      if Current(l) {
        Invoked(o, Some(l.def));
        AdvancesComposes(base, o, o.(invocation := Some(l.def)));
        o := o.(invocation := Some(l.def));
        v := v.(invocationRevision := l.revision);
      }
    }

    /** `acceptNativeStart`. */
    method AcceptNativeStart(ghost base: Ownership, cancelled: bool)
      requires Inv(o) && Advances(base, o) && o.launch.Some?
      modifies this
      ensures Marks(old(o), old(v), o, v)
      ensures Inv(o) && Advances(base, o) && SameOwner(old(o), o)
      ensures var goes := !cancelled && !old(v.closed) && !old(o.stopping) && old(o.launch).value.auto && old(v.pos.state) == Activating;
        if goes then v == old(v).(pos := Position(Active, Running)) && o == ActivateOf(old(o), old(o.launch).value.at)
        else o == old(o) && v == old(v)
    {
      hide Inv, Rely, Advances, Follows;
      FollowsSelf(o.plans);
      var l := o.launch.value;
      LaunchIsCurrent(o);
      if cancelled || v.closed || !Current(l) || o.stopping || !l.auto { return; }
      var _ := Activate(base, l.at);
    }

    /** A successful start out of activation, by the launch that holds the gate. */
    method Activate(ghost base: Ownership, at: nat) returns (ok: bool)
      requires Inv(o) && Advances(base, o) && Placed(o, at, o.stopEpoch)
      modifies this
      ensures Marks(old(o), old(v), o, v)
      ensures Inv(o) && Advances(base, o) && SameOwner(old(o), o) && o == if ok then ActivateOf(old(o), at) else old(o)
      ensures ok == (old(v.pos.state) == Activating)
      ensures v == if ok then old(v).(pos := Position(Active, Running)) else old(v)
    {
      hide Inv, Rely, Advances, Follows;
      ok := Succeed(at);
      RelySame(old(o), o);
      RelyAdvances(old(o), o);
      AdvancesComposes(base, old(o), o);
    }

    /** The launcher returns a new process. */
    method LauncherReturns(ghost base: Ownership)
      requires Inv(o) && Advances(base, o) && o.launch.Some? && o.hand.None? && o.proc.None?
      modifies this`o
      ensures Marks(old(o), old(v), o, v)
      ensures Inv(o) && Advances(base, o)
      ensures o == old(o).(hand := Some(old(o.created)), created := old(o.created) + 1)
    {
      hide Inv, Rely, Advances, Follows;
      Created(o);
      AdvancesComposes(base, o, o.(hand := Some(o.created), created := o.created + 1));
      o := o.(hand := Some(o.created), created := o.created + 1);
    }

    /** `retainLaunchFailure`, and the first half of `adoptProcess`: the record had no process. */
    method HoldProcess(ghost base: Ownership)
      requires Inv(o) && Advances(base, o) && o.launch.Some? && o.proc.None? && o.hand.Some?
      requires o.invocation.Some? && Target(o.invocation.value) == 0
      modifies this`o
      ensures Marks(old(o), old(v), o, v)
      ensures Inv(o) && Advances(base, o) && o == old(o).(proc := old(o.hand), hand := None)
    {
      hide Inv, Rely, Advances, Follows;
      Adopted(o);
      AdvancesComposes(base, o, o.(proc := o.hand, hand := None));
      o := o.(proc := o.hand, hand := None);
    }

    /** `adoptProcess`. */
    method AdoptProcess(ghost base: Ownership, alive: bool) returns (ok: bool)
      requires Inv(o) && Advances(base, o) && o.launch.Some? && o.proc.None? && o.hand.Some?
      requires o.invocation.Some? && Target(o.invocation.value) == 0
      modifies this
      ensures Marks(old(o), old(v), o, v)
      ensures Inv(o) && Advances(base, o) && o.proc == old(o.hand) && o.hand.None? && o.launch == old(o.launch)
      ensures |o.plans| >= |old(o.plans)| && (!ok ==> v.workload) && o.gen == old(o.gen)
      ensures o.invocation == old(o.invocation) && o.created == old(o.created) && o.confirmed == old(o.confirmed)
      ensures ok <==> !old(v.closed) && !old(o.stopping)
      ensures var l := old(o.launch).value; var free := old(v).(terminated := false);
        if !ok then v == old(v).(workload := true)
        else if l.def.Process? && l.def.readiness then v == free.(pos := After(old(v.pos), StartRequested))
        else if l.auto && alive && !IsOneshot(l.def) && old(v.pos.state) == Activating then v == free.(pos := Position(Active, Running))
        else v == free
    {
      hide Inv, Rely, Advances, Follows;
      var l := o.launch.value;
      LaunchIsCurrent(o);
      HoldProcess(base);
      if v.closed || o.stopping || !Current(l) {
        v := v.(workload := true);
        return false;
      }
      v := v.(terminated := false);
      if l.def.Process? && l.def.readiness {
        var _ := Apply(StartRequested);
      } else if l.auto && alive && !(l.def.Process? && l.def.oneshot) {
        LaunchIsCurrent(o);
        var _ := Activate(base, l.at);
      }
      return true;
    }

    /** `acceptProcessActivation`. */
    method AcceptProcessActivation(ghost base: Ownership, cancelled: bool, p: Proc) returns (ok: bool)
      requires Inv(o) && Advances(base, o) && o.launch.Some?
      modifies this
      ensures Marks(old(o), old(v), o, v)
      ensures Inv(o) && Advances(base, o) && SameOwner(old(o), o)
      ensures old(o.stopping) || old(o.proc) != Some(p) || cancelled || old(v.closed) ==> !ok && o == old(o) && v == old(v)
      ensures ok ==> !old(o.stopping) && old(o.proc) == Some(p) && !cancelled && !old(v.closed)
      ensures !old(o.stopping) && old(o.proc) == Some(p) && !cancelled && !old(v.closed) ==>
        ok == (old(o.launch).value.def.Process? && old(o.launch).value.def.readiness ==> old(v.pos.state) == Activating)
      ensures var l := old(o.launch).value;
        if ok && l.def.Process? && l.def.readiness then v == old(v).(pos := Position(Active, Running)) && o == ActivateOf(old(o), l.at)
        else o == old(o) && v == old(v)
    {
      hide Inv, Rely, Advances, Follows;
      FollowsSelf(o.plans);
      var l := o.launch.value;
      LaunchIsCurrent(o);
      if cancelled || v.closed || !Current(l) || o.stopping || o.proc != Some(p) { return false; }
      if l.def.Process? && l.def.readiness {
        ok := Activate(base, l.at);
      } else {
        ok := true;
      }
    }

    /** `completeOneshot`. */
    method CompleteOneshot(ghost base: Ownership, cancelled: bool, p: Proc, cleaned: bool, completed: bool, cycle: bool)
      requires Inv(o) && Advances(base, o) && o.launch.Some? && (cleaned ==> p in o.confirmed)
      modifies this
      ensures Marks(old(o), old(v), o, v)
      ensures Inv(o) && Advances(base, o) && o.launch == old(o.launch) && o.hand == old(o.hand) && o.gen == old(o.gen)
      ensures |o.plans| >= |old(o.plans)|
      ensures o.invocation == old(o.invocation) && o.created == old(o.created) && o.confirmed == old(o.confirmed)
      ensures old(o.proc) == Some(p) && cleaned ==> o.proc.None?
      ensures old(o.proc) != Some(p) || !cleaned ==> o.proc == old(o.proc)
      ensures old(o.proc) != Some(p) ==> o == old(o) && v == old(v)
      ensures old(o.proc) == Some(p) && !cleaned ==> v.workload
      ensures old(o.proc) == Some(p) ==> OneshotEnds(old(o), old(v), o, v, cancelled, cleaned, completed, cycle)
      ensures v.pos.state == Active && old(v.pos.state) != Active ==> cleaned && completed && !cancelled && !o.stopping
    {
      hide Inv, Rely, Advances, Follows, ActivationsIn, Step;
      var l := o.launch.value;
      LaunchIsCurrent(o);
      if !Current(l) || o.proc != Some(p) { return; }
      if !o.stopping && !(l.def.Process? && l.def.remain && cleaned && completed) {
        ghost var before := o;
        BoundStops(cycle);
        RelySame(before, o);
        RelyAdvances(before, o);
        AdvancesComposes(base, before, o);
      }
      hide Settles;
      SettleOneshot(base, cancelled, p, cleaned, completed);
    }

    /** The second half of `completeOneshot`. */
    method SettleOneshot(ghost base: Ownership, cancelled: bool, p: Proc, cleaned: bool, completed: bool)
      requires Inv(o) && Advances(base, o) && o.launch.Some? && o.proc == Some(p) && (cleaned ==> p in o.confirmed)
      modifies this
      ensures Marks(old(o), old(v), o, v)
      ensures Inv(o) && Advances(base, o) && Settles(old(o), old(v), o, v, old(o.launch).value, cancelled, cleaned, completed)
      ensures o == old(o).(proc := o.proc, log := o.log) && (if cleaned then o.proc.None? else o.proc == old(o.proc) && v.workload)
      ensures v.pos.state == Active && old(v.pos.state) != Active ==> cleaned && completed && !cancelled && !o.stopping
    {
      hide Inv, Rely, Advances, Follows, ActivationsIn;
      var l := o.launch.value;
      if !cleaned {
        v := v.(workload := true);
        var _ := Apply(StartFailed);
        return;
      }
      ClearProcess(base);
      if Pending(v) {
        var _ := Apply(StartFailed);
        return;
      }
      if cancelled || v.closed || o.stopping { return; }
      if !completed {
        var _ := Apply(StartFailed);
        return;
      }
      LaunchIsCurrent(o);
      ghost var before := o;
      Publish(if l.def.Process? && l.def.remain then Active else Inactive, l.at);
      RelyAdvances(before, o);
      AdvancesComposes(base, before, o);
    }

    /** `applyOneshotCleanup`. */
    method ApplyOneshotCleanup(p: Proc, cleaned: bool, waited: bool)
      requires o.launch.Some?
      modifies this`v
      ensures Marks(old(o), old(v), o, v)
      ensures v == if !Current(o.launch.value) || o.proc != Some(p) then old(v)
                   else old(v).(terminated := old(v.terminated) || !waited, workload := !cleaned,
                                pos := if !(cleaned && waited) && !o.stopping then After(old(v.pos), StartFailed) else old(v.pos))
    {
      if !Current(o.launch.value) || o.proc != Some(p) { return; }
      v := v.(terminated := v.terminated || !waited, workload := !cleaned);
      if !(cleaned && waited) && !o.stopping { var _ := Apply(StartFailed); }
    }

    /** `acceptReadinessFailure`. */
    method AcceptReadinessFailure(ghost base: Ownership, p: Proc, cycle: bool) returns (stopping: bool)
      requires Inv(o) && Advances(base, o) && o.launch.Some?
      modifies this
      ensures Marks(old(o), old(v), o, v)
      ensures Inv(o) && Advances(base, o) && SameOwner(old(o), o)
      ensures if old(o.proc) != Some(p) then stopping && o == old(o) && v == old(v)
              else
                var failed := old(v).(terminated := true, workload := true);
                var pos := if old(o.stopping) then old(v.pos) else After(old(v.pos), StartFailed);
                && stopping == o.stopping
                && StopsPeers(old(o), failed, o, v, pos, old(o.stopping) || Step(old(v.pos), StartFailed).None?, cycle)
    {
      LaunchIsCurrent(o);
      hide Inv, Rely, Advances, Follows, ActivationsIn, Step;
      FollowsSelf(o.plans);
      if !Current(o.launch.value) || o.proc != Some(p) { return true; }
      v := v.(terminated := true, workload := true);
      if !o.stopping {
        var moved := Apply(StartFailed);
        if moved { Bind(base, cycle); }
      }
      return o.stopping;
    }

    /** Bound stops, as part of a stretch of a run. */
    method Bind(ghost base: Ownership, cycle: bool)
      requires Inv(o) && Advances(base, o)
      modifies this
      ensures Marks(old(o), old(v), o, v)
      ensures Inv(o) && Advances(base, o) && SameOwner(old(o), o)
      ensures StopsPeers(old(o), old(v), o, v, old(v.pos), false, cycle)
    {
      hide Inv, Rely, Advances, Follows;
      BoundStops(cycle);
      RelySame(old(o), o);
      RelyAdvances(old(o), o);
      AdvancesComposes(base, old(o), o);
    }

    /** `applyReadinessCleanup`, `applyLateLaunchCleanup`: only the exact process is let go. */
    method ApplyLaunchCleanup(ghost base: Ownership, p: Proc, ok: bool, late: bool)
      requires Inv(o) && Advances(base, o) && o.launch.Some? && (ok ==> p in o.confirmed)
      modifies this
      ensures Marks(old(o), old(v), o, v)
      ensures Inv(o) && Advances(base, o) && o == old(o).(proc := o.proc)
      ensures if old(o.proc) != Some(p) then o == old(o) && v == old(v)
              else if ok then o.proc.None? && v == old(v).(workload := false, terminated := late && old(v.terminated))
              else o == old(o) && v == old(v).(pos := if late then After(old(v.pos), StartFailed) else old(v.pos))
    {
      LaunchIsCurrent(o);
      hide Inv, Rely, Advances, Follows;
      if !Current(o.launch.value) || o.proc != Some(p) { return; }
      if ok {
        ClearProcess(base);
        if !late { v := v.(terminated := false); }
      } else if late {
        var _ := Apply(StartFailed);
      }
    }

    /** `maybeRestart`; `policy` is the restart policy's verdict. */
    method MaybeRestart(ghost base: Ownership, n: Natives)
      requires Inv(o) && Advances(base, o)
      modifies this
      ensures Marks(old(o), old(v), o, v)
      ensures Inv(o) && Advances(base, o) && SameOwner(old(o), o) && ViewKept(old(v), v)
      ensures if n.policy then Recovers(old(o), old(v), o, v, old(o.gen), n.waiting, n.limitHit, n.cycle) else o == old(o) && v == old(v)
    {
      hide Inv, Rely, Advances, Follows, ActivationsIn, Step;
      FollowsSelf(o.plans);
      if !n.policy { return; }
      if v.closed || !o.loaded || o.stopping || v.unavailable { return; }
      AcceptRecovery(o.gen, n.waiting, n.limitHit, n.cycle);
      RelySame(old(o), o);
      RelyAdvances(old(o), o);
      AdvancesComposes(base, old(o), o);
    }

    /** `releaseLaunch`. */
    method ReleaseLaunch(ghost base: Ownership)
      requires Inv(o) && Advances(base, o) && o.hand.None?
      modifies this`o
      ensures Marks(old(o), old(v), o, v)
      ensures Inv(o) && Advances(base, o) && o == old(o).(launch := None)
    {
      hide Inv, Rely, Advances, Follows;
      Released(o);
      AdvancesComposes(base, o, o.(launch := None));
      o := o.(launch := None);
    }

    /** What the launch sees of the process it may replace, before it is decided. */
    method ObserveLaunch(live: bool) returns (seen: Option<Proc>, alive: bool)
      ensures seen == o.proc && alive == (live && o.proc.Some? && !v.closed && !Pending(v))
    {
      seen := o.proc;
      alive := seen.Some? && !v.closed && !Pending(v) && live;
    }

    /** `launchUnitOwnedOp`, with the unit gate held throughout. */
    method LaunchUnit(ghost base: Ownership, job: Job) returns (result: Outcome)
      requires Inv(o) && Advances(base, o) && o.launch.None? && JobOf(o, job)
      modifies this
      ensures Marks(old(o), old(v), o, v)
      ensures Inv(o) && Advances(base, o) && o.launch.None? && |o.plans| >= |old(o.plans)|
      ensures o.created <= old(o.created) + 1 && (o.created > old(o.created) ==> o.gen == old(o.gen) + 1 && result != Skipped)
      ensures o.created > old(o.created) ==> o.proc == Some(old(o.created)) || old(o.created) in o.confirmed
      ensures o.created > old(o.created) && old(o.proc).Some? ==> old(o.proc).value in o.confirmed
    {
      hide Inv, Rely, Advances, Follows, Launchable, Refusal, StopsPeers, Limited;
      NoHand(o);
      var live: bool := *;
      var seen, alive := ObserveLaunch(live);
      Interfere(base);
      var cancelled: bool, valid: bool, peers: bool, limit: bool, cycle: bool := *, *, *, *, *;
      var accepted;
      accepted, result := AcceptLaunch(base, job, cancelled, seen, alive, valid, peers, limit, cycle);
      if !accepted { return; }
      Interfere(base);
      var n: Natives := *;
      result := RunLaunch(base, n);
      ReleaseLaunch(base);
    }

    /** The launch from its acceptance on: the previous invocation is cleaned up first. */
    method RunLaunch(ghost base: Ownership, n: Natives) returns (result: Outcome)
      requires Inv(o) && Advances(base, o) && o.launch.Some? && o.hand.None? && o.proc == o.launch.value.previous
      modifies this
      ensures Marks(old(o), old(v), o, v)
      ensures Inv(o) && Advances(base, o) && o.launch == old(o.launch) && o.hand.None? && |o.plans| >= |old(o.plans)|
      ensures o.created <= old(o.created) + 1
      ensures o.created > old(o.created) ==>
        o.invocation == Some(old(o.launch).value.def) && (old(o.proc).Some? ==> old(o.proc).value in o.confirmed)
      ensures o.created > old(o.created) ==> o.proc == Some(old(o.created)) || old(o.created) in o.confirmed
      ensures result == Skipped ==> o.created == old(o.created)
      ensures result == Fine ==> Started(old(o), o)
      ensures o.gen == old(o.gen)
      ensures old(o.proc).Some? && (o.created > old(o.created) || result != Error) ==> old(o.proc).value in o.confirmed
      ensures old(o.proc).None? ==> LaunchResult(old(o), old(v), o, v, result, n)
    {
      hide Inv, Rely, Advances, Follows, LaunchResult;
      var l := o.launch.value;
      if l.previous.Some? {
        var stopped := StopProcess(base, l.previous.value);
        Interfere(base);
        var current := ApplyPreviousCleanup(base, stopped);
        if !stopped || !current { return Error; }
        Interfere(base);
      }
      result := LaunchService(base, n);
    }

    /** With no process left: skipped, passive and native starts, or a recorded invocation. */
    method LaunchService(ghost base: Ownership, n: Natives) returns (result: Outcome)
      requires Inv(o) && Advances(base, o) && o.launch.Some? && o.hand.None? && o.proc.None?
      modifies this
      ensures Marks(old(o), old(v), o, v)
      ensures Inv(o) && Advances(base, o) && o.launch == old(o.launch) && o.hand.None? && |o.plans| >= |old(o.plans)|
      ensures o.created <= old(o.created) + 1 && old(o.confirmed) <= o.confirmed
      ensures o.created > old(o.created) ==> o.invocation == Some(old(o.launch).value.def)
      ensures o.created > old(o.created) ==> o.proc == Some(old(o.created)) || old(o.created) in o.confirmed
      ensures result == Skipped ==> o.created == old(o.created)
      ensures result == Fine ==> Started(old(o), o)
      ensures o.gen == old(o.gen) && LaunchResult(old(o), old(v), o, v, result, n)
      ensures o.created == old(o.created) ==> o.proc.None?
    {
      hide Inv, Rely, Advances, Follows, ActivationsIn, Recovers, RanWell, After;
      var l := o.launch.value;
      if n.early { return Skipped; }
      if l.def.Passive? { return if n.ok then Fine else Error; }
      RecordServiceLaunch(base);
      Interfere(base);
      if l.def.Native? {
        result := StartNative(base, l.def.target, n);
        return;
      }
      if !n.ok { return Error; }
      RecordInvocation(base);
      Interfere(base);
      result := StartProcess(base, n);
    }

    /** `startSCM` and `startTask`. */
    method StartNative(ghost base: Ownership, target: nat, n: Natives) returns (result: Outcome)
      requires Inv(o) && Advances(base, o) && o.launch.Some?
      modifies this
      ensures Marks(old(o), old(v), o, v)
      ensures Inv(o) && Advances(base, o) && SameOwner(old(o), o)
      ensures result == if target != 0 && n.ok then Fine else Error
      ensures result == Fine && old(o.launch).value.auto && !n.cancelled && !v.closed && !o.stopping ==> v.pos.state != Activating
      ensures if target == 0 then o == old(o) && v == old(v)
              else if !n.ok && n.policy then Recovers(old(o), old(v), o, v, old(o.gen), n.waiting, n.limitHit, n.cycle)
              else n.ok || (o == old(o) && v == old(v))
    {
      hide Inv, Rely, Advances, Follows, ActivationsIn, Recovers;
      FollowsSelf(o.plans);
      if target == 0 { return Error; }
      if !n.ok {
        MaybeRestart(base, n);
        return Error;
      }
      AcceptNativeStart(base, n.cancelled);
      return Fine;
    }

    /** `failAccountStart`. */
    method FailAccountStart()
      modifies this`v
      ensures Marks(o, old(v), o, v)
      ensures v == if !old(v.closed) && o.loaded && !o.stopping && old(v.pos.state) == Activating
                   then old(v).(pos := Position(Failed, NoSub)) else old(v)
    {
      if v.closed || !o.loaded { return; }
      if !o.stopping && v.pos.state == Activating { var _ := Apply(StartFailed); }
    }

    /** The launcher failed without a process: recovery, for an account or exit-status error. */
    method NoProcess(ghost base: Ownership, n: Natives)
      requires Inv(o) && Advances(base, o)
      modifies this
      ensures Marks(old(o), old(v), o, v)
      ensures Inv(o) && Advances(base, o) && SameOwner(old(o), o)
      ensures !n.account && !n.exitStatus ==> o == old(o) && v == old(v)
      ensures !n.account && n.exitStatus && n.policy ==> Recovers(old(o), old(v), o, v, old(o.gen), n.waiting, n.limitHit, n.cycle)
      ensures n.account && !old(v.closed) && old(o.loaded) && !old(o.stopping) ==> v.pos.state != Activating || v.pos.sub == AutoRestart
    {
      hide Inv, Rely, Advances, Follows, ActivationsIn;
      FollowsSelf(o.plans);
      if n.account {
        FailAccountStart();
        MaybeRestart(base, n);
      } else if n.exitStatus {
        MaybeRestart(base, n);
      }
    }

    /** From the recorded invocation to the adopted process. */
    method StartProcess(ghost base: Ownership, n: Natives) returns (result: Outcome)
      requires Inv(o) && Advances(base, o) && o.launch.Some? && o.hand.None? && o.proc.None?
      requires o.launch.value.def.Process? && o.invocation == Some(o.launch.value.def)
      modifies this
      ensures Marks(old(o), old(v), o, v)
      ensures Inv(o) && Advances(base, o) && o.launch == old(o.launch) && o.hand.None? && |o.plans| >= |old(o.plans)|
      ensures o.invocation == old(o.invocation) && old(o.confirmed) <= o.confirmed
      ensures o.created == old(o.created) + if n.launched || n.returned then 1 else 0
      ensures o.created > old(o.created) ==> o.proc == Some(old(o.created)) || old(o.created) in o.confirmed
      ensures result != Skipped && (result == Fine ==> Started(old(o), o))
      ensures o.gen == old(o.gen) && (o.created == old(o.created) ==> o.proc.None?)
      ensures !n.launched ==> result == Error
      ensures !n.launched && n.returned ==> o.proc == Some(old(o.created)) && v.workload
      ensures result == Fine ==> RanWell(old(o.launch).value.def, n)
    {
      hide Inv, Rely, Advances, Follows;
      if !n.launched && !n.returned {
        NoProcess(base, n);
        return Error;
      }
      LauncherReturns(base);
      var p := o.hand.value;
      Interfere(base);
      if !n.launched {
        HoldProcess(base);
        v := v.(workload := true);
        return Error;
      }
      var adopted := AdoptProcess(base, n.alive);
      if !adopted {
        RejectProcess(base, p);
        return Error;
      }
      Interfere(base);
      if o.launch.value.def.oneshot {
        result := FinishOneshot(base, p, n);
      } else {
        result := FinishStart(base, p, n);
      }
    }

    /** A process that came too late is stopped; unless that is confirmed it stays pending. */
    method RejectProcess(ghost base: Ownership, p: Proc)
      requires Inv(o) && Advances(base, o) && o.launch.Some? && o.hand.None? && o.proc == Some(p) && v.workload
      modifies this
      ensures Marks(old(o), old(v), o, v)
      ensures Inv(o) && Advances(base, o) && o.launch == old(o.launch) && o.hand.None? && |o.plans| >= |old(o.plans)|
      ensures o.created == old(o.created) && o.invocation == old(o.invocation) && old(o.confirmed) <= o.confirmed && o.gen == old(o.gen)
      ensures if o.proc.None? then p in o.confirmed && !v.workload else o.proc == Some(p) && v.workload
      ensures p !in o.confirmed ==> o.proc == Some(p)
      ensures p in o.confirmed && p !in old(o.confirmed) ==> o.proc.None?
    {
      hide Inv, Rely, Advances, Follows, ActivationsIn;
      var stopped := StopProcess(base, p);
      Interfere(base);
      ApplyLaunchCleanup(base, p, stopped, true);
    }

    /** A oneshot waits for its process to exit before the start completes. */
    method FinishOneshot(ghost base: Ownership, p: Proc, n: Natives) returns (result: Outcome)
      requires Inv(o) && Advances(base, o) && o.launch.Some? && o.hand.None?
      modifies this
      ensures Marks(old(o), old(v), o, v)
      ensures Inv(o) && Advances(base, o) && o.launch == old(o.launch) && o.hand.None? && |o.plans| >= |old(o.plans)|
      ensures o.created == old(o.created) && o.invocation == old(o.invocation) && old(o.confirmed) <= o.confirmed
      ensures o.proc == old(o.proc) || (old(o.proc) == Some(p) && o.proc.None? && p in o.confirmed)
      ensures result == Fine ==> p in o.confirmed && n.exited && n.killed && n.completed && !n.cancelled
      ensures result == Fine && old(o.proc) == Some(p) ==> o.proc.None?
      ensures n.exited && n.killed && n.completed && !n.cancelled && old(o.proc) == Some(p) && result == Error ==> o.proc == Some(p) && v.workload
      ensures !n.exited && old(o.proc) == Some(p) ==> v.terminated && (p !in o.confirmed ==> v.workload) && o.proc == Some(p)
      ensures n.exited && !n.killed && old(o.proc) == Some(p) ==> v.workload && o.proc == Some(p)
      ensures result != Skipped && o.gen == old(o.gen)
    {
      hide Inv, Rely, Advances, Follows, OneshotEnds;
      if !n.exited {
        StopUnfinished(base, p, n);
        return Error;
      }
      if !n.killed {
        LaunchIsCurrent(o);
        ApplyOneshotCleanup(p, false, true);
        return Error;
      }
      var cleaned := StopProcess(base, p);
      Interfere(base);
      CompleteOneshot(base, n.cancelled, p, cleaned, n.completed, n.cycle);
      if !cleaned || !n.completed || n.cancelled { return Error; }
      Interfere(base);
      MaybeRestart(base, n);
      return Fine;
    }

    /** A oneshot that failed or took too long is stopped and may be recovered. */
    method StopUnfinished(ghost base: Ownership, p: Proc, n: Natives)
      requires Inv(o) && Advances(base, o) && o.launch.Some? && o.hand.None?
      modifies this
      ensures Marks(old(o), old(v), o, v)
      ensures Inv(o) && Advances(base, o) && o.launch == old(o.launch) && o.hand.None? && |o.plans| >= |old(o.plans)|
      ensures o.created == old(o.created) && o.invocation == old(o.invocation) && old(o.confirmed) <= o.confirmed
      ensures o.proc == old(o.proc) && o.gen == old(o.gen)
      ensures old(o.proc) == Some(p) ==> v.terminated && (p !in o.confirmed ==> v.workload)
    {
      hide Inv, Rely, Advances, Follows, ActivationsIn, Recovers;
      var stopped := StopProcess(base, p);
      Interfere(base);
      LaunchIsCurrent(o);
      ApplyOneshotCleanup(p, stopped, false);
      Interfere(base);
      if stopped { MaybeRestart(base, n); }
    }

    /** Any other service waits for readiness, if it has to, and is activated. */
    method FinishStart(ghost base: Ownership, p: Proc, n: Natives) returns (result: Outcome)
      requires Inv(o) && Advances(base, o) && o.launch.Some? && o.hand.None? && o.launch.value.def.Process?
      modifies this
      ensures Marks(old(o), old(v), o, v)
      ensures Inv(o) && Advances(base, o) && o.launch == old(o.launch) && o.hand.None? && |o.plans| >= |old(o.plans)|
      ensures o.created == old(o.created) && o.invocation == old(o.invocation) && old(o.confirmed) <= o.confirmed
      ensures o.proc == old(o.proc) || (old(o.proc) == Some(p) && o.proc.None? && p in o.confirmed)
      ensures result == Fine ==> o.proc == old(o.proc)
      ensures var waits := old(o.launch).value.def.readiness;
        var goes := !old(o.stopping) && old(o.proc) == Some(p) && !n.cancelled && !old(v.closed);
        result == if waits && !(n.ready && goes && old(v.pos.state) == Activating) then Error else Fine
      ensures result == Fine && old(o.launch).value.def.readiness ==> v.pos == Position(Active, Running) && old(o.proc) == Some(p)
      ensures old(o.launch).value.def.readiness && !n.ready && old(o.proc) == Some(p) && o.proc.Some? ==> v.workload
      ensures result != Skipped && o.gen == old(o.gen)
    {
      hide Inv, Rely, Advances, Follows;
      if o.launch.value.def.readiness && !n.ready {
        StopUnready(base, p, n);
        return Error;
      }
      var accepted := AcceptProcessActivation(base, n.cancelled, p);
      result := if !accepted && o.launch.value.def.readiness then Error else Fine;
    }

    /** A service that did not become ready is stopped and may be recovered. */
    method StopUnready(ghost base: Ownership, p: Proc, n: Natives)
      requires Inv(o) && Advances(base, o) && o.launch.Some? && o.hand.None?
      modifies this
      ensures Marks(old(o), old(v), o, v)
      ensures Inv(o) && Advances(base, o) && o.launch == old(o.launch) && o.hand.None? && |o.plans| >= |old(o.plans)|
      ensures o.created == old(o.created) && o.invocation == old(o.invocation) && old(o.confirmed) <= o.confirmed && o.gen == old(o.gen)
      ensures o.proc == old(o.proc) || (old(o.proc) == Some(p) && o.proc.None? && p in o.confirmed)
      ensures old(o.proc) == Some(p) && o.proc.Some? ==> v.workload
      ensures old(o.proc) == Some(p) && p in o.confirmed && p !in old(o.confirmed) ==> o.proc.None?
    {
      hide Inv, Rely, Advances, Follows, ActivationsIn, Recovers;
      var stopping := AcceptReadinessFailure(base, p, n.cycle);
      var stopped := StopProcess(base, p);
      Interfere(base);
      ApplyLaunchCleanup(base, p, stopped, false);
      if !stopping && stopped { MaybeRestart(base, n); }
    }

    /* ---- Starts, stops and exits under the unit gate ---- */

    /** `executeOperationStart` once it has the gate: launch, then publish the outcome; a
        cancelled operation stops what it launched. */
    method StartMember(ghost base: Ownership, i: nat) returns (cancelled: bool)
      requires Inv(o) && Advances(base, o) && o.launch.None? && i < |o.plans|
      modifies this
      ensures Marks(old(o), old(v), o, v)
      ensures Inv(o) && Advances(base, o) && o.launch.None?
      ensures i < |o.plans| && o.plans[i].completed
      ensures cancelled && o.plans[i].launched && o.plans[i].launchGen != 0 && o.loaded ==> o.gen != o.plans[i].launchGen
    {
      hide Inv, Rely, Advances, Follows;
      var result := LaunchUnit(base, Explicit(i));
      Interfere(base);
      cancelled := *;
      var originValid: bool, cycle: bool := *, *;
      if cancelled {
        if o.plans[i].launched && o.plans[i].launchGen != 0 && o.loaded && o.gen == o.plans[i].launchGen {
          ghost var held := o;
          LaunchBounded(o, i);
          var _ := StopUnit(base);
          FollowsAt(held.plans, o.plans, i);
        }
        ghost var stopped := o;
        Interfere(base);
        FollowsAt(stopped.plans, o.plans, i);
        LoadedStays(stopped, o);
      }
      ghost var before := o;
      ApplyStartCompletion(i, if cancelled then Error else result, originValid, cycle);
      RelySame(before, o);
      FollowsAt(before.plans, o.plans, i);
      LoadedStays(before, o);
      RelyAdvances(before, o);
      AdvancesComposes(base, before, o);
    }

    /** `acceptStopCleanup`: a disarmed generation of its own; what may still run is pending. */
    method AcceptStopCleanup(ghost base: Ownership, others: bool) returns (def: Def, process: Option<Proc>)
      requires Inv(o) && Advances(base, o) && o.launch.None? && o.loaded
      modifies this
      ensures Marks(old(o), old(v), o, v)
      ensures Inv(o) && Advances(base, o) && o == old(o).(stopping := true, gen := old(o.gen) + 1)
      ensures process == o.proc && def == OwnedBy(o, v) && (Target(def) != 0 ==> process.None?)
      ensures v == old(v).(pos := Position(Deactivating, Stop), otherOps := old(v.otherOps) + 1,
                           workload := old(v.workload) || process.Some? || Target(def) != 0, others := old(v.others) || others)
    {
      def, process := OwnedBy(o, v), o.proc;
      if o.proc.Some? { NativeHoldsNothing(o); }
      hide Inv, Rely, Advances, Follows, ActivationsIn;
      StopAccepted(o);
      AdvancesComposes(base, o, o.(stopping := true, gen := o.gen + 1));
      o := o.(stopping := true, gen := o.gen + 1);
      var _ := Apply(StopRequested);
      v := v.(workload := v.workload || process.Some? || Target(def) != 0, others := v.others || others, otherOps := v.otherOps + 1);
    }

    /** `applyStopCleanup`: unconfirmed termination stays pending, so no start replaces it. */
    method ApplyStopCleanup(ghost base: Ownership, gen: nat, process: Option<Proc>, ok: bool)
      requires Inv(o) && Advances(base, o) && o.launch.None?
      requires ok && process.Some? ==> process.value in o.confirmed
      modifies this
      ensures Marks(old(o), old(v), o, v)
      ensures Inv(o) && Advances(base, o) && o == old(o).(proc := o.proc, invocation := o.invocation)
      ensures o.loaded && o.gen == gen && old(o.proc) == process && o.proc.Some? ==> v.workload
      ensures if !o.loaded || o.gen != gen || !(old(o.proc).None? || old(o.proc) == process) then o == old(o) && v == old(v)
              else v == old(v).(workload := !ok)
                   && o == if !ok || old(o.proc) != process then old(o)
                           else old(o).(proc := None, invocation := if old(v.others) then old(o.invocation) else None)
    {
      hide Inv, Rely, Advances, Follows;
      if !o.loaded || o.gen != gen || !(o.proc.None? || o.proc == process) { return; }
      v := v.(workload := !ok);
      if ok && o.proc == process {
        ClearProcess(base);
        if !Pending(v) {
          Invoked(o, None);
          AdvancesComposes(base, o, o.(invocation := None));
          o := o.(invocation := None);
        }
      }
    }

    /** `stopUnitAfterLock` up to the release of the gate. */
    method StopUnit(ghost base: Ownership) returns (ok: bool)
      requires Inv(o) && Advances(base, o) && o.launch.None?
      modifies this
      ensures Marks(old(o), old(v), o, v)
      ensures Inv(o) && Advances(base, o) && o.launch.None? && |o.plans| >= |old(o.plans)|
      ensures Follows(old(o.plans), o.plans)
      ensures old(o.loaded) ==> o.stopping && o.gen == old(o.gen) + 1 && (o.loaded && o.proc.Some? ==> v.workload)
      ensures old(o.loaded) && o.loaded ==> v.workload == !ok && o.proc == if ok then None else old(o.proc)
      ensures ok && old(o.proc).Some? && old(o.loaded) ==> old(o.proc).value in o.confirmed
    {
      hide Inv, Rely, Advances, Follows;
      FollowsSelf(o.plans);
      ok := true;
      if !o.loaded { return; }
      var others: bool := *;
      var def, process := AcceptStopCleanup(base, others);
      var gen := o.gen;
      Interfere(base);
      ghost var middle := o;
      if Target(def) != 0 { ok := *; } else if process.Some? { ok := StopProcess(base, process.value); }
      Interfere(base);
      FollowsComposes(old(o).plans, middle.plans, o.plans);
      ApplyStopCleanup(base, gen, process, ok);
    }

    /** `acceptProcessExitCleanup`. */
    method AcceptProcessExitCleanup(ghost base: Ownership, p: Proc, cycle: bool) returns (accepted: bool)
      requires Inv(o) && Advances(base, o)
      modifies this
      ensures Marks(old(o), old(v), o, v)
      ensures Inv(o) && Advances(base, o) && SameOwner(old(o), o)
      ensures accepted <==> old(o.loaded) && old(o.proc) == Some(p) && !Pending(old(v))
      ensures if !old(o.loaded) || old(o.proc) != Some(p) then o == old(o) && v == old(v)
              else
                var from := if accepted then old(v).(workload := true, terminated := false) else old(v);
                StopsPeers(old(o), from, o, v, old(v.pos), old(o.stopping) || old(v.terminated), cycle)
    {
      hide Inv, Rely, Advances, Follows, ActivationsIn;
      FollowsSelf(o.plans);
      if !o.loaded || o.proc != Some(p) { return false; }
      if !o.stopping && !v.terminated { Bind(base, cycle); }
      if Pending(v) { return false; }
      v := v.(workload := true, terminated := false);
      return true;
    }

    /** `applyProcessExitCleanup`. */
    method ApplyProcessExitCleanup(ghost base: Ownership, gen: nat, p: Proc, ok: bool, cycle: bool) returns (gone: bool)
      requires Inv(o) && Advances(base, o) && o.launch.None? && (ok ==> p in o.confirmed)
      modifies this
      ensures Marks(old(o), old(v), o, v)
      ensures Inv(o) && Advances(base, o) && o.launch.None?
      ensures o.proc == if ok && old(o.loaded) && old(o.gen) == gen && old(o.proc) == Some(p) then None else old(o.proc)
      ensures gone <==> old(o.loaded) && old(o.gen) == gen && old(o.proc) == Some(p) && ok && !old(v.others)
      ensures if !old(o.loaded) || old(o.gen) != gen || old(o.proc) != Some(p) then o == old(o) && v == old(v)
              else
                var from := if ok then old(o).(proc := None) else old(o);
                var rest := if ok then old(v).(workload := false) else old(v);
                if gone then o == from && v == rest
                else StopsPeers(from, rest, o, v, After(old(v.pos), StartFailed), old(o.stopping), cycle)
    {
      hide Inv, Rely, Advances, Follows, ActivationsIn;
      if !o.loaded || o.gen != gen || o.proc != Some(p) { return false; }
      if ok { ClearProcess(base); }
      if !ok || Pending(v) {
        if v.pos.state != Failed { var _ := Apply(StartFailed); }
        if !o.stopping { Bind(base, cycle); }
        return false;
      }
      return true;
    }

    /** `watch` once the process of some invocation has exited. */
    method Watch(ghost base: Ownership, p: Proc)
      requires Inv(o) && Advances(base, o) && o.launch.None?
      modifies this
      ensures Marks(old(o), old(v), o, v)
      ensures Inv(o) && Advances(base, o) && o.launch.None?
      ensures o.proc == old(o.proc) || (old(o.proc) == Some(p) && o.proc.None?)
    {
      hide Inv, Rely, Advances, Follows, ActivationsIn, StopsPeers;
      var cycle: bool, again: bool := *, *;
      var accepted := AcceptProcessExitCleanup(base, p, cycle);
      if !accepted { return; }
      var gen := o.gen;
      Interfere(base);
      var ok := StopProcess(base, p);
      Interfere(base);
      var _ := ApplyProcessExitCleanup(base, gen, p, ok, again);
    }

    /** `reapFailed`, with `acceptFailedProcessCleanup` and `applyFailedProcessCleanup`. */
    method ReapFailed(ghost base: Ownership, gen: nat, p: Proc)
      requires Inv(o) && Advances(base, o) && o.launch.None?
      modifies this
      ensures Marks(old(o), old(v), o, v)
      ensures Inv(o) && Advances(base, o) && o.launch.None?
      ensures o.proc == old(o.proc) || (old(o.proc) == Some(p) && old(o.gen) == gen && o.proc.None? && !v.workload)
      ensures old(v.closed) || !old(o.loaded) || old(o.gen) != gen || old(o.proc) != Some(p) ==> o == old(o) && v == old(v)
    {
      hide Inv, Rely, Advances, Follows;
      if v.closed || !o.loaded || o.gen != gen || o.proc != Some(p) { return; }
      var ok := StopProcess(base, p);
      Interfere(base);
      if !o.loaded || o.gen != gen || o.proc != Some(p) { return; }
      if ok { ClearProcess(base); }
    }

    /** `acceptWatchdogFailure`. */
    method AcceptWatchdogFailure(ghost base: Ownership, gen: nat, cycle: bool) returns (accepted: bool)
      requires Inv(o) && Advances(base, o)
      modifies this
      ensures Marks(old(o), old(v), o, v)
      ensures Inv(o) && Advances(base, o) && SameOwner(old(o), o)
      ensures accepted <==> old(o.loaded) && old(o.gen) == gen && !old(o.stopping) && !old(v.closed) && !Pending(old(v))
                            && old(v.pos.state) in {Active, Activating}
      ensures if accepted
              then StopsPeers(old(o), old(v).(terminated := true, workload := old(o.proc).Some?), o, v, Position(Failed, Watchdog), false, cycle)
              else o == old(o) && v == old(v)
    {
      hide Inv, Rely, Advances, Follows, ActivationsIn;
      FollowsSelf(o.plans);
      if !o.loaded || o.gen != gen || o.stopping || v.closed || Pending(v) { return false; }
      var moved := Apply(WatchdogFailed);
      if !moved { return false; }
      Bind(base, cycle);
      v := v.(terminated := true, workload := o.proc.Some?);
      return true;
    }

    /** `applyWatchdogCleanup`. */
    method ApplyWatchdogCleanup(ghost base: Ownership, gen: nat, process: Option<Proc>, ok: bool) returns (gone: bool)
      requires Inv(o) && Advances(base, o) && (ok && process.Some? ==> process.value in o.confirmed)
      modifies this
      ensures Marks(old(o), old(v), o, v)
      ensures Inv(o) && Advances(base, o)
      ensures if old(o.loaded) && old(o.gen) == gen && (old(o.proc).None? || old(o.proc) == process) && ok
              then o == old(o).(proc := None) && v == old(v).(workload := false, terminated := false) && gone == !old(v.others)
              else o == old(o) && v == old(v) && !gone
    {
      hide Inv, Rely, Advances, Follows, ActivationsIn;
      if !o.loaded || o.gen != gen || !(o.proc.None? || o.proc == process) { return false; }
      if !ok { return false; }
      ClearProcess(base);
      v := v.(terminated := false);
      return !Pending(v);
    }

    /** `onWatchdogTimeout` up to the release of the gate. */
    method WatchdogTimeout(ghost base: Ownership, gen: nat)
      requires Inv(o) && Advances(base, o) && o.launch.None?
      modifies this
      ensures Marks(old(o), old(v), o, v)
      ensures Inv(o) && Advances(base, o) && o.launch.None?
      ensures o.proc == old(o.proc) || (old(o.gen) == gen && o.proc.None?)
      ensures !old(o.loaded) || old(o.gen) != gen || old(o.stopping || v.closed) || Pending(old(v)) ==> o == old(o) && v == old(v)
    {
      hide Inv, Rely, Advances, Follows, ActivationsIn, StopsPeers;
      var cycle: bool := *;
      var accepted := AcceptWatchdogFailure(base, gen, cycle);
      if !accepted { return; }
      var process := o.proc;
      Interfere(base);
      var ok := true;
      if process.Some? { ok := StopProcess(base, process.value); }
      Interfere(base);
      var _ := ApplyWatchdogCleanup(base, gen, process, ok);
    }

    /** Every run: operations take the gate one after the other, in any order and number, with
        any steps of others between and during them. */
    method Run()
      requires Inv(o) && Shown(o, v) && o.launch.None?
      modifies this
      ensures Marks(old(o), old(v), o, v)
      ensures Inv(o) && Shown(o, v) && o.launch.None? && Advances(old(o), o)
    {
      hide Inv, Rely, Advances, Follows;
      ghost var base := o;
      AdvancesRefl(o);
      var n: nat := *;
      while n > 0
        invariant Inv(o) && Advances(base, o) && o.launch.None?
        invariant Marks(old(o), old(v), o, v)
        decreases n
      {
        Interfere(base);
        var choice: nat, a: nat, b: nat, t: Token := *, *, *, *;
        match choice {
          case 0 => if a < |o.plans| { var _ := StartMember(base, a); }
          case 1 => if t in o.recoveries { var _ := LaunchUnit(base, Recovery(t)); }
          case 2 => var _ := StopUnit(base);
          case 3 => Watch(base, a);
          case 4 => ReapFailed(base, a, b);
          case _ => WatchdogTimeout(base, a);
        }
        n := n - 1;
      }
    }
  }

  /** A unit that is stopping is not recovered. */
  lemma {:induction false} StoppedStays(a: Ownership, va: View, b: Ownership, vb: View, gen: nat, waiting: bool, limitHit: bool, cycle: bool)
    requires Recovers(a, va, b, vb, gen, waiting, limitHit, cycle)
    ensures a.stopping ==> b == a && vb == va
  {
    hide Begins;
  }

  lemma {:induction false} OutcomeActive(a: Ownership, va: View, b: Ownership, vb: View, state: State, launched: bool, at: nat, cycle: bool)
    requires Outcomes(a, va, b, vb, state, launched, at, cycle)
    ensures vb.pos.state == Active && va.pos.state != Active ==> state == Active && !a.stopping
  {}

  lemma {:induction false} KeptSelf(v: View)
    ensures ViewKept(v, v)
  {}

  lemma {:induction false} RelyRefl(o: Ownership)
    ensures Rely(o, o)
  {}

  lemma {:induction false} PlansKept(a: Ownership, b: Ownership, i: nat)
    requires Rely(a, b) && i < |a.plans|
    ensures i < |b.plans| && (a.plans[i].completed ==> b.plans[i].completed)
  {}

  lemma {:induction false} RelySame(a: Ownership, b: Ownership)
    requires Rely(a, b)
    ensures SameOwner(a, b)
  {}

  lemma {:induction false} NoHand(o: Ownership)
    requires Inv(o) && o.launch.None?
    ensures o.hand.None?
  {}

  /** The launch of the gate holder is current, and while nothing stopped the unit it was
      admitted in the present epoch. */
  lemma {:induction false} LaunchIsCurrent(o: Ownership)
    requires Inv(o) && o.launch.Some?
    ensures o.loaded && o.gen == o.launch.value.gen
    ensures Placed(o, o.launch.value.at, o.launch.value.admitted)
    ensures !o.stopping ==> o.launch.value.admitted == o.stopEpoch
  {}

  /** Every start has its admission in the history; a recovery whose generation is current and
      not stopped was admitted in the present epoch. */
  lemma {:induction false} TokenCurrent(o: Ownership, job: Job)
    requires Inv(o) && JobOf(o, job)
    requires job.Recovery? ==> o.gen == job.token.gen && !o.stopping
    ensures job.Recovery? ==> job.token.admitted == o.stopEpoch
    ensures Placed(o, AdmittedAt(o, job), AdmittedIn(o, job))
  {
    if job.Explicit? { assert PlanArmed(o, o.plans[job.plan]); }
  }

  lemma {:induction false} PlanPlaced(o: Ownership, i: nat)
    requires Inv(o) && i < |o.plans|
    ensures Placed(o, o.plans[i].at, o.plans[i].stopEpoch)
  {
    assert PlanArmed(o, o.plans[i]);
  }

  lemma {:induction false} Marked(o: Ownership, i: nat)
    requires Inv(o) && i < |o.plans| && o.plans[i].stopEpoch == o.stopEpoch
    ensures Inv(o.(plans := o.plans[i := o.plans[i].(launched := true)]))
    ensures Advances(o, o.(plans := o.plans[i := o.plans[i].(launched := true)]))
  {
    hide Tracked;
    TrackedStays(o, o.(plans := o.plans[i := o.plans[i].(launched := true)]));
  }

  lemma {:induction false} AdvancesRefl(o: Ownership)
    requires Inv(o)
    ensures Advances(o, o)
  {}

  /** A unit whose invocation is a native proxy holds no process. */
  lemma {:induction false} NativeHoldsNothing(o: Ownership)
    requires Inv(o) && o.proc.Some?
    ensures o.invocation.Some? && Target(o.invocation.value) == 0
  {}

  /** In every run, at any point: an active unit's last activation comes from an admission with
      no stop between the two, so from a start that every earlier stop precedes. */
  lemma {:induction false} ActiveByCurrentStart(o: Ownership, v: View) returns (i: nat)
    requires Inv(o) && Shown(o, v) && v.pos.state == Active
    ensures i < |o.log| && o.log[i].Activation? && (forall k :: i < k < |o.log| ==> !o.log[k].Activation?)
    ensures o.log[i].cause < i && o.log[o.log[i].cause].Admission?
    ensures forall k :: o.log[i].cause < k < i ==> !o.log[k].Stopped?
  {
    assert o.log[..0] == [];
    i := LastActivation(o.log, 0);
    assert MarkOk(o.log, i);
    forall k | o.log[i].cause < k < i ensures !o.log[k].Stopped? { NoStopBetween(o, i, k); }
  }

  /** A unit that became active in a stretch of a run was activated in that stretch. */
  lemma {:induction false} ActivatedMeanwhile(a: Ownership, va: View, b: Ownership, vb: View) returns (i: nat)
    requires Inv(b) && Advances(a, b) && Marks(a, va, b, vb)
    requires va.pos.state != Active && vb.pos.state == Active
    ensures |a.log| <= i < |b.log| && b.log[i].Activation? && (forall k :: i < k < |b.log| ==> !b.log[k].Activation?)
    ensures b.log[i].cause < i && forall k :: b.log[i].cause < k < i ==> !b.log[k].Stopped?
  {
    assert b.log[..|a.log|] == a.log;
    i := LastActivation(b.log, |a.log|);
    assert MarkOk(b.log, i);
    forall k | b.log[i].cause < k < i ensures !b.log[k].Stopped? { NoStopBetween(b, i, k); }
  }

  lemma {:induction false} FollowsSelf(a: seq<Plan>)
    ensures Follows(a, a)
  {}

  lemma {:induction false} FollowsComposes(a: seq<Plan>, b: seq<Plan>, c: seq<Plan>)
    requires Follows(a, b) && Follows(b, c)
    ensures Follows(a, c)
  {}

  lemma {:induction false} FollowsAt(a: seq<Plan>, b: seq<Plan>, i: nat)
    requires Follows(a, b) && i < |a|
    ensures i < |b| && (b[i] == a[i] || b[i] == a[i].(completed := true))
  {}

  lemma {:induction false} LoadedStays(a: Ownership, b: Ownership)
    requires Rely(a, b)
    ensures b.loaded ==> a.loaded
  {}

  lemma {:induction false} LaunchBounded(o: Ownership, i: nat)
    requires Inv(o) && i < |o.plans|
    ensures o.plans[i].launchGen <= o.gen
  {
    assert PlanArmed(o, o.plans[i]);
  }
}

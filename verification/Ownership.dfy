/** What the manager knows about one unit record: its generation, stop epoch, process and the
starts that are still under way, with the invariant every lifecycle step keeps.

Times, error texts, timers and handles of notify, watch and capture resources are not part of
the state. A process is a number, given in the order of creation. */
module Ownerships {
  import opened Options

  type Proc = nat

  /** A unit definition. A native target of zero is a missing service or task name. */
  datatype Def = Process(oneshot: bool, remain: bool, readiness: bool) | Native(target: nat) | Passive

  function Target(d: Def): nat {
    if d.Native? then d.target else 0
  }

  /** A member of an admitted start operation. `counts` marks a trigger that counts towards the
      start limit, `restart` a start that belongs to a restart; `at` is its admission in the
      history. */
  datatype Plan = Plan(def: Def, revision: nat, stopEpoch: nat, gen: nat, joining: bool, restart: bool, counts: bool,
                       launched: bool, completed: bool, launchGen: nat, at: nat)

  /** An accepted recovery: the generation it belongs to, the stop epoch it was admitted in and
      its admission in the history. */
  datatype Token = Token(gen: nat, admitted: nat, at: nat)

  /** An accepted launch: its generation, the stop epoch and the admission of its start, the
      captured definition and the process of the previous invocation, still to be cleaned up. */
  datatype Launch = Launch(gen: nat, admitted: nat, at: nat, def: Def, revision: nat, previous: Option<Proc>, auto: bool)

  /** What the history of a record keeps: stops with the epoch they open, admissions of starts
      and recoveries with the epoch they see, and activations with the admission they come from. */
  datatype Mark = Stopped(epoch: nat) | Admission(epoch: nat) | Activation(cause: nat)

  /** `hand` is a process the launcher has returned and the record does not hold yet. The
      processes created so far are those below `created`; `confirmed` are those whose stop
      succeeded. `launch` is the accepted launch of the operation that holds the unit gate. */
  datatype Ownership = Ownership(
    loaded: bool, gen: nat, stopEpoch: nat, stopping: bool, proc: Option<Proc>, hand: Option<Proc>,
    invocation: Option<Def>, created: nat, confirmed: set<Proc>, launch: Option<Launch>,
    plans: seq<Plan>, recoveries: set<Token>, log: seq<Mark>)

  /* ---- The invariant ---- */

  /** A start of this generation, admitted in this epoch, is either overtaken by a later
      generation, disarmed by a stop, or no stop came since it was admitted. */
  predicate Armed(o: Ownership, gen: nat, admitted: nat) {
    && gen <= o.gen && admitted <= o.stopEpoch
    && (gen == o.gen && !o.stopping ==> admitted == o.stopEpoch)
  }

  ghost predicate RecoveriesArmed(o: Ownership) {
    forall t :: t in o.recoveries ==> Armed(o, t.gen, t.admitted) && Placed(o, t.at, t.admitted)
  }

  ghost predicate PlansArmed(o: Ownership) {
    forall i :: 0 <= i < |o.plans| ==> PlanArmed(o, o.plans[i])
  }

  predicate PlanArmed(o: Ownership, p: Plan) {
    && p.stopEpoch <= o.stopEpoch && p.launchGen <= o.gen && Placed(o, p.at, p.stopEpoch)
    && (p.launched ==> Armed(o, p.launchGen, p.stopEpoch))
  }

  /** The launch of the gate holder is the record's current generation. */
  predicate LaunchArmed(o: Ownership) {
    o.launch.Some? ==>
      && o.loaded && o.launch.value.gen == o.gen && Armed(o, o.gen, o.launch.value.admitted)
      && Placed(o, o.launch.value.at, o.launch.value.admitted)
  }

  function StopsIn(log: seq<Mark>): nat {
    if log == [] then 0 else StopsIn(log[..|log| - 1]) + if log[|log| - 1].Stopped? then 1 else 0
  }

  function ActivationsIn(log: seq<Mark>): nat {
    if log == [] then 0 else ActivationsIn(log[..|log| - 1]) + if log[|log| - 1].Activation? then 1 else 0
  }

  /** The history holds this admission. */
  predicate Placed(o: Ownership, at: nat, epoch: nat) {
    at < |o.log| && o.log[at] == Admission(epoch)
  }

  /** A mark fits what came before it: a stop opens the next epoch, an admission sees the current
      one, and an activation comes from an admission that saw the current one. */
  ghost predicate MarkOk(log: seq<Mark>, j: nat)
    requires j < |log|
  {
    match log[j]
    case Stopped(e) => e == StopsIn(log[..j]) + 1
    case Admission(e) => e == StopsIn(log[..j])
    case Activation(cause) => cause < j && log[cause] == Admission(StopsIn(log[..j]))
  }

  /** The stop epoch counts the stops, and every mark fits. */
  ghost predicate Honest(log: seq<Mark>, stopEpoch: nat) {
    StopsIn(log) == stopEpoch && forall j :: 0 <= j < |log| ==> MarkOk(log, j)
  }

  /** Every process ever created has its stop confirmed or is still held. */
  ghost predicate Tracked(o: Ownership) {
    && (forall p: Proc :: p < o.created ==> p in o.confirmed || o.proc == Some(p) || o.hand == Some(p))
    && (o.proc.Some? ==> o.proc.value < o.created)
    && (o.hand.Some? ==> o.hand.value < o.created)
  }

  /** A held process belongs to an invocation that is not a native proxy; a record without a
      place in the unit map holds nothing; a process is handed over to a record without one. */
  predicate Bound(o: Ownership) {
    && (o.proc.Some? ==> o.invocation.Some? && Target(o.invocation.value) == 0)
    && (!o.loaded ==> o.proc.None? && o.hand.None? && o.launch.None?)
    && (o.launch.None? ==> o.hand.None?) && (o.hand.Some? ==> o.proc.None?)
  }

  ghost predicate Inv(o: Ownership) {
    RecoveriesArmed(o) && PlansArmed(o) && LaunchArmed(o) && Honest(o.log, o.stopEpoch) && Tracked(o) && Bound(o)
  }

  /* ---- What steps outside the gate may change ---- */

  /** Steps taken without the unit gate touch neither generation nor process; they bump the
      stop epoch only together with `stopping`, and they do not unload a record that is being
      launched. */
  ghost predicate Rely(a: Ownership, b: Ownership) {
    && b.gen == a.gen && b.proc == a.proc && b.hand == a.hand && b.launch == a.launch
    && b.invocation == a.invocation && b.created == a.created && b.confirmed == a.confirmed
    && a.stopEpoch <= b.stopEpoch && (a.stopEpoch < b.stopEpoch ==> b.stopping) && (a.stopping ==> b.stopping)
    && (b.loaded ==> a.loaded) && (a.loaded && (a.launch.Some? || a.proc.Some?) ==> b.loaded)
    && Follows(a.plans, b.plans) && a.recoveries <= b.recoveries && a.log <= b.log
  }

  /** What the gate holder can count on across such steps. */
  ghost predicate SameOwner(a: Ownership, b: Ownership) {
    && b.gen == a.gen && b.proc == a.proc && b.hand == a.hand && b.launch == a.launch
    && b.invocation == a.invocation && b.confirmed == a.confirmed
    && b.created == a.created && |a.plans| <= |b.plans| && Follows(a.plans, b.plans) && a.recoveries <= b.recoveries
    && (a.stopping ==> b.stopping)
  }

  /** Plans are only added and completed. */
  ghost predicate Follows(a: seq<Plan>, b: seq<Plan>) {
    |a| <= |b| && forall i :: 0 <= i < |a| ==> b[i] == a[i] || b[i] == a[i].(completed := true)
  }

  /** What any stretch of a run does: the history and the stop epoch grow, and a process leaves
      the record only confirmed. */
  ghost predicate Advances(a: Ownership, b: Ownership) {
    && a.stopEpoch <= b.stopEpoch && a.created <= b.created && a.confirmed <= b.confirmed
    && a.log <= b.log
    && (a.proc.Some? && b.proc != a.proc ==> a.proc.value in b.confirmed)
    && (b.loaded ==> a.loaded) && (!b.loaded ==> b.proc.None?)
  }

  lemma {:induction false} AdvancesComposes(a: Ownership, b: Ownership, c: Ownership)
    requires Advances(a, b) && Advances(b, c)
    ensures Advances(a, c)
  {}

  lemma {:induction false} RelyAdvances(a: Ownership, b: Ownership)
    requires Rely(a, b) && Inv(b)
    ensures Advances(a, b)
  {}

  lemma {:induction false} StopsGrow(log: seq<Mark>, i: nat, j: nat)
    requires i <= j <= |log|
    ensures StopsIn(log[..i]) <= StopsIn(log[..j])
    ensures i < j && log[i].Stopped? ==> StopsIn(log[..i]) < StopsIn(log[..j])
    decreases j
  {
    if i < j {
      StopsGrow(log, i, j - 1);
      assert log[..j][..j - 1] == log[..j - 1];
    }
  }

  /** In every state of every run, at any point of any launch: no stop lies between the admission
      of a start and an activation that comes from it. */
  lemma {:induction false} NoStopBetween(o: Ownership, j: nat, i: nat)
    requires Inv(o) && i < j < |o.log| && o.log[j].Activation? && o.log[j].cause < i
    ensures !o.log[i].Stopped?
  {
    var log, cause := o.log, o.log[j].cause;
    assert MarkOk(log, j) && MarkOk(log, cause);
    StopsGrow(log, cause, i);
    StopsGrow(log, i, j);
  }

  /** So every activation after a stop comes from a start admitted after it, in its epoch or a
      later one. */
  lemma {:induction false} StopsWin(o: Ownership, i: nat, j: nat)
    requires Inv(o) && i < j < |o.log| && o.log[i].Stopped? && o.log[j].Activation?
    ensures i < o.log[j].cause < j && o.log[o.log[j].cause].Admission?
    ensures o.log[o.log[j].cause].epoch >= o.log[i].epoch
  {
    var log, cause := o.log, o.log[j].cause;
    assert MarkOk(log, j) && MarkOk(log, i) && MarkOk(log, cause);
    StopsGrow(log, i, j);
    StopsGrow(log, i, i + 1);
    StopsGrow(log, i + 1, j);
    assert log[..i + 1][..i] == log[..i];
    if cause <= i { StopsGrow(log, cause, i); }
  }

  /** A start or recovery that was admitted before a stop is not among those that can follow it:
      its admission is older than the stop's. */
  lemma {:induction false} AdmittedBefore(o: Ownership, w: Ownership)
    requires Inv(o) && w == StopOf(o)
    ensures w.log[|o.log|] == Stopped(o.stopEpoch + 1)
    ensures forall p :: p in o.plans ==> p.at < |o.log| && p.stopEpoch < w.stopEpoch
    ensures forall t :: t in o.recoveries ==> t.at < |o.log| && t.admitted < w.stopEpoch
    ensures o.launch.Some? ==> o.launch.value.at < |o.log| && o.launch.value.admitted < w.stopEpoch
  {
    forall p | p in o.plans ensures p.at < |o.log| && p.stopEpoch < w.stopEpoch {
      var i :| 0 <= i < |o.plans| && o.plans[i] == p;
      assert PlanArmed(o, o.plans[i]);
    }
  }

  lemma {:induction false} LastActivation(log: seq<Mark>, from: nat) returns (i: nat)
    requires from <= |log| && ActivationsIn(log[..from]) < ActivationsIn(log)
    ensures from <= i < |log| && log[i].Activation?
    ensures forall k :: i < k < |log| ==> !log[k].Activation?
  {
    assert log[..|log|] == log;
    if log[|log| - 1].Activation? {
      i := |log| - 1;
    } else {
      var init := log[..|log| - 1];
      assert init[..from] == log[..from];
      i := LastActivation(init, from);
    }
  }

  /** In every state a run reaches: a process the launcher created is the record's own, has its
      stop confirmed, or is just being handed over by the launch that holds the gate. */
  lemma {:induction false} NoProcessLost(o: Ownership, p: Proc)
    requires Inv(o) && p < o.created && p !in o.confirmed
    ensures o.loaded && (o.proc == Some(p) || (o.hand == Some(p) && o.launch.Some?))
  {}

  /** So a unit has at most one process whose stop is not confirmed. */
  lemma {:induction false} OneProcess(o: Ownership, p: Proc, q: Proc)
    requires Inv(o) && p < o.created && q < o.created && p !in o.confirmed && q !in o.confirmed
    ensures p == q
  {}

  lemma {:induction false} RelyComposes(a: Ownership, b: Ownership, c: Ownership)
    requires Rely(a, b) && Rely(b, c)
    ensures Rely(a, c)
  {}

  /* ---- The elementary changes ---- */

  /** A stop. */
  function StopOf(o: Ownership): Ownership {
    o.(stopping := true, stopEpoch := o.stopEpoch + 1, log := o.log + [Stopped(o.stopEpoch + 1)])
  }

  /** A start is admitted with this plan. */
  function AdmitOf(o: Ownership, p: Plan): Ownership {
    o.(plans := o.plans + [p], log := o.log + [Admission(o.stopEpoch)])
  }

  /** A recovery of the current generation is admitted. */
  function RecoverOf(o: Ownership): Ownership {
    o.(recoveries := o.recoveries + {Token(o.gen, o.stopEpoch, |o.log|)}, log := o.log + [Admission(o.stopEpoch)])
  }

  /** The start admitted at this place makes the unit active. */
  function ActivateOf(o: Ownership, at: nat): Ownership {
    o.(log := o.log + [Activation(at)])
  }

  lemma {:induction false} MarksStay(log: seq<Mark>, m: Mark)
    requires forall j :: 0 <= j < |log| ==> MarkOk(log, j)
    requires MarkOk(log + [m], |log|)
    ensures forall j :: 0 <= j < |log| + 1 ==> MarkOk(log + [m], j)
    ensures StopsIn(log + [m]) == StopsIn(log) + if m.Stopped? then 1 else 0
    ensures ActivationsIn(log + [m]) == ActivationsIn(log) + if m.Activation? then 1 else 0
  {
    var next := log + [m];
    assert next[..|log|] == log;
    forall j | 0 <= j < |log| ensures MarkOk(next, j) {
      assert MarkOk(log, j) && next[..j] == log[..j];
    }
  }

  lemma {:induction false} MarkCounts(log: seq<Mark>, m: Mark)
    ensures ActivationsIn(log + [m]) == ActivationsIn(log) + if m.Activation? then 1 else 0
  {
    assert (log + [m])[..|log|] == log;
  }

  lemma {:induction false} HonestStays(log: seq<Mark>, epoch: nat, m: Mark)
    requires Honest(log, epoch)
    requires match m
      case Stopped(e) => e == epoch + 1
      case Admission(e) => e == epoch
      case Activation(cause) => cause < |log| && log[cause] == Admission(epoch)
    ensures Honest(log + [m], epoch + if m.Stopped? then 1 else 0)
  {
    hide MarkOk, StopsIn;
    MarkFits(log, m);
    MarksStay(log, m);
  }

  lemma {:induction false} Disarmed(o: Ownership)
    requires Inv(o)
    ensures Inv(StopOf(o)) && Rely(o, StopOf(o))
  {
    hide Tracked, Honest, MarkOk, StopsIn;
    HonestStays(o.log, o.stopEpoch, Stopped(o.stopEpoch + 1));
    TrackedStays(o, StopOf(o));
  }

  lemma {:induction false} MarkFits(log: seq<Mark>, m: Mark)
    requires match m
      case Stopped(e) => e == StopsIn(log) + 1
      case Admission(e) => e == StopsIn(log)
      case Activation(cause) => cause < |log| && log[cause] == Admission(StopsIn(log))
    ensures MarkOk(log + [m], |log|)
  {
    assert (log + [m])[..|log|] == log;
  }

  lemma {:induction false} Sealed(o: Ownership)
    requires Inv(o)
    ensures Inv(o.(stopping := true)) && Rely(o, o.(stopping := true))
  {
    hide Tracked;
    TrackedStays(o, o.(stopping := true));
  }

  lemma {:induction false} TrackedStays(o: Ownership, w: Ownership)
    requires Tracked(o) && w.created == o.created && o.confirmed <= w.confirmed && w.proc == o.proc && w.hand == o.hand
    ensures Tracked(w)
  {}

  lemma {:induction false} Admitted(o: Ownership, p: Plan)
    requires Inv(o) && p.stopEpoch == o.stopEpoch && !p.launched && p.launchGen == 0 && p.at == |o.log|
    ensures Inv(AdmitOf(o, p)) && Rely(o, AdmitOf(o, p))
  {
    hide Tracked, Honest, MarkOk, StopsIn;
    HonestStays(o.log, o.stopEpoch, Admission(o.stopEpoch));
    TrackedStays(o, AdmitOf(o, p));
  }

  lemma {:induction false} Completed(o: Ownership, i: nat)
    requires Inv(o) && i < |o.plans|
    ensures Inv(o.(plans := o.plans[i := o.plans[i].(completed := true)]))
    ensures Rely(o, o.(plans := o.plans[i := o.plans[i].(completed := true)]))
  {
    hide Tracked;
    TrackedStays(o, o.(plans := o.plans[i := o.plans[i].(completed := true)]));
  }

  lemma {:induction false} Recovered(o: Ownership)
    requires Inv(o) && !o.stopping
    ensures Inv(RecoverOf(o)) && Rely(o, RecoverOf(o))
  {
    hide Tracked, Honest, MarkOk, StopsIn;
    HonestStays(o.log, o.stopEpoch, Admission(o.stopEpoch));
    TrackedStays(o, RecoverOf(o));
  }

  lemma {:induction false} Activated(o: Ownership, at: nat)
    requires Inv(o) && Placed(o, at, o.stopEpoch)
    ensures Inv(ActivateOf(o, at)) && Rely(o, ActivateOf(o, at))
  {
    hide Tracked, Honest, MarkOk, StopsIn;
    HonestStays(o.log, o.stopEpoch, Activation(at));
    TrackedStays(o, ActivateOf(o, at));
  }

  lemma {:induction false} Unloaded(o: Ownership)
    requires Inv(o) && o.proc.None? && o.launch.None?
    ensures Inv(o.(loaded := false)) && Rely(o, o.(loaded := false))
  {
    hide Tracked;
    TrackedStays(o, o.(loaded := false));
  }

  /** What accepting a launch does to a plan: at most mark it, if no stop came since. */
  predicate Stays(o: Ownership, p: Plan, r: Plan, gen: nat) {
    r == p || (p.stopEpoch == o.stopEpoch && r == p.(launched := true, launchGen := gen))
  }

  /** A launch is accepted: a new generation, armed in the epoch its start was admitted in. */
  lemma {:induction false} Launched(o: Ownership, l: Launch, plans: seq<Plan>, w: Ownership)
    requires Inv(o) && o.loaded && o.launch.None? && l.gen == o.gen + 1 && l.admitted == o.stopEpoch
    requires Placed(o, l.at, l.admitted) && |plans| == |o.plans|
    requires forall i :: 0 <= i < |plans| ==> Stays(o, o.plans[i], plans[i], l.gen)
    requires w == o.(gen := l.gen, stopping := false, plans := plans, launch := Some(l))
    ensures Inv(w)
    ensures Advances(o, w)
  {
    hide Tracked;
    TrackedStays(o, w);
  }

  lemma {:induction false} Released(o: Ownership)
    requires Inv(o) && o.hand.None?
    ensures Inv(o.(launch := None))
    ensures Advances(o, o.(launch := None))
  {
    hide Tracked;
    TrackedStays(o, o.(launch := None));
  }

  /** A stop is accepted under the gate: a new generation that is disarmed from the start. */
  lemma {:induction false} StopAccepted(o: Ownership)
    requires Inv(o) && o.launch.None?
    ensures Inv(o.(stopping := true, gen := o.gen + 1))
    ensures Advances(o, o.(stopping := true, gen := o.gen + 1))
  {
    hide Tracked;
    TrackedStays(o, o.(stopping := true, gen := o.gen + 1));
  }

  lemma {:induction false} Confirmed(o: Ownership, p: Proc)
    requires Inv(o)
    ensures Inv(o.(confirmed := o.confirmed + {p}))
    ensures Advances(o, o.(confirmed := o.confirmed + {p}))
  {
    hide Tracked;
    TrackedStays(o, o.(confirmed := o.confirmed + {p}));
  }

  lemma {:induction false} Cleared(o: Ownership)
    requires Inv(o) && (o.proc.Some? ==> o.proc.value in o.confirmed)
    ensures Inv(o.(proc := None))
    ensures Advances(o, o.(proc := None))
  {}

  lemma {:induction false} Invoked(o: Ownership, d: Option<Def>)
    requires Inv(o) && o.proc.None?
    ensures Inv(o.(invocation := d))
    ensures Advances(o, o.(invocation := d))
  {
    hide Tracked;
    TrackedStays(o, o.(invocation := d));
  }

  lemma {:induction false} Created(o: Ownership)
    requires Inv(o) && o.launch.Some? && o.hand.None? && o.proc.None?
    ensures Inv(o.(hand := Some(o.created), created := o.created + 1))
    ensures Advances(o, o.(hand := Some(o.created), created := o.created + 1))
  {}

  /** The returned process becomes the record's: there was none before. */
  lemma {:induction false} Adopted(o: Ownership)
    requires Inv(o) && o.proc.None? && o.hand.Some?
    requires o.invocation.Some? && Target(o.invocation.value) == 0
    ensures Inv(o.(proc := o.hand, hand := None))
    ensures Advances(o, o.(proc := o.hand, hand := None))
  {}
}

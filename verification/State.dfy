/** Lifecycle states, substates and the closed list of transitions (`core.Step`). */
module States {
  import opened Options

  datatype State = Inactive | Activating | Active | Deactivating | Failed

  datatype Substate = NoSub | StartPre | Start | StartPost | Running | Stop | StopPost | AutoRestart | Watchdog

  datatype Event =
    | StartRequested | StartSucceeded | StartFailed | StopRequested | StopFinished
    | MainExited | RestartBegun | RestartCancelled | WatchdogFailed

  datatype Position = Position(state: State, sub: Substate)

  /** The transitions that are allowed; everything else is rejected and changes nothing. */
  function Step(p: Position, ev: Event): Option<Position> {
    match ev
    case StartRequested => if p.state != Deactivating then Some(Position(Activating, Start)) else None
    case StartSucceeded => if p.state == Activating then Some(Position(Active, Running)) else None
    case StartFailed => if p.state in {Activating, Active, Deactivating} then Some(Position(Failed, NoSub)) else None
    case StopRequested => Some(Position(Deactivating, Stop))
    case StopFinished => if p.state == Deactivating then Some(Position(Inactive, NoSub)) else None
    case MainExited => if p.state in {Active, Activating, Inactive} then Some(Position(Failed, NoSub)) else None
    case RestartBegun => if p.state in {Inactive, Active, Failed} then Some(Position(Activating, AutoRestart)) else None
    case RestartCancelled => if p == Position(Activating, AutoRestart) then Some(Position(Inactive, NoSub)) else None
    case WatchdogFailed => if p.state in {Active, Activating} then Some(Position(Failed, Watchdog)) else None
  }

  /** The substates each state is reached with. */
  predicate Coherent(p: Position) {
    match p.state
    case Inactive => p.sub == NoSub
    case Activating => p.sub == Start || p.sub == AutoRestart
    case Active => p.sub == Running
    case Deactivating => p.sub == Stop
    case Failed => p.sub == NoSub || p.sub == Watchdog
  }

  /** The events each state accepts. */
  function Accepted(p: Position): set<Event> {
    match p.state
    case Inactive => {StartRequested, StopRequested, MainExited, RestartBegun}
    case Activating =>
      {StartRequested, StartSucceeded, StartFailed, StopRequested, MainExited, WatchdogFailed}
      + (if p.sub == AutoRestart then {RestartCancelled} else {})
    case Active => {StartRequested, StartFailed, StopRequested, MainExited, RestartBegun, WatchdogFailed}
    case Deactivating => {StartFailed, StopRequested, StopFinished}
    case Failed => {StartRequested, StopRequested, RestartBegun}
  }

  /** The state an accepted event leads to. */
  function Next(ev: Event): State {
    match ev
    case StartRequested | RestartBegun => Activating
    case StartSucceeded => Active
    case StopRequested => Deactivating
    case StopFinished | RestartCancelled => Inactive
    case StartFailed | MainExited | WatchdogFailed => Failed
  }

  /** The transitions, state by state: exactly the listed events are accepted, and each leads to
      its state. */
  lemma {:induction false} StepsByState(p: Position, ev: Event)
    ensures Step(p, ev).Some? <==> ev in Accepted(p)
    ensures Step(p, ev).Some? ==> Step(p, ev).value.state == Next(ev) && Coherent(Step(p, ev).value)
    ensures Step(p, ev).Some? ==> (Step(p, ev).value.sub == AutoRestart <==> ev == RestartBegun)
    ensures Step(p, ev).Some? ==> (Step(p, ev).value.sub == Watchdog <==> ev == WatchdogFailed)
  {
    match ev {
      case StartRequested =>
      case StartSucceeded =>
      case StartFailed =>
      case StopRequested =>
      case StopFinished =>
      case MainExited =>
      case RestartBegun =>
      case RestartCancelled =>
      case WatchdogFailed =>
    }
  }

  function Run(p: Position, events: seq<Event>): Position {
    if events == [] then p else
    var q := Run(p, events[..|events| - 1]);
    match Step(q, events[|events| - 1]) case None => q case Some(r) => r
  }

  /** Over any run from an idle unit the pair stays coherent; a unit becomes active only by a
      successful start out of activation, leaves a stop only by finishing or failing it, and
      a stop is accepted in every state. */
  lemma {:induction false} RunsAreCoherent(events: seq<Event>)
    ensures Coherent(Run(Position(Inactive, NoSub), events))
    ensures forall ev :: Step(Run(Position(Inactive, NoSub), events), ev).Some? ==>
      var p, q := Run(Position(Inactive, NoSub), events), Step(Run(Position(Inactive, NoSub), events), ev).value;
      && (q.state == Active ==> p.state == Activating && ev == StartSucceeded)
      && (p.state == Deactivating && q.state != Deactivating ==> ev in {StopFinished, StartFailed})
    ensures Step(Run(Position(Inactive, NoSub), events), StopRequested).Some?
  {
    if events != [] {
      RunsAreCoherent(events[..|events| - 1]);
    }
  }
}

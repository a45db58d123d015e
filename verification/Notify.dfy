/** The change notifier: marks of a change, the stored permit, and the wait, debounce and broadcast loop. */
module Notify {
  datatype Phase = Waiting | Debouncing | Broadcasting

  /** `owed` counts marks that raised the epoch and have not yet signalled; `covered` is the epoch when the last
      broadcast began. */
  datatype State = State(epoch: nat, owed: nat, permit: bool, phase: Phase, covered: nat)

  const START := State(0, 0, false, Waiting, 0)

  /** A mark is two atomic actions, of any task at any time; a tick is the notifier's next move. */
  datatype Step = Raise | Signal | Tick

  /** The permit is one: signals collapse.  A waiting task that is woken took the permit. */
  function Moved(s: State): State {
    match s.phase
    case Waiting => if s.permit then s.(permit := false, phase := Debouncing) else s
    case Debouncing => s.(phase := Broadcasting, covered := s.epoch)
    case Broadcasting => s.(phase := Waiting)
  }

  predicate Enabled(s: State, step: Step) {
    step.Signal? ==> s.owed > 0
  }

  function Next(s: State, step: Step): State
    requires Enabled(s, step)
  {
    match step
    case Raise => s.(epoch := s.epoch + 1, owed := s.owed + 1)
    case Signal => s.(owed := s.owed - 1, permit := true)
    case Tick => Moved(s)
  }

  /** A run; a step that is not enabled does not happen. */
  function Run(s: State, steps: seq<Step>): State
    decreases |steps|
  {
    if steps == [] then s else Run(if Enabled(s, steps[0]) then Next(s, steps[0]) else s, steps[1..])
  }

  /** A change newer than the last broadcast is on its way: a stored permit, a debounce under way, or a mark about to
      signal. */
  predicate OnItsWay(s: State) {
    s.covered <= s.epoch && (s.covered < s.epoch ==> s.permit || s.phase.Debouncing? || s.owed > 0)
  }

  lemma {:induction false} NoChangeForgotten(s: State, steps: seq<Step>)
    requires OnItsWay(s)
    ensures OnItsWay(Run(s, steps))
    decreases |steps|
  {
    if steps != [] {
      NoChangeForgotten(if Enabled(s, steps[0]) then Next(s, steps[0]) else s, steps[1..]);
    }
  }

  /** In every run, between marks, an epoch newer than the last broadcast means a permit or a debounce. */
  lemma NoLostWakeup(steps: seq<Step>)
    ensures var s := Run(START, steps); s.owed == 0 && s.covered < s.epoch ==> s.permit || s.phase.Debouncing?
  {
    NoChangeForgotten(START, steps);
  }

  function Ticks(steps: seq<Step>): nat {
    if steps == [] then 0 else Ticks(steps[1..]) + if steps[0].Tick? then 1 else 0
  }

  /** How many moves until a broadcast begins, once a permit is stored or a debounce runs. */
  function Distance(s: State): nat {
    match s.phase case Debouncing => 1 case Waiting => 2 case Broadcasting => 3
  }

  lemma {:induction false} ReachesBroadcast(s: State, steps: seq<Step>, epoch: nat)
    requires epoch <= s.epoch && (s.covered >= epoch || ((s.permit || s.phase.Debouncing?)
        && Ticks(steps) >= Distance(s)))
    ensures Run(s, steps).covered >= epoch
    decreases |steps|
  {
    if steps != [] {
      ReachesBroadcast(if Enabled(s, steps[0]) then Next(s, steps[0]) else s, steps[1..], epoch);
    }
  }

  /** Once a mark has signalled, three moves of the notifier, in any schedule with any other marks among them, begin a
      broadcast that covers it. */
  lemma SignalledIsBroadcast(s: State, steps: seq<Step>)
    requires Enabled(s, Signal) && Ticks(steps) >= 3
    ensures Run(Next(s, Signal), steps).covered >= s.epoch
  {
    ReachesBroadcast(Next(s, Signal), steps, s.epoch);
  }

  // ---- No more than asked for ----------------------------------------------------------------------

  /** How many broadcasts begin in a run, and how many signals are given. */
  function Broadcasts(s: State, steps: seq<Step>): nat
    decreases |steps|
  {
    if steps == [] then 0
    else
      var t := if Enabled(s, steps[0]) then Next(s, steps[0]) else s;
      Broadcasts(t, steps[1..]) + if t.phase.Broadcasting? && !s.phase.Broadcasting? then 1 else 0
  }

  function Signals(s: State, steps: seq<Step>): nat
    decreases |steps|
  {
    if steps == [] then 0
    else if !Enabled(s, steps[0]) then Signals(s, steps[1..])
    else Signals(Next(s, steps[0]), steps[1..]) + if steps[0].Signal? then 1 else 0
  }

  /** The permit and the debounce, each of which leads to one broadcast. */
  function Due(s: State): nat {
    (if s.permit then 1 else 0) + if s.phase.Debouncing? then 1 else 0
  }

  lemma {:induction false} DueBroadcasts(s: State, steps: seq<Step>)
    ensures Broadcasts(s, steps) <= Due(s) + Signals(s, steps)
    decreases |steps|
  {
    if steps != [] { DueBroadcasts(if Enabled(s, steps[0]) then Next(s, steps[0]) else s, steps[1..]); }
  }

  /** Signals collapse: in every run there are no more broadcasts than signals. */
  lemma NoMoreBroadcastsThanSignals(steps: seq<Step>)
    ensures Broadcasts(START, steps) <= Signals(START, steps)
  {
    DueBroadcasts(START, steps);
  }
}

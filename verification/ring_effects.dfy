/** Values exchanged between a Ring device handler and the openHAB framework:
    on/off states, the commands a channel can receive, and the side effects a
    handler fires while it handles them (recorded as a trace). */
module RingEffects {

  /** The framework's two-valued switch state. */
  datatype OnOffType = ON | OFF

  /** The command types a channel can deliver. `Number` stands for every
      numeric command type (decimal, percent, colour); `IncreaseDecrease` and
      `UpDown` for both directions of each, since the handler only echoes them;
      `Other` for any command type the handler does not recognise. */
  datatype Command =
    | Number
    | Refresh
    | IncreaseDecrease
    | UpDown
    | OnOff(value: OnOffType)
    | Other(text: string)

  /** Channel ids handled by every Ring device. Only their being distinct
      matters to the handler. */
  const ControlStatus: string := "control-status"
  const ControlEnabled: string := "control-enabled"

  /** One observable side effect of handling a command, in the order fired. */
  datatype Effect =
    | StateUpdated(channel: string, state: OnOffType)   // updateState(channel, state)
    | StateRefreshed                                    // refreshState()
    | RefreshStarted                                    // startAutomaticRefresh()
    | RefreshStopped                                    // stopAutomaticRefresh()
    | UnknownChannel(channel: string)                   // debug log: unknown channel
    | UnsupportedCommand(command: Command, channel: string) // debug log: unsupported command

  // Each observer below picks at most one item per effect. The length bound in
  // its contract is what lets the verifier see that the observer of a short,
  // literal trace (as built by Echo and Switch) ends where the trace ends.

  /** The start (true) and stop (false) signals sent to the refresh loop. */
  function LoopSignals(effects: seq<Effect>): (signals: seq<bool>)
    ensures |signals| <= |effects|
  {
    if effects == [] then []
    else
      var head := match effects[0]
        case RefreshStarted => [true]
        case RefreshStopped => [false]
        case _ => [];
      head + LoopSignals(effects[1..])
  }

  /** The (channel, state) pairs published through updateState. */
  function Published(effects: seq<Effect>): (updates: seq<(string, OnOffType)>)
    ensures |updates| <= |effects|
  {
    if effects == [] then []
    else
      var head := if effects[0].StateUpdated? then [(effects[0].channel, effects[0].state)] else [];
      head + Published(effects[1..])
  }

  /** How many times refreshState was called. */
  function RefreshCount(effects: seq<Effect>): (n: nat)
    ensures n <= |effects|
  {
    if effects == [] then 0
    else (if effects[0] == StateRefreshed then 1 else 0) + RefreshCount(effects[1..])
  }

  /** The diagnostic log entries, in order. */
  function Diagnostics(effects: seq<Effect>): (logged: seq<Effect>)
    ensures |logged| <= |effects|
  {
    if effects == [] then []
    else
      var head := if effects[0].UnknownChannel? || effects[0].UnsupportedCommand? then [effects[0]] else [];
      head + Diagnostics(effects[1..])
  }

  /** Whether the refresh loop runs after the given signals, starting from
      `running`: the last signal wins. */
  function RunningAfter(running: bool, signals: seq<bool>): bool
    decreases |signals|
  {
    if signals == [] then running else RunningAfter(signals[0], signals[1..])
  }

  /** No redundant signal: each signal flips the loop's state, so the loop is
      never started while running nor stopped while stopped. */
  predicate Alternates(running: bool, signals: seq<bool>)
    decreases |signals|
  {
    signals == [] || (signals[0] == !running && Alternates(signals[0], signals[1..]))
  }

  lemma {:induction false} LoopSignalsAppend(a: seq<Effect>, b: seq<Effect>)
    ensures LoopSignals(a + b) == LoopSignals(a) + LoopSignals(b)
  {
    if a == [] {
      assert a + b == b;
    } else {
      assert (a + b)[1..] == a[1..] + b;
      LoopSignalsAppend(a[1..], b);
    }
  }

  lemma {:induction false} RefreshCountAppend(a: seq<Effect>, b: seq<Effect>)
    ensures RefreshCount(a + b) == RefreshCount(a) + RefreshCount(b)
  {
    if a == [] {
      assert a + b == b;
    } else {
      assert (a + b)[1..] == a[1..] + b;
      RefreshCountAppend(a[1..], b);
    }
  }

  lemma {:induction false} RunningAfterAppend(running: bool, a: seq<bool>, b: seq<bool>)
    ensures RunningAfter(running, a + b) == RunningAfter(RunningAfter(running, a), b)
    decreases |a|
  {
    if a == [] {
      assert a + b == b;
    } else {
      assert (a + b)[1..] == a[1..] + b;
      RunningAfterAppend(a[0], a[1..], b);
    }
  }

  /** Two signal runs without redundant signals, the second starting where the
      first left the loop, make one run without redundant signals. */
  lemma {:induction false} AlternatesAppend(running: bool, a: seq<bool>, b: seq<bool>)
    requires Alternates(running, a)
    requires Alternates(RunningAfter(running, a), b)
    ensures Alternates(running, a + b)
    decreases |a|
  {
    if a == [] {
      assert a + b == b;
    } else {
      assert (a + b)[1..] == a[1..] + b;
      AlternatesAppend(a[0], a[1..], b);
    }
  }
}

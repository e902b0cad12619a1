/** The command dispatch of a Ring device handler as a pure state machine over
    its two control values, `status` and `enabled`. Handling a command yields
    the new control values and the side effects fired, in order. */
module RingDispatch {
  import opened RingEffects

  datatype Control = Control(status: OnOffType, enabled: OnOffType)

  /** Outcome of handling one command. */
  datatype Step = Step(control: Control, effects: seq<Effect>)

  /** One command delivered to one channel. */
  datatype Input = Input(channel: string, command: Command)

  /** Commands that only ask for the current value: numbers, refresh requests
      and relative adjustments. */
  predicate IsQuery(command: Command)
  {
    command.Number? || command.Refresh? || command.IncreaseDecrease? || command.UpDown?
  }

  predicate IsKnownChannel(channel: string)
  {
    channel == ControlStatus || channel == ControlEnabled
  }

  /** A query command: echo the current value of the addressed control
      channel, then refresh the whole state. */
  function Echo(c: Control, channel: string): (r: Step)
    ensures r.control == c
    ensures Published(r.effects) ==
      if channel == ControlStatus then [(channel, c.status)]
      else if channel == ControlEnabled then [(channel, c.enabled)]
      else []
    ensures RefreshCount(r.effects) == 1 && r.effects[|r.effects| - 1] == StateRefreshed
    ensures LoopSignals(r.effects) == []
    ensures Diagnostics(r.effects) == if IsKnownChannel(channel) then [] else [UnknownChannel(channel)]
  {
    var echoed :=
      if channel == ControlStatus then StateUpdated(channel, c.status)
      else if channel == ControlEnabled then StateUpdated(channel, c.enabled)
      else UnknownChannel(channel);
    Step(c, [echoed, StateRefreshed])
  }

  /** An on/off command: `control-status` takes the value and publishes it;
      `control-enabled` takes it only when it differs, then publishes it and
      starts or stops the refresh loop. */
  function Switch(c: Control, channel: string, value: OnOffType): (r: Step)
    ensures r.control.status == if channel == ControlStatus then value else c.status
    ensures r.control.enabled == if channel == ControlEnabled then value else c.enabled
    ensures Published(r.effects) ==
      if channel == ControlStatus || (channel == ControlEnabled && value != c.enabled) then [(channel, value)]
      else []
    ensures LoopSignals(r.effects) ==
      if channel == ControlEnabled && value != c.enabled then [value == ON] else []
    ensures channel == ControlEnabled && value != c.enabled ==> r.effects[0] == StateUpdated(channel, value)
    ensures channel == ControlEnabled && value == c.enabled ==> r.effects == []
    ensures RefreshCount(r.effects) == 0
    ensures Diagnostics(r.effects) == if IsKnownChannel(channel) then [] else [UnknownChannel(channel)]
  {
    if channel == ControlStatus then
      Step(c.(status := value), [StateUpdated(channel, value)])
    else if channel == ControlEnabled then
      if c.enabled != value then
        Step(c.(enabled := value), [StateUpdated(channel, value), if value == ON then RefreshStarted else RefreshStopped])
      else
        Step(c, [])
    else
      Step(c, [UnknownChannel(channel)])
  }

  /** handleCommand: sort the command into query, on/off or unsupported. */
  function Dispatch(c: Control, channel: string, command: Command): (r: Step)
    ensures !command.OnOff? ==> r.control == c
    ensures channel != ControlStatus ==> r.control.status == c.status
    ensures channel != ControlEnabled ==> r.control.enabled == c.enabled && LoopSignals(r.effects) == []
    ensures RefreshCount(r.effects) == if IsQuery(command) then 1 else 0
    ensures !IsQuery(command) && !command.OnOff? ==>
      r.effects == [UnsupportedCommand(command, channel)] && Published(r.effects) == []
    // the refresh loop stays in step with `enabled`, and is never signalled twice in a row
    ensures RunningAfter(c.enabled == ON, LoopSignals(r.effects)) == (r.control.enabled == ON)
    ensures Alternates(c.enabled == ON, LoopSignals(r.effects))
  {
    if IsQuery(command) then Echo(c, channel)
    else if command.OnOff? then Switch(c, channel, command.value)
    else Step(c, [UnsupportedCommand(command, channel)])
  }

  /** Commands handled one after another, as the framework delivers them. */
  function Run(c: Control, inputs: seq<Input>): Step
    decreases |inputs|
  {
    if inputs == [] then Step(c, [])
    else
      var first := Dispatch(c, inputs[0].channel, inputs[0].command);
      var rest := Run(first.control, inputs[1..]);
      Step(rest.control, first.effects + rest.effects)
  }

  /** Reference definition: the value a channel holds after the inputs is the
      value of the last on/off command sent to it, or the starting value. */
  function LastSet(current: OnOffType, channel: string, inputs: seq<Input>): OnOffType
    decreases |inputs|
  {
    if inputs == [] then current
    else
      var next := if inputs[0].channel == channel && inputs[0].command.OnOff? then inputs[0].command.value else current;
      LastSet(next, channel, inputs[1..])
  }

  /** Number of query commands among the inputs. */
  function QueryCount(inputs: seq<Input>): nat
  {
    if inputs == [] then 0 else (if IsQuery(inputs[0].command) then 1 else 0) + QueryCount(inputs[1..])
  }

  /** After any sequence of commands, `status` and `enabled` are the values last
      switched on their channels. */
  lemma {:induction false} RunControlIsLastSet(c: Control, inputs: seq<Input>)
    decreases |inputs|
    ensures Run(c, inputs).control ==
      Control(LastSet(c.status, ControlStatus, inputs), LastSet(c.enabled, ControlEnabled, inputs))
  {
    if inputs != [] {
      var first := Dispatch(c, inputs[0].channel, inputs[0].command);
      RunControlIsLastSet(first.control, inputs[1..]);
    }
  }

  /** Over any sequence of commands, the refresh loop ends up running exactly
      when `enabled` is ON, provided it did so at the start. */
  lemma {:induction false} RunKeepsLoopInSync(c: Control, inputs: seq<Input>)
    decreases |inputs|
    ensures RunningAfter(c.enabled == ON, LoopSignals(Run(c, inputs).effects)) == (Run(c, inputs).control.enabled == ON)
  {
    if inputs != [] {
      var first := Dispatch(c, inputs[0].channel, inputs[0].command);
      var rest := Run(first.control, inputs[1..]);
      RunKeepsLoopInSync(first.control, inputs[1..]);
      LoopSignalsAppend(first.effects, rest.effects);
      RunningAfterAppend(c.enabled == ON, LoopSignals(first.effects), LoopSignals(rest.effects));
    }
  }

  /** Over any sequence of commands, the refresh loop is started only while
      stopped and stopped only while running: one signal per change of
      `enabled`, never a duplicate. */
  lemma {:induction false} RunSignalsAlternate(c: Control, inputs: seq<Input>)
    decreases |inputs|
    ensures Alternates(c.enabled == ON, LoopSignals(Run(c, inputs).effects))
  {
    if inputs != [] {
      var first := Dispatch(c, inputs[0].channel, inputs[0].command);
      var rest := Run(first.control, inputs[1..]);
      RunSignalsAlternate(first.control, inputs[1..]);
      LoopSignalsAppend(first.effects, rest.effects);
      AlternatesAppend(c.enabled == ON, LoopSignals(first.effects), LoopSignals(rest.effects));
    }
  }

  /** Commands other than on/off never change the control values nor touch
      the refresh loop; each query among them refreshes the state once. */
  lemma {:induction false} RunWithoutOnOffKeepsControl(c: Control, inputs: seq<Input>)
    decreases |inputs|
    requires forall i :: 0 <= i < |inputs| ==> !inputs[i].command.OnOff?
    ensures Run(c, inputs).control == c
    ensures LoopSignals(Run(c, inputs).effects) == []
    ensures RefreshCount(Run(c, inputs).effects) == QueryCount(inputs)
  {
    if inputs != [] {
      var first := Dispatch(c, inputs[0].channel, inputs[0].command);
      var rest := Run(first.control, inputs[1..]);
      RunWithoutOnOffKeepsControl(c, inputs[1..]);
      LoopSignalsAppend(first.effects, rest.effects);
      RefreshCountAppend(first.effects, rest.effects);
    }
  }

  /** Commands that never address `control-enabled` leave `enabled` as it was
      and never start or stop the refresh loop, whatever they do to `status`. */
  lemma {:induction false} RunAwayFromEnabledLeavesLoop(c: Control, inputs: seq<Input>)
    decreases |inputs|
    requires forall i :: 0 <= i < |inputs| ==> inputs[i].channel != ControlEnabled
    ensures Run(c, inputs).control.enabled == c.enabled
    ensures LoopSignals(Run(c, inputs).effects) == []
  {
    if inputs != [] {
      var first := Dispatch(c, inputs[0].channel, inputs[0].command);
      var rest := Run(first.control, inputs[1..]);
      RunAwayFromEnabledLeavesLoop(first.control, inputs[1..]);
      LoopSignalsAppend(first.effects, rest.effects);
    }
  }
}

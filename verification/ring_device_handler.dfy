/** The generic Ring device handler: it links itself to a device record of the
    device registry and handles the commands sent to its control channels,
    updating `status` and `enabled` in place. The framework calls it makes
    (updateState, refreshState, start and stop of the automatic refresh, debug
    logging) are recorded in a ghost trace; the refresh loop's own state is a
    ghost flag that only the start and stop calls change. */
module RingDeviceHandlers {
  import opened RingEffects
  import opened RingDispatch

  /** A device class, identified by its fully qualified name. */
  datatype DeviceClass = DeviceClass(name: string)

  /** Registration status of a device record in the registry. */
  datatype RegistrationStatus = Unknown | Configured

  datatype LinkError =
    | DeviceNotFound(id: string)
    | IllegalDeviceClass(expected: DeviceClass, found: DeviceClass)

  datatype Outcome = Pass | Fail(error: LinkError)

  /** A device record owned by the registry. Its class never changes; the
      handler sets its registration status and its back-reference. */
  class RingDevice {
    const deviceClass: DeviceClass
    var registrationStatus: RegistrationStatus
    var ringDeviceHandler: RingDeviceHandler?
  }

  class RingDeviceHandler {
    var status: OnOffType
    var enabled: OnOffType
    /** The device record linked to this handler. */
    var device: RingDevice?

    /** Framework calls made by this handler, oldest first. */
    ghost var trace: seq<Effect>
    /** Whether the automatic refresh loop is running. */
    ghost var refreshRunning: bool

    function ControlValues(): Control
      reads this
    {
      Control(status, enabled)
    }

    /** The refresh loop runs exactly when `enabled` is ON. */
    ghost predicate RefreshInSync()
      reads this
    {
      refreshRunning == (enabled == ON)
    }

    /** linkDevice: look the id up in the registry, remember the record, and
        mark it CONFIGURED and owned by this handler when its class is the
        expected one. */
    method LinkDevice(registry: map<string, RingDevice>, id: string, deviceClass: DeviceClass)
      returns (outcome: Outcome)
      modifies this`device, if id in registry then {registry[id]} else {}
      ensures id !in registry ==> outcome == Fail(DeviceNotFound(id)) && device == old(device)
      ensures id in registry ==> device == registry[id]
      ensures id in registry && registry[id].deviceClass == deviceClass ==>
        && outcome == Pass
        && registry[id].registrationStatus == Configured
        && registry[id].ringDeviceHandler == this
      ensures id in registry && registry[id].deviceClass != deviceClass ==>
        && outcome == Fail(IllegalDeviceClass(deviceClass, registry[id].deviceClass))
        && unchanged(registry[id])
      // a record already linked to this handler is left as it was: linking again changes nothing
      ensures id in registry && old(device) == registry[id]
        && old(registry[id].registrationStatus) == Configured && old(registry[id].ringDeviceHandler) == this
        ==> unchanged(this) && unchanged(registry[id])
    {
      if id !in registry {
        return Fail(DeviceNotFound(id));
      }
      device := registry[id];
      if device.deviceClass == deviceClass {
        device.registrationStatus := Configured;
        device.ringDeviceHandler := this;
        outcome := Pass;
      } else {
        outcome := Fail(IllegalDeviceClass(deviceClass, device.deviceClass));
      }
    }

    /** handleCommand: queries echo the addressed control value and refresh the
        state; on/off commands set `status`, or change `enabled` and start or
        stop the automatic refresh; anything else is only logged. */
    method HandleCommand(channel: string, command: Command)
      modifies this`status, this`enabled, this`trace, this`refreshRunning
      ensures ControlValues() == Dispatch(old(ControlValues()), channel, command).control
      ensures trace == old(trace) + Dispatch(old(ControlValues()), channel, command).effects
      ensures refreshRunning == RunningAfter(old(refreshRunning), LoopSignals(Dispatch(old(ControlValues()), channel, command).effects))
      ensures old(RefreshInSync()) ==> RefreshInSync()
    {
      if IsQuery(command) {
        if channel == ControlStatus {
          UpdateState(channel, status);
        } else if channel == ControlEnabled {
          UpdateState(channel, enabled);
        } else {
          LogDebug(UnknownChannel(channel));
        }
        RefreshState();
      } else if command.OnOff? {
        var value := command.value;
        if channel == ControlStatus {
          status := value;
          UpdateState(channel, status);
        } else if channel == ControlEnabled {
          if enabled != value {
            enabled := value;
            UpdateState(channel, enabled);
            if enabled == ON {
              StartAutomaticRefresh();
            } else {
              StopAutomaticRefresh();
            }
          }
        } else {
          LogDebug(UnknownChannel(channel));
        }
      } else {
        LogDebug(UnsupportedCommand(command, channel));
      }
    }

    /** Publish a channel's state to the framework. */
    method UpdateState(channel: string, state: OnOffType)
      modifies this`trace
      ensures trace == old(trace) + [StateUpdated(channel, state)]
    {
      trace := trace + [StateUpdated(channel, state)];
    }

    /** Re-publish the whole state of the device. */
    method RefreshState()
      modifies this`trace
      ensures trace == old(trace) + [StateRefreshed]
    {
      trace := trace + [StateRefreshed];
    }

    method StartAutomaticRefresh()
      modifies this`trace, this`refreshRunning
      ensures trace == old(trace) + [RefreshStarted] && refreshRunning
    {
      trace := trace + [RefreshStarted];
      refreshRunning := true;
    }

    method StopAutomaticRefresh()
      modifies this`trace, this`refreshRunning
      ensures trace == old(trace) + [RefreshStopped] && !refreshRunning
    {
      trace := trace + [RefreshStopped];
      refreshRunning := false;
    }

    method LogDebug(entry: Effect)
      requires entry.UnknownChannel? || entry.UnsupportedCommand?
      modifies this`trace
      ensures trace == old(trace) + [entry]
    {
      trace := trace + [entry];
    }
  }
}

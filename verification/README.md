# Ring device handler: command dispatch and device linking

A model of `RingDeviceHandler` from the openHAB Ring binding. This is the
generic handler shared by every Ring device. It has two jobs:

- **Linking.** It looks up a device record by id in the device registry,
  checks that the record is of the expected class, then marks the record
  CONFIGURED and points the record's handler reference back at itself.
- **Command handling.** It handles commands sent to its two control channels,
  the status channel and the enabled channel (written `control-status` and
  `control-enabled` below). Three kinds of command are possible:
  - Query commands (numbers, refresh, increase/decrease, up/down) echo the
    current value and refresh the state.
  - On/off commands set `status`, or change `enabled` and start or stop the
    automatic refresh loop.
  - Every other command is only logged.

The model has three parts:

- `ring_effects.dfy` (module `RingEffects`) defines the on/off state, the
  commands, and the framework calls the handler makes, called effects. It also
  has observers that pick out parts of an effect trace:
  - `LoopSignals`: the start and stop signals sent to the refresh loop;
  - `Published`: the values sent through `updateState`;
  - `RefreshCount`: how many times `refreshState` was called;
  - `Diagnostics`: the debug log entries.

  Beside them are `RunningAfter`, whether the loop is running after some
  signals, and `Alternates`, which says no signal is redundant.
- `ring_dispatch.dfy` (module `RingDispatch`) describes `handleCommand` as a
  pure state machine over `Control(status, enabled)`. `Dispatch` returns the new
  control values and the effects fired, in order. `Run` handles a sequence of
  commands one after another. Lemmas about `Run` state what holds over any
  sequence of commands.
- `ring_device_handler.dfy` (module `RingDeviceHandlers`) holds the classes:
  - `RingDevice` is the device record. Its class is constant; its registration
    status and handler reference can be set.
  - `RingDeviceHandler` has the fields `status`, `enabled` and `device`, and the
    methods `LinkDevice` and `HandleCommand`, which update those fields in
    place.

  `status` and `enabled` are inherited fields in the source. Here the class
  declares them itself. The calls into the base class and the framework
  append to a ghost `trace`. A ghost flag, `refreshRunning`, stands for the
  refresh loop's state; only the start and stop calls change it.
  `HandleCommand` is proved against `Dispatch`.

Java's run-time class comparison becomes equality of `DeviceClass` values,
each named by its class. The registry singleton becomes a
`map<string, RingDevice>` passed to `LinkDevice`. The two exceptions become
`Fail(DeviceNotFound(id))` and `Fail(IllegalDeviceClass(expected, found))`.
The channel ids are the binding constants `CHANNEL_CONTROL_STATUS` and
`CHANNEL_CONTROL_ENABLED`. `RingBindingConstants`, which defines them, is not
part of this model. The strings `"control-status"` and `"control-enabled"` at
ring_effects.dfy:21-22 are stand-ins, not the real ids. Only their being
distinct matters, and Java's `switch` rejects duplicate case labels, so the
real constants are distinct too.

`linkDevice` assigns `device` before the class check
(RingDeviceHandler.java:52-53). So after a mismatch the handler still holds
the wrongly typed record. The model follows the code (ring_device_handler.dfy:62).

## Model

| member | source | states |
|---|---|---|
| `RingDispatch.Echo` | src/main/java/org/openhab/binding/ring/handler/RingDeviceHandler.java:67-80 | A query command never changes `status` or `enabled`. On `control-status` it publishes the current `status`, and on `control-enabled` the current `enabled`. On any other channel it publishes nothing and logs the unknown channel. In every case `refreshState` is called exactly once, as the last effect, and the refresh loop is neither started nor stopped. |
| `RingDispatch.Switch` | src/main/java/org/openhab/binding/ring/handler/RingDeviceHandler.java:81-102 | An on/off command on `control-status` sets `status` to the value and publishes it; `enabled` and the loop are untouched. On `control-enabled`, a value equal to the current `enabled` has no effect at all. A different value sets `enabled`, publishes it first, then sends exactly one loop signal: start for ON, stop for OFF. An unknown channel changes nothing, publishes nothing and logs the channel. No on/off command calls `refreshState`. |
| `RingDispatch.Dispatch` | src/main/java/org/openhab/binding/ring/handler/RingDeviceHandler.java:66-106 | Only on/off commands change state. `status` changes only through `control-status`. `enabled` and the loop change only through `control-enabled`. `refreshState` is called once for a query command and never otherwise. An unsupported command only logs the command and the channel. If the loop was running exactly when `enabled` was ON, that still holds afterwards, and no loop signal repeats the loop's current state. |
| `RingDispatch.RunControlIsLastSet` | src/main/java/org/openhab/binding/ring/handler/RingDeviceHandler.java:81-98 | After any sequence of commands, `status` and `enabled` each hold the value of the last on/off command sent to their channel, or their starting value if there was none. |
| `RingDispatch.RunKeepsLoopInSync` | src/main/java/org/openhab/binding/ring/handler/RingDeviceHandler.java:88-97 | Over any sequence of commands, if the refresh loop ran exactly when `enabled` was ON at the start, it does so at the end. |
| `RingDispatch.RunSignalsAlternate` | src/main/java/org/openhab/binding/ring/handler/RingDeviceHandler.java:89-96 | Over any sequence of commands that starts with the loop in step with `enabled`, each start or stop signal flips the loop. The loop is never started while running nor stopped while stopped. |
| `RingDispatch.RunWithoutOnOffKeepsControl` | src/main/java/org/openhab/binding/ring/handler/RingDeviceHandler.java:66-106 | A sequence of query or unsupported commands, with no on/off command, leaves `status` and `enabled` as they were and sends no loop signal. It calls `refreshState` once per query command in it. |
| `RingDispatch.RunAwayFromEnabledLeavesLoop` | src/main/java/org/openhab/binding/ring/handler/RingDeviceHandler.java:83-97 | Commands that never address `control-enabled` leave `enabled` unchanged and never start or stop the loop, whatever they do to `status`. |
| `RingDeviceHandlers.RingDeviceHandler.LinkDevice` | src/main/java/org/openhab/binding/ring/handler/RingDeviceHandler.java:42-60 | An id missing from the registry fails with `DeviceNotFound`, and the handler's `device` is unchanged. For any id found, `device` becomes the record. If the record's class is the expected one, the call passes and the record ends up CONFIGURED with its handler reference set to this handler. That end state does not depend on the earlier one, so a second call changes nothing. If the class differs, the call fails with `IllegalDeviceClass(expected, found)` and the record is unchanged. Only `device` and that one record can be modified. |
| `RingDeviceHandlers.RingDeviceHandler.HandleCommand` | src/main/java/org/openhab/binding/ring/handler/RingDeviceHandler.java:62-106 | The new `status` and `enabled` are those given by `Dispatch`. The framework calls made are exactly `Dispatch`'s effects, in order, and the loop's state follows its signals. The invariant "refresh loop running exactly when `enabled` is ON" is preserved. `device` is untouched. |

## Left out

- Logging: the debug messages are recorded as `UnknownChannel` and
  `UnsupportedCommand` trace entries. Their text and the logger are not
  modelled.
- `updateState`, `refreshState`, `startAutomaticRefresh` and
  `stopAutomaticRefresh` belong to `AbstractRingHandler` and the openHAB
  framework, which are not part of this model. Each is modelled only as a
  trace entry. Start and stop also set the ghost loop flag. Scheduling and
  threads are not modelled.
- `RingDeviceRegistry`, and how it is populated, are not part of this model.
  It appears only as a map from id to record. The source uses only the CONFIGURED
  value of its status enum (line 54). `Configured` models that value. `Unknown` is
  an invented stand-in for every other value; the real enum is not part of this
  model.
- Java reflection: the class comparison uses `DeviceClass` names. The
  exception message text is replaced by the two classes carried in the error.
- The constructor and the Thing/ChannelUID lifecycle are framework plumbing.
  The initial values of `status` and `enabled` are set by `AbstractRingHandler`,
  which is not part of this model. Every contract therefore holds for any
  starting state.
- Numeric and adjustment command payloads: query commands are only echoed,
  so `Number`, `IncreaseDecrease` and `UpDown` carry no value or direction.
- Null references: a null channel id, a null `enabled` or a null record from
  the registry would throw a NullPointerException in Java. The model has no
  nulls there.
- Concurrency: the model assumes that commands reach one handler one at a
  time; nothing in the modelled source shows how the framework delivers them.
  `Run` models this sequential delivery. Locking and interleaving are not
  modelled.

# GPIO channels: a Dafny model

This project models a small GPIO abstraction layer with two variants of the
same channels:

- a **mock** variant (`gpio/mock.py`, module `Mock`), where a channel's
  logical level is a stored flag that tests set directly;
- a **hardware** variant (`gpio/rpi.py`, module `Rpi`), written against the
  RPi.GPIO driver, which is modelled here as a fake that records what it is
  told (module `RpiGpio`).

An **output channel** keeps a cached level equal to the last level it wrote.
An **input channel** keeps an ordered **callback registry** that admits
duplicates (module `Registry`). Registering appends to it. Deregistering
removes the first equal entry, or fails with `GpioError` and leaves the
registry as it was. On activation the channel **fans out**: it calls every
entry once, in list order. Each call is modelled as appending the callback to
a `fired` log.

In the hardware variant, the logical level of an input is the raw level read
at call time, inverted when the input is active low. The constructor picks its
settings from the polarity: a pull-up resistor and a falling-edge subscription
when the input is active low, a pull-down and a rising edge otherwise, always
with a 200 ms debounce window. The subscribed handler is a `CallbackManager`
object (module `RpiCallbacks`). It is the same object that registration
changes, so an edge calls exactly the callbacks registered at that moment.

Callbacks are a type parameter with equality, `C(==)`. This matches Python's
`list.remove`, which compares with `==`.

Points worth noting about the code:
- the hardware output's `activate`/`deactivate` return nothing; the mock
  versions return the new level;
- fan-out catches nothing, so a failing callback would stop the ones after it;
- the registry has no lock, and fan-out walks the live list without taking a
  snapshot;
- the error raised for a missing callback is `GpioError`.

Module `Scenarios` drives the channels through whole sequences (output
low/high/low; an active-low button press and release; a registry change
between two edges; a duplicate registration). Each outcome is derived from
the channel contracts alone.

## Model

| member | source | states |
|---|---|---|
| Registry.FirstIndex | gpio/mock.py:71 | the index found holds the callback and no earlier entry equals it |
| Registry.RemoveFirst | gpio/mock.py:71 | the result is the list with the entry at the first matching index deleted; every other entry keeps its relative order and the length drops by one |
| Registry.RemoveFirstRemovesOne | gpio/rpi.py:102 | removal takes away exactly one occurrence of the callback and leaves the count of every other callback unchanged |
| Registry.DeregisterUndoesRegister | gpio/mock.py:60-74 | deregistering a callback that was not registered before being appended restores the registry exactly |
| Registry.RegisterDeregisterSameMembers | gpio/rpi.py:91-105 | register followed by deregister of the same callback leaves the same callbacks with the same counts, even when it was already registered |
| Registry.DuplicateSurvivesOneDeregister | gpio/mock.py:71 | a callback registered at least twice is still registered after one deregistration |
| Mock.OutputChannel.State | gpio/mock.py:19 | returns the stored level without changing anything |
| Mock.OutputChannel.Activate | gpio/mock.py:14-19 | the level becomes true and the new level is returned; nothing else changes |
| Mock.OutputChannel.Deactivate | gpio/mock.py:21-26 | the level becomes false and the new level is returned; nothing else changes |
| Mock.InputChannel.constructor | gpio/mock.py:34-47 | a new input keeps its pin and polarity, is inactive, has no callbacks and has invoked none |
| Mock.InputChannel.State | gpio/mock.py:49-58 | returns the stored flag without changing anything |
| Mock.InputChannel.RegisterCallback | gpio/mock.py:60-64 | the callback is appended at the end; earlier entries, the level and the log are unchanged |
| Mock.InputChannel.DeregisterCallback | gpio/mock.py:66-74 | succeeds exactly when the callback is registered, then removes its first occurrence; otherwise reports GpioError with the registry unchanged; the level never changes |
| Mock.InputChannel.Activate | gpio/mock.py:76-85 | the level becomes true and every registered entry is invoked once in registration order, whatever the previous level; the registry is unchanged |
| Mock.InputChannel.Deactivate | gpio/mock.py:87-95 | the level becomes false; no callback is invoked and the registry is unchanged |
| Mock.InputChannel.InvokeCallbacks | gpio/mock.py:97-99 | the log grows by exactly the current callback list, in order |
| RpiCallbacks.CallbackManager.constructor | gpio/rpi.py:51-52 | a new manager has an empty list and has invoked nothing |
| RpiCallbacks.CallbackManager.Call | gpio/rpi.py:54-56 | the log grows by exactly the list present at the call, once each and in list order; the list is unchanged |
| RpiGpio.EdgeBetween | gpio/rpi.py:72-76 | a low-to-high change is a rising edge, high-to-low a falling edge, no change no edge |
| RpiGpio.FakeGpio.Setup | gpio/rpi.py:22 | records the pin's direction and pull and appends the setup call to the call log |
| RpiGpio.FakeGpio.Output | gpio/rpi.py:29 | records the level as the pin's last written one and appends the output call to the call log |
| RpiGpio.FakeGpio.AddEventDetect | gpio/rpi.py:72-76 | records the pin's subscription (edge, handler object, bouncetime) and appends the call to the call log |
| RpiGpio.FakeGpio.Input | gpio/rpi.py:87 | the driver reads 1 for a high pin and 0 for a low one; an undriven pin is at its pull resistor's level |
| RpiGpio.FakeGpio.Drive | gpio/rpi.py:72-76 | when a pin changes on its subscribed edge, the subscribed handler is called once; on any other change it is not called |
| Rpi.PullFor | gpio/rpi.py:70-71 | the pull is up if and only if the input is active low, down otherwise |
| Rpi.TriggerEdge | gpio/rpi.py:72-74 | the edge is falling if and only if the input is active low, rising otherwise |
| Rpi.LogicalLevel | gpio/rpi.py:88 | the logical level is the raw signal exclusive-or the polarity |
| Rpi.TriggerEdgeIsActivation | gpio/rpi.py:70-76 | a raw change is the subscribed edge if and only if it takes the input from logically inactive to logically active |
| Rpi.OutputChannel.Valid | gpio/rpi.py:29-37 | the cached level is true exactly when the last level written to the pin is 1, and false exactly when it is 0 |
| Rpi.OutputChannel.constructor | gpio/rpi.py:13-23 | the pin is set up as an output and then written 0, in that order; the cached level is false and agrees with the pin |
| Rpi.OutputChannel.State | gpio/rpi.py:25-37 | returns the cached level without a driver call |
| Rpi.OutputChannel.Activate | gpio/rpi.py:25-30 | writes 1 to the pin and caches true, keeping the cached level equal to the last written one |
| Rpi.OutputChannel.Deactivate | gpio/rpi.py:32-37 | writes 0 to the pin and caches false, keeping the cached level equal to the last written one |
| Rpi.InputChannel.Valid | gpio/rpi.py:69-76 | the driver's subscription for the pin is this channel's own manager, on the activating edge, with the 200 ms window |
| Rpi.InputChannel.constructor | gpio/rpi.py:44-76 | sets the pin up as an input, pulled up if and only if active low, then subscribes a fresh empty manager on the falling edge if and only if active low, with the 200 ms window; an undriven pin then reads logically inactive |
| Rpi.InputChannel.State | gpio/rpi.py:78-89 | returns the raw level read now, exclusive-or the polarity; nothing is cached or changed |
| Rpi.InputChannel.RegisterCallback | gpio/rpi.py:91-95 | appends the callback to the manager's list, changes nothing else and keeps the subscription invariant |
| Rpi.InputChannel.DeregisterCallback | gpio/rpi.py:97-105 | succeeds exactly when the callback is registered, then removes its first occurrence; otherwise reports GpioError with the list unchanged; the subscription invariant is kept |
| Rpi.PinChange | gpio/rpi.py:54-76 | for a valid input, a pin change runs the callbacks registered at that moment, once each in order, exactly when it takes the input from logically inactive to logically active; any other change runs none |
| Scenarios.OutputSequence | gpio/rpi.py:13-37 | a new output reads false, then true after activate, then false after deactivate; the driver saw setup, 0, 1, 0, and last holds 0 |
| Scenarios.ActiveLowInputSequence | gpio/rpi.py:58-105 | for an active-low input, which idles inactive, a falling edge invokes the callback once, the release invokes nothing, and after deregistering a further press invokes nothing; the polled levels are inactive, active, inactive |
| Scenarios.DispatchSeesLiveRegistry | gpio/rpi.py:46-105 | an edge invokes the callbacks registered at that moment, so a deregistration between two edges shows in the second fan-out; deregistering twice fails the second time |
| Scenarios.MockInputSequence | gpio/mock.py:60-99 | a callback registered twice fires twice per activation, activating an active input fires again, and deactivating fires nothing |

## Left out

- The `stage.iointerface` base classes and the `gpio.error` module are not part of this model. From them the model assumes only that channels keep their pin, polarity, driver and cached level, and that an output's `state` returns the cached level.
- Mock.OutputChannel.constructor: the mock output has no constructor of its own, so nothing is promised about its level before the first `activate` or `deactivate`.
- The mock input's `gpio` argument is passed only to the base class; the model's mock constructor does not take it.
- RPi.GPIO internals are modelled only as the fake driver `RpiGpio.FakeGpio`. Its setup calls never fail, so configuration errors are not modelled. A pin nothing has driven reads at the level of its pull resistor (high when pulled up, low otherwise); nothing else about pull resistors is modelled.
- RpiGpio.FakeGpio.Drive: debounce suppression is left out; every qualifying edge calls the handler. Only the 200 ms window requested at subscription is modelled.
- Concurrency between interrupt-context dispatch and registry changes is left out. Calls are strictly sequential. Re-entrant changes to the list while a fan-out iterates it are not modelled.
- A callback that raises during fan-out stops the fan-out in the code. The model's callbacks cannot fail, so this is not modelled; no isolation between callbacks is claimed.
- The arguments passed to callbacks (`(args, kwargs)` in the hardware variant, none in the mock) are not recorded; the log holds only which callback was called.
- The text of the `GpioError` message and any logging are not modelled.
- `setup.py` holds packaging metadata only.

/**
 * The hardware-backed channels, written against the RPi.GPIO driver
 * (here the fake of module RpiGpio). An input's logical level is the raw
 * level read at call time, inverted when the input is active low.
 */
module Rpi {
  import opened Wrappers
  import opened Registry
  import opened RpiCallbacks
  import opened RpiGpio

  /** The debounce window requested for every input, in milliseconds. */
  const DebounceMs := 200

  /** The pull resistor an input is configured with. */
  function PullFor(activeLow: bool): (p: Pull)
    ensures p == PudUp <==> activeLow
    ensures p == PudDown <==> !activeLow
  {
    if activeLow then PudUp else PudDown
  }

  /** The edge an input subscribes on. */
  function TriggerEdge(activeLow: bool): (e: Edge)
    ensures e == Falling <==> activeLow
    ensures e == Rising <==> !activeLow
  {
    if activeLow then Falling else Rising
  }

  /** The logical level of an input whose raw signal is `signal`: the signal
      itself, inverted when the input is active low. */
  function LogicalLevel(signal: bool, activeLow: bool): (level: bool)
    ensures level <==> signal != activeLow
  {
    if activeLow then !signal else signal
  }

  /** The subscribed edge is exactly a change from logically inactive to
      logically active. */
  lemma TriggerEdgeIsActivation(activeLow: bool, before: bool, after: bool)
    ensures EdgeBetween(before, after) == Some(TriggerEdge(activeLow))
        <==> !LogicalLevel(before, activeLow) && LogicalLevel(after, activeLow)
  {
  }

  /** An output channel that caches the last level it wrote. */
  class OutputChannel<C(==)> {
    const pin: int
    const gpio: FakeGpio<C>
    var state: bool

    /** The cached level agrees with what was last written to the pin. */
    ghost predicate Valid()
      reads this, gpio
    {
      pin in gpio.written && gpio.written[pin] == (if state then 1 else 0)
    }

    /** Configures the pin as an output, then drives it low. */
    constructor (pin: int, gpio: FakeGpio<C>)
      modifies gpio
      ensures this.pin == pin && this.gpio == gpio
      ensures !state && Valid()
      ensures gpio.direction == old(gpio.direction)[pin := Out]
      ensures gpio.pull == old(gpio.pull)[pin := PudOff]
      ensures gpio.written == old(gpio.written)[pin := 0]
      ensures gpio.calls == old(gpio.calls) + [DriverCall.Setup(pin, Out, PudOff), DriverCall.Output(pin, 0)]
      ensures gpio.high == old(gpio.high) && gpio.subscriptions == old(gpio.subscriptions)
    {
      this.pin := pin;
      this.gpio := gpio;
      new;
      gpio.Setup(pin, Out, PudOff);
      Deactivate();
    }

    /** The cached level; no driver call is made. */
    method State() returns (level: bool)
      ensures level == state
    {
      level := state;
    }

    /** Writes 1 to the pin, then records the level as high. */
    method Activate()
      modifies this`state, gpio`written, gpio`calls
      ensures state && Valid()
      ensures gpio.written == old(gpio.written)[pin := 1]
      ensures gpio.calls == old(gpio.calls) + [DriverCall.Output(pin, 1)]
    {
      gpio.Output(pin, 1);
      state := true;
    }

    /** Writes 0 to the pin, then records the level as low. */
    method Deactivate()
      modifies this`state, gpio`written, gpio`calls
      ensures !state && Valid()
      ensures gpio.written == old(gpio.written)[pin := 0]
      ensures gpio.calls == old(gpio.calls) + [DriverCall.Output(pin, 0)]
    {
      gpio.Output(pin, 0);
      state := false;
    }
  }

  /** An input channel whose callbacks live in a manager object that is
      subscribed with the driver for the pin's activating edge. */
  class InputChannel<C(==)> {
    const pin: int
    const activeLow: bool
    const gpio: FakeGpio<C>
    const manager: CallbackManager<C>

    /** The driver's subscription for the pin is the one the constructor made:
        this channel's manager, on the activating edge, with the 200 ms window. */
    ghost predicate Valid()
      reads this, gpio
    {
      pin in gpio.subscriptions && gpio.subscriptions[pin] == Subscription(TriggerEdge(activeLow), manager, DebounceMs)
    }

    /** Configures the pin as an input, pulled up when active low and down
        otherwise, and subscribes a new, empty manager on the falling edge
        when active low and the rising edge otherwise, with a 200 ms
        debounce window. */
    constructor (pin: int, activeLow: bool, gpio: FakeGpio<C>)
      modifies gpio
      ensures this.pin == pin && this.activeLow == activeLow && this.gpio == gpio
      ensures fresh(manager) && manager.callbacks == [] && manager.fired == []
      ensures Valid()
      ensures gpio.direction == old(gpio.direction)[pin := In]
      ensures gpio.pull == old(gpio.pull)[pin := PullFor(activeLow)]
      ensures gpio.subscriptions == old(gpio.subscriptions)[pin := Subscription(TriggerEdge(activeLow), manager, DebounceMs)]
      ensures gpio.calls == old(gpio.calls) + [DriverCall.Setup(pin, In, PullFor(activeLow)),
                                               DriverCall.AddEventDetect(pin, TriggerEdge(activeLow), DebounceMs)]
      ensures gpio.written == old(gpio.written) && gpio.high == old(gpio.high)
      ensures pin !in old(gpio.high) ==> !LogicalLevel(gpio.IsHigh(pin), activeLow)
    {
      this.pin := pin;
      this.activeLow := activeLow;
      this.gpio := gpio;
      manager := new CallbackManager();
      new;
      gpio.Setup(pin, In, if activeLow then PudUp else PudDown);
      gpio.AddEventDetect(pin, if activeLow then Falling else Rising, manager, DebounceMs);
    }

    /** Reads the pin now and corrects for polarity; nothing is cached. */
    method State() returns (level: bool)
      ensures level == LogicalLevel(gpio.IsHigh(pin), activeLow)
    {
      var raw := gpio.Input(pin);
      var signal := raw != 0;
      level := if activeLow then !signal else signal;
    }

    /** Appends `callback` to the manager's list. */
    method RegisterCallback(callback: C)
      modifies manager`callbacks
      ensures manager.callbacks == old(manager.callbacks) + [callback]
      ensures Valid() <==> old(Valid())
    {
      manager.callbacks := manager.callbacks + [callback];
    }

    /** Removes the first registration of `callback` from the manager's
        list, or reports GpioError and leaves the list as it was. */
    method DeregisterCallback(callback: C) returns (outcome: Outcome)
      modifies manager`callbacks
      ensures Valid() <==> old(Valid())
      ensures outcome == Ok <==> callback in old(manager.callbacks)
      ensures outcome == Ok ==> manager.callbacks == RemoveFirst(old(manager.callbacks), callback)
      ensures outcome == GpioError ==> manager.callbacks == old(manager.callbacks)
    {
      if callback in manager.callbacks {
        manager.callbacks := RemoveFirst(manager.callbacks, callback);
        outcome := Ok;
      } else {
        outcome := GpioError;
      }
    }
  }

  /** The pin of a valid input changes to `level`. The driver then calls the
      channel's manager, which fans out to the callbacks registered at that
      moment, exactly when the change takes the input from logically inactive
      to logically active; on any other change no callback runs. */
  method PinChange<C(==)>(input: InputChannel<C>, level: bool)
    requires input.Valid()
    modifies input.gpio`high, input.manager`fired
    ensures input.Valid()
    ensures input.gpio.high == old(input.gpio.high)[input.pin := level]
    ensures !LogicalLevel(old(input.gpio.IsHigh(input.pin)), input.activeLow) && LogicalLevel(level, input.activeLow) ==>
      input.manager.fired == old(input.manager.fired) + input.manager.callbacks
    ensures !(!LogicalLevel(old(input.gpio.IsHigh(input.pin)), input.activeLow) && LogicalLevel(level, input.activeLow)) ==>
      input.manager.fired == old(input.manager.fired)
  {
    TriggerEdgeIsActivation(input.activeLow, input.gpio.IsHigh(input.pin), level);
    input.gpio.Drive(input.pin, level);
  }
}

/**
 * The in-memory channels used in place of hardware: the logical level of
 * each channel is a stored flag that tests set directly, and an input
 * channel fans out to its callbacks when it is activated.
 */
module Mock {
  import opened Registry

  /** An output channel whose level is only a flag. */
  class OutputChannel {
    const pin: int
    var state: bool

    /** The channel base class sets up the pin; what it leaves in the flag
        is not part of this model, so nothing is promised about it. */
    constructor (pin: int)
      ensures this.pin == pin
    {
      this.pin := pin;
    }

    /** The current logical level. */
    method State() returns (level: bool)
      ensures level == state
    {
      level := state;
    }

    /** Sets the output high and returns the new level. */
    method Activate() returns (level: bool)
      modifies this`state
      ensures state && level == state
    {
      state := true;
      level := state;
    }

    /** Sets the output low and returns the new level. */
    method Deactivate() returns (level: bool)
      modifies this`state
      ensures !state && level == state
    {
      state := false;
      level := state;
    }
  }

  /** An input channel whose level tests set directly. `fired` records every
      callback invocation, oldest first. */
  class InputChannel<C(==)> {
    const pin: int
    const activeLow: bool
    var state: bool
    var callbacks: seq<C>
    var fired: seq<C>

    /** A new input is inactive and has no callbacks. */
    constructor (pin: int, activeLow: bool)
      ensures this.pin == pin && this.activeLow == activeLow
      ensures !state && callbacks == [] && fired == []
    {
      this.pin := pin;
      this.activeLow := activeLow;
      state := false;
      callbacks := [];
      fired := [];
    }

    /** The stored logical level; reading it changes nothing. */
    method State() returns (level: bool)
      ensures level == state
    {
      level := state;
    }

    /** Appends `callback`; a callback registered twice is kept twice. */
    method RegisterCallback(callback: C)
      modifies this`callbacks
      ensures callbacks == old(callbacks) + [callback]
    {
      callbacks := callbacks + [callback];
    }

    /** Removes the first registration of `callback`, or reports GpioError
        and leaves the registry as it was when there is none. */
    method DeregisterCallback(callback: C) returns (outcome: Outcome)
      modifies this`callbacks
      ensures outcome == Ok <==> callback in old(callbacks)
      ensures outcome == Ok ==> callbacks == RemoveFirst(old(callbacks), callback)
      ensures outcome == GpioError ==> callbacks == old(callbacks)
    {
      if callback in callbacks {
        callbacks := RemoveFirst(callbacks, callback);
        outcome := Ok;
      } else {
        outcome := GpioError;
      }
    }

    /** Sets the level to true and invokes every registered callback once,
        in registration order; whether the input was already active makes
        no difference. */
    method Activate()
      modifies this`state, this`fired
      ensures state
      ensures fired == old(fired) + callbacks
    {
      state := true;
      InvokeCallbacks();
    }

    /** Sets the level to false; no callback is invoked. */
    method Deactivate()
      modifies this`state
      ensures !state
    {
      state := false;
    }

    /** Invokes the callbacks present now, one after another in list order. */
    method InvokeCallbacks()
      modifies this`fired
      ensures fired == old(fired) + callbacks
    {
      for i := 0 to |callbacks|
        invariant fired == old(fired) + callbacks[..i]
      {
        fired := fired + [callbacks[i]];
      }
    }
  }
}

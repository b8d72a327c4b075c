/**
 * A fake of the RPi.GPIO driver that the hardware channels talk to. It keeps,
 * per pin, the configured direction and pull resistor, the last level written,
 * the electrical level present on the pin and the edge subscription, and it
 * records configuration and output calls in the order they were made.
 */
module RpiGpio {
  import opened Wrappers
  import opened RpiCallbacks

  datatype Direction = In | Out

  /** PudOff is what the driver uses when setup is given no pull argument. */
  datatype Pull = PudOff | PudUp | PudDown

  datatype Edge = Rising | Falling

  /** The handler object and parameters given to add_event_detect. */
  datatype Subscription<C(==)> = Subscription(edge: Edge, handler: CallbackManager<C>, bouncetime: int)

  datatype DriverCall =
    | Setup(pin: int, direction: Direction, pull: Pull)
    | Output(pin: int, level: int)
    | AddEventDetect(pin: int, edge: Edge, bouncetime: int)

  /** The edge, if any, of an electrical change from `before` to `after`. */
  function EdgeBetween(before: bool, after: bool): (e: Option<Edge>)
    ensures e == Some(Rising) <==> !before && after
    ensures e == Some(Falling) <==> before && !after
    ensures e == None <==> before == after
  {
    if before == after then None
    else if after then Some(Rising)
    else Some(Falling)
  }

  class FakeGpio<C(==)> {
    var direction: map<int, Direction>
    var pull: map<int, Pull>
    var written: map<int, int>
    var high: map<int, bool>
    var subscriptions: map<int, Subscription<C>>
    var calls: seq<DriverCall>

    constructor ()
      ensures direction == map[] && pull == map[] && written == map[]
      ensures high == map[] && subscriptions == map[] && calls == []
    {
      direction, pull, written := map[], map[], map[];
      high, subscriptions, calls := map[], map[], [];
    }

    /** The electrical level on `pin`. A pin nothing has driven sits at the
        level of its pull resistor: high when pulled up, low otherwise. */
    function IsHigh(pin: int): bool
      reads this
    {
      if pin in high then high[pin] else pin in pull && pull[pin] == PudUp
    }

    method Setup(pin: int, dir: Direction, pud: Pull)
      modifies this`direction, this`pull, this`calls
      ensures direction == old(direction)[pin := dir]
      ensures pull == old(pull)[pin := pud]
      ensures calls == old(calls) + [DriverCall.Setup(pin, dir, pud)]
    {
      direction := direction[pin := dir];
      pull := pull[pin := pud];
      calls := calls + [DriverCall.Setup(pin, dir, pud)];
    }

    method Output(pin: int, level: int)
      modifies this`written, this`calls
      ensures written == old(written)[pin := level]
      ensures calls == old(calls) + [DriverCall.Output(pin, level)]
    {
      written := written[pin := level];
      calls := calls + [DriverCall.Output(pin, level)];
    }

    /** Reads the pin as the driver does: 1 for high, 0 for low. */
    method Input(pin: int) returns (level: int)
      ensures level == if IsHigh(pin) then 1 else 0
    {
      level := if IsHigh(pin) then 1 else 0;
    }

    method AddEventDetect(pin: int, edge: Edge, handler: CallbackManager<C>, bouncetime: int)
      modifies this`subscriptions, this`calls
      ensures subscriptions == old(subscriptions)[pin := Subscription(edge, handler, bouncetime)]
      ensures calls == old(calls) + [DriverCall.AddEventDetect(pin, edge, bouncetime)]
    {
      subscriptions := subscriptions[pin := Subscription(edge, handler, bouncetime)];
      calls := calls + [DriverCall.AddEventDetect(pin, edge, bouncetime)];
    }

    /** The outside world drives `pin` to `level`. When that is the edge the
        pin is subscribed on, the driver calls the subscribed handler once
        (every such edge is accepted: debounce suppression is not modelled). */
    method Drive(pin: int, level: bool)
      modifies this`high, (if pin in subscriptions then {subscriptions[pin].handler} else {})`fired
      ensures high == old(high)[pin := level]
      ensures pin in subscriptions && EdgeBetween(old(IsHigh(pin)), level) == Some(subscriptions[pin].edge) ==>
        subscriptions[pin].handler.fired == old(subscriptions[pin].handler.fired) + subscriptions[pin].handler.callbacks
      ensures pin in subscriptions && EdgeBetween(old(IsHigh(pin)), level) != Some(subscriptions[pin].edge) ==>
        subscriptions[pin].handler.fired == old(subscriptions[pin].handler.fired)
    {
      var before := IsHigh(pin);
      high := high[pin := level];
      if pin in subscriptions && EdgeBetween(before, level) == Some(subscriptions[pin].edge) {
        subscriptions[pin].handler.Call();
      }
    }
  }
}

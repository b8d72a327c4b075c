/**
 * The callback manager of the hardware input channel: the single object the
 * channel subscribes with the driver, holding the live list of callbacks.
 */
module RpiCallbacks {

  /** `fired` records every callback invocation, oldest first. */
  class CallbackManager<C(==)> {
    var callbacks: seq<C>
    var fired: seq<C>

    constructor ()
      ensures callbacks == [] && fired == []
    {
      callbacks := [];
      fired := [];
    }

    /** Called by the driver on an edge: invokes each callback present at
        that moment once, in list order, and leaves the list alone. */
    method Call()
      modifies this`fired
      ensures fired == old(fired) + callbacks
    {
      for i := 0 to |callbacks|
        invariant fired == old(fired) + callbacks[..i]
      {
        fired := fired + [callbacks[i]];
      }
    }
  }
}

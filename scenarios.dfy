/**
 * Client code that drives the channels through the sequences the system is
 * meant to support; each result is fixed by the channel contracts alone.
 */
module Scenarios {
  import opened Registry
  import RpiGpio
  import Rpi
  import Mock

  /** A hardware output starts low, goes high on activate and low again on
      deactivate, with the driver seeing setup, 0, 1, 0 in that order; the
      cached level and the last level written agree throughout. */
  method OutputSequence() returns (levels: seq<bool>, written: seq<RpiGpio.DriverCall>, last: int)
    ensures levels == [false, true, false]
    ensures last == 0
    ensures written == [RpiGpio.DriverCall.Setup(5, RpiGpio.Out, RpiGpio.PudOff), RpiGpio.DriverCall.Output(5, 0),
                        RpiGpio.DriverCall.Output(5, 1), RpiGpio.DriverCall.Output(5, 0)]
  {
    var gpio := new RpiGpio.FakeGpio<int>();
    var out := new Rpi.OutputChannel(5, gpio);
    var s0 := out.State();
    out.Activate();
    var s1 := out.State();
    out.Deactivate();
    var s2 := out.State();
    levels := [s0, s1, s2];
    written := gpio.calls;
    assert out.Valid();
    last := gpio.written[5];
  }

  /** An active-low hardware input on pin 3 with callback c: it idles
      inactive (pulled up), a falling edge invokes c once, the rising edge
      after it invokes nothing, and after c is deregistered a further
      falling edge invokes nothing. */
  method ActiveLowInputSequence<C(==)>(c: C) returns (fired: seq<C>, levels: seq<bool>)
    ensures fired == [c]
    ensures levels == [false, true, false]
  {
    var gpio := new RpiGpio.FakeGpio<C>();
    var input := new Rpi.InputChannel(3, true, gpio);
    input.RegisterCallback(c);
    var idle := input.State();
    gpio.Drive(3, false);
    var pressed := input.State();
    gpio.Drive(3, true);
    var released := input.State();
    var outcome := input.DeregisterCallback(c);
    assert outcome == Ok;
    gpio.Drive(3, false);
    fired := input.manager.fired;
    levels := [idle, pressed, released];
  }

  /** The manager the driver calls is the one registration changes: an edge
      invokes the callbacks registered at that moment, in order, and a
      second deregistration of the same callback fails. */
  method DispatchSeesLiveRegistry<C(==)>(a: C, b: C) returns (fired: seq<C>, failed: Outcome)
    requires a != b
    ensures fired == [a, b, b]
    ensures failed == GpioError
  {
    var gpio := new RpiGpio.FakeGpio<C>();
    var input := new Rpi.InputChannel(7, false, gpio);
    input.RegisterCallback(a);
    input.RegisterCallback(b);
    gpio.Drive(7, true);
    var outcome := input.DeregisterCallback(a);
    assert FirstIndex([a, b], a) == 0;
    assert input.manager.callbacks == [b];
    gpio.Drive(7, false);
    gpio.Drive(7, true);
    failed := input.DeregisterCallback(a);
    fired := input.manager.fired;
  }

  /** A mock input with c registered twice invokes it twice per activation,
      activating an active input fans out again, and deactivating invokes
      nothing. */
  method MockInputSequence<C(==)>(c: C) returns (fired: seq<C>, level: bool)
    ensures fired == [c, c, c, c]
    ensures !level
  {
    var input := new Mock.InputChannel<C>(3, false);
    input.RegisterCallback(c);
    input.RegisterCallback(c);
    input.Activate();
    input.Activate();
    input.Deactivate();
    fired := input.fired;
    level := input.State();
  }
}

/**
  A controller that drives LEDs through the digital pins of one Firmata
  board. It owns a fixed coordinate-to-pin dictionary and at most one board
  connection, opened lazily on the first write it has to make.
 */
module ArduinoController {
  import opened Device
  import opened PinMap

  /** The pin value written for an LED state (Python's int(on)). */
  function PinValue(on: bool): (v: int)
    ensures v == 0 || v == 1
    ensures v == 1 <==> on
  {
    if on then 1 else 0
  }

  /**
    The operations the hardware setup issues: for each pin in order, select
    output mode and then switch the pin off.
   */
  function InitOps(pins: seq<Pin>): seq<BoardOp>
  {
    if pins == [] then []
    else InitOps(pins[..|pins| - 1]) + [SetPinModeOp(pins[|pins| - 1], Output), DigitalWriteOp(pins[|pins| - 1], 0)]
  }

  /** The setup issues exactly two operations per pin, at fixed positions. */
  lemma {:induction false} InitOpsAt(pins: seq<Pin>)
    ensures |InitOps(pins)| == 2 * |pins|
    ensures forall k :: 0 <= k < |pins| ==>
      InitOps(pins)[2 * k] == SetPinModeOp(pins[k], Output) &&
      InitOps(pins)[2 * k + 1] == DigitalWriteOp(pins[k], 0)
  {
    if pins != [] {
      InitOpsAt(pins[..|pins| - 1]);
    }
  }

  /** An operation a controller may issue once its setup is complete. */
  ghost predicate RuntimeOp(lookup: PinLookup, op: BoardOp) {
    match op
    case DigitalWriteOp(p, v) => p in lookup.pins.Values && (v == 0 || v == 1)
    case ShutdownOp => true
    case SetPinModeOp(_, _) => false
  }

  /**
    The shape of every trace of an initialized controller's board: the
    complete setup first, then only writes of 0 or 1 to mapped pins and
    shutdowns.
   */
  ghost predicate TraceAfterInit(lookup: PinLookup, t: seq<BoardOp>) {
    var init := InitOps(PinValues(lookup));
    && |init| <= |t|
    && t[..|init|] == init
    && forall k :: |init| <= k < |t| ==> RuntimeOp(lookup, t[k])
  }

  class ArduinoFirmataController {
    /** The coordinate-to-pin dictionary given at construction. */
    const pinLookup: PinLookup
    /** The serial port of the board. */
    const device: string
    /** The board connection; null until the first initialization. */
    var initializedDevice: FirmataBoard?
    /** How many exit hooks this controller has registered for its shutdown. */
    var exitHooks: nat

    ghost function Repr(): set<object>
      reads this
    {
      if initializedDevice == null then {this} else {this, initializedDevice}
    }

    /**
      Uninitialized: no board and no exit hook. Ready: exactly one exit
      hook, a board on the configured port, and a well-formed trace.
     */
    ghost predicate Valid()
      reads this, Repr()
    {
      if initializedDevice == null then exitHooks == 0
      else
        && exitHooks == 1
        && initializedDevice.comPort == device
        && TraceAfterInit(pinLookup, initializedDevice.trace)
    }

    /** Everything issued on this controller's board so far. */
    ghost function Trace(): seq<BoardOp>
      reads this, Repr()
    {
      if initializedDevice == null then [] else initializedDevice.trace
    }

    constructor (device: string, coordPinMapping: PinLookup)
      ensures Valid()
      ensures this.device == device && pinLookup == coordPinMapping
      ensures initializedDevice == null && exitHooks == 0
    {
      this.pinLookup := coordPinMapping;
      this.device := device;
      initializedDevice := null;
      exitHooks := 0;
    }

    /** Ownership is membership among the dictionary's keys. */
    function CanHandle(c: Coord): (r: bool)
      ensures r <==> c in pinLookup.order
      ensures r ==> pinLookup.pins[c] in PinValues(pinLookup)
    {
      c in pinLookup.pins
    }

    /**
      Turns the LED at c on or off. A coordinate this controller does not
      handle changes nothing; otherwise the board is set up if need be and
      exactly one write of the mapped pin follows.
     */
    method SetState(c: Coord, on: bool)
      requires Valid()
      modifies Repr()
      ensures Valid()
      ensures !CanHandle(c) ==>
        && initializedDevice == old(initializedDevice)
        && exitHooks == old(exitHooks)
        && Trace() == old(Trace())
      ensures CanHandle(c) ==>
        && initializedDevice != null
        && (old(initializedDevice) != null ==> initializedDevice == old(initializedDevice))
        && (old(initializedDevice) == null ==> fresh(initializedDevice))
        && Trace() == (if old(initializedDevice) == null then InitOps(PinValues(pinLookup)) else old(Trace()))
                      + [DigitalWriteOp(pinLookup.pins[c], PinValue(on))]
    {
      if !CanHandle(c) {
        return;
      }
      EnsureDeviceInitialized();
      assert initializedDevice != null;
      var pin := pinLookup.pins[c];
      initializedDevice.DigitalWrite(pin, PinValue(on));
    }

    /**
      Opens the board and drives every mapped pin low, unless a board is
      already open, in which case nothing changes.
     */
    method EnsureDeviceInitialized()
      requires Valid()
      modifies this
      ensures Valid()
      ensures old(initializedDevice) != null ==>
        && initializedDevice == old(initializedDevice)
        && exitHooks == old(exitHooks)
        && Trace() == old(Trace())
      ensures old(initializedDevice) == null ==>
        && initializedDevice != null && fresh(initializedDevice)
        && initializedDevice.comPort == device
        && Trace() == InitOps(PinValues(pinLookup))
        && exitHooks == old(exitHooks) + 1
    {
      if initializedDevice != null {
        return;
      }
      var board := new FirmataBoard(device);
      initializedDevice := board;
      var pins := PinValues(pinLookup);
      for i := 0 to |pins|
        invariant initializedDevice == board && exitHooks == old(exitHooks)
        invariant board.trace == InitOps(pins[..i])
      {
        board.SetPinMode(pins[i], Output);
        board.DigitalWrite(pins[i], 0);
        assert pins[..i + 1][..i] == pins[..i];
      }
      assert pins[..|pins|] == pins;
      exitHooks := exitHooks + 1;
    }

    /**
      The exit hook: shuts an open board down. Without a board nothing is
      recorded. The board is kept, so every call records another shutdown.
     */
    method Shutdown()
      requires Valid()
      modifies Repr()
      ensures Valid()
      ensures initializedDevice == old(initializedDevice) && exitHooks == old(exitHooks)
      ensures Trace() == if old(initializedDevice) == null then old(Trace()) else old(Trace()) + [ShutdownOp]
    {
      if initializedDevice == null {
        return;
      }
      initializedDevice.Shutdown();
    }
  }

  /**
    Switching one owned LED on and then off issues exactly two writes, both
    to its pin, after whatever setup the first call needed.
   */
  method ToggleOnce(ctrl: ArduinoFirmataController, c: Coord)
    requires ctrl.Valid() && ctrl.CanHandle(c)
    modifies ctrl.Repr()
    ensures ctrl.Valid()
    ensures ctrl.Trace() ==
      (if old(ctrl.initializedDevice) == null then InitOps(PinValues(ctrl.pinLookup)) else old(ctrl.Trace()))
      + [DigitalWriteOp(ctrl.pinLookup.pins[c], 1), DigitalWriteOp(ctrl.pinLookup.pins[c], 0)]
  {
    ctrl.SetState(c, true);
    ctrl.SetState(c, false);
  }
}

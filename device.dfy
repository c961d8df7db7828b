/**
  The Firmata board that a controller talks to (the PyMata3 connection that
  led_control/arduino_controller.py opens). The serial transport is not
  modelled: a board only records, in order, every operation that was issued
  on it, so that properties about pin writes become properties of this trace.
 */
module Device {

  /** Pin identifiers: the shipped configuration uses board pin numbers. */
  type Pin = int

  /** The only pin mode the controller ever selects. */
  datatype PinMode = Output

  /** One operation issued on a board. */
  datatype BoardOp =
    | SetPinModeOp(pin: Pin, mode: PinMode)
    | DigitalWriteOp(pin: Pin, value: int)
    | ShutdownOp

  class FirmataBoard {
    /** The serial port the connection was opened on. */
    const comPort: string
    /** Every operation issued on this board so far, oldest first. */
    var trace: seq<BoardOp>

    /** Opening a connection; nothing has been issued on it yet. */
    constructor (comPort: string)
      ensures this.comPort == comPort && trace == []
    {
      this.comPort := comPort;
      trace := [];
    }

    method SetPinMode(pin: Pin, mode: PinMode)
      modifies this
      ensures trace == old(trace) + [SetPinModeOp(pin, mode)]
    {
      trace := trace + [SetPinModeOp(pin, mode)];
    }

    method DigitalWrite(pin: Pin, value: int)
      modifies this
      ensures trace == old(trace) + [DigitalWriteOp(pin, value)]
    {
      trace := trace + [DigitalWriteOp(pin, value)];
    }

    method Shutdown()
      modifies this
      ensures trace == old(trace) + [ShutdownOp]
    {
      trace := trace + [ShutdownOp];
    }
  }
}

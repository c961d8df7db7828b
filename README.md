# LED matrix routing: a Dafny model

This project models the routing layer of an LED matrix driver. An LED is
named by an `(x, y)` coordinate. Each controller owns a fixed dictionary
from coordinates to digital pins of one Arduino board, which it drives over
Firmata. The registry resolves a coordinate to the controller that owns it
and memoizes each successful resolution.

- `device.dfy` (module `Device`): the Firmata board (`FirmataBoard`) stands
  in for the PyMata3 connection. It records every `SetPinModeOp`,
  `DigitalWriteOp` and `ShutdownOp` issued on it in a `trace`.
- `pin_map.dfy` (module `PinMap`): coordinates, and the coordinate-to-pin
  dictionary (`PinLookup`). The dictionary is a map together with its
  insertion order, because iterating over a dictionary's values follows
  insertion order. Pins are integers: the type alias says `str`, but the
  configuration passes ints.
- `arduino_controller.dfy` (module `ArduinoController`): the class
  `ArduinoFirmataController` is a two-state machine.
  - Uninitialized: `initializedDevice == null`.
  - Ready: the field holds a board.
  - The dictionary and the port are `const` fields, so no method can change them.
  - The exit-hook registration is modelled as the counter `exitHooks`.
  - `Valid()` states the invariant. Uninitialized means no hook. Ready means exactly one hook and a board on the configured port. The board's trace is the full setup sequence, followed only by writes of 0 or 1 to mapped pins and by shutdowns.
- `registry.dfy` (module `Registry`): the class `ControllerRegistry` holds
  the ordered controller list and the memo `knownControllerMap`.
  - Its invariant says every memo entry equals `Resolve(controllers, k)`, the first-match resolution.
  - `ControllerFor` therefore always returns that value, on a hit and on a miss.
  - The shipped configuration is `ShippedDevice` and `ShippedPins`.

The model keeps these behaviours of the code as written:
- `Shutdown` is not idempotent: each call records another `ShutdownOp`, because the board field is never cleared (led_control/arduino_controller.py:43-46).
- There is no operation that initializes every controller: `led_control/registry.py` defines none, although `led_control/main.py` calls `registry.initialize()`.
- A pin write has no side effect besides the write itself (led_control/arduino_controller.py:27-28).
- `SetState` after `Shutdown` still writes to the board, since nothing marks the controller as shut down.

## Model

| member | source | states |
|---|---|---|
| `PinMap.PinValues` | led_control/arduino_controller.py:37 | the dictionary's values: position i holds the pin of the i-th inserted key, and they are exactly the set of mapped pins |
| `ArduinoController.PinValue` | led_control/arduino_controller.py:28 | the written value is 1 when the LED is to be on and 0 otherwise |
| `ArduinoController.InitOpsAt` | led_control/arduino_controller.py:37-39 | `InitOps` is the setup trace of the loop; `InitOpsAt` places two operations per pin in mapping order: output mode for pin k at position 2k, then a write of 0 at 2k+1 |
| `ArduinoController.ArduinoFirmataController.constructor` | led_control/arduino_controller.py:13-16 | stores the port and mapping; starts uninitialized with no exit hook |
| `ArduinoController.ArduinoFirmataController.CanHandle` | led_control/arduino_controller.py:18-19 | true exactly when the coordinate is one of the mapping's keys; its pin is then among the mapped pins; reads no state |
| `ArduinoController.ArduinoFirmataController.SetState` | led_control/arduino_controller.py:21-28 | unowned coordinate: no board opened, no hook, trace unchanged; owned: board ready, and the trace is the setup (on first use) or the old trace, plus one write of the mapped pin with 0/1 |
| `ArduinoController.ArduinoFirmataController.EnsureDeviceInitialized` | led_control/arduino_controller.py:30-41 | with a board, nothing changes; otherwise a fresh board on the configured port with exactly the setup sequence in its trace and one more exit hook |
| `ArduinoController.ArduinoFirmataController.Shutdown` | led_control/arduino_controller.py:43-46 | before initialization nothing is recorded; after it, one `ShutdownOp` is appended; board and hook count unchanged |
| `ArduinoController.ToggleOnce` | led_control/arduino_controller.py:21-28 | on then off on an owned coordinate adds exactly two writes, 1 then 0, both to its pin, after any needed setup |
| `Registry.FirstHandlerIndex` | led_control/registry.py:34-37 | the lowest position whose controller handles the coordinate; none when no controller does |
| `Registry.Resolve` | led_control/registry.py:34-39 | null exactly when no controller handles the coordinate; otherwise a registered controller that handles it |
| `Registry.ControllerRegistry.constructor` | led_control/registry.py:26 | stores the controller list and starts with an empty memo |
| `Registry.ControllerRegistry.ControllerFor` | led_control/registry.py:28-39 | returns the first-match controller; a hit returns the memo entry and leaves the memo as is; a successful miss adds exactly that entry; a null result leaves the memo unchanged; the memo only grows |
| `Registry.CacheConsistent` | led_control/registry.py:31-37 | every memo entry is a registered controller that handles its key |
| `Registry.ResolveUniqueOwner` | led_control/registry.py:34-37 | when no two positions share a coordinate, a coordinate resolves to the controller that handles it |
| `Registry.ResolveTwice` | led_control/registry.py:28-39 | a second resolution of the same coordinate returns what the first returned |
| `Registry.ShippedCoverage` | led_control/registry.py:9-20 | the shipped mapping has exactly the keys with x in {1, 2} and y in 11..15, with pin 17 - y in column 1 and 22 - y in column 2 |
| `Registry.NewShippedRegistry` | led_control/registry.py:6-26 | one fresh, uninitialized controller on the shipped port with the shipped mapping, and an empty memo |
| `Registry.ShippedResolution` | led_control/registry.py:6-22 | under the shipped configuration, the block resolves to the single controller and everything else to null |
| `Registry.ShippedLookups` | led_control/registry.py:6-39 | (1, 15) and (2, 11) resolve to the single controller on pins 2 and 11; (3, 15) resolves to null |

## Left out

- The abstract interface `LEDController` (led_control/controller.py) is not a separate unit, since traits are not used here. Its one concrete implementation is modelled, and the no-op contract from its doc comment is part of `SetState`'s postcondition.
- The pymata_aio serial transport and its constants are replaced by the trace-recording `FirmataBoard`. The output pin mode is the single constructor `Output`, not the library's numeric constant.
- The `atexit` machinery is modelled only as the per-controller count of registered hooks. The process-wide hook list and running the hooks at exit are not modelled.
- Exceptions are not modelled: a failed board handshake, or a failure in the setup loop after the board field is set. The code has no handling for either.
- Locking around the memo is not modelled, because the code is single-threaded.
- The controller keeps a reference to the caller's dictionary (led_control/arduino_controller.py:14). The model copies it into a `const` field, so it assumes no caller mutates the dictionary after construction. A mutation would change `CanHandle` and could invalidate the registry's memo; `ControllerRegistry.Valid`, `ResolveTwice` and the statement that `CanHandle` reads no state rest on that assumption.
- `led_control/main.py` is driver code built on randomness, sleeps and an endless loop, and it is not part of this model.
- `ArduinoController.ArduinoFirmataController.Shutdown`: no idempotence is claimed. The code calls `shutdown()` on the board again on every call.

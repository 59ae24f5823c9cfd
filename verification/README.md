# Yasna serial scanner service object — Dafny model

This project models the core of `YasnaScanner`, a point-of-sale service object
for a barcode scanner attached to a serial port. The model covers two things:

- **Framing and gating.** The data-received handler runs once per notification.
  If the framework reports the Error control state, it logs a warning and ignores
  the notification without reading the port. Otherwise it reads every byte
  pending in the port's receive buffer into a buffer and hands one
  good scan to the framework. The scan's raw data is the whole buffer and its
  symbology is always `Ean13S`. Its label is the buffer without its last byte
  (a delimiter) when there is more than one byte, and the whole buffer otherwise.
  `Framing` defines this on values. `Framing.Delivered` gives the scans that a
  sequence of notifications produces, in the order they arrive.
- **The enable/disable state machine.** The `DeviceEnabled` setter couples the
  framework's enabled flag to the open/closed state of the one serial port.
  Assigning the current value does nothing. Disabling closes an open port.
  Enabling opens a closed port. If opening fails, the flag is rolled back to
  false and an exception is raised: a `PosControlException` is rethrown as it
  is, and anything else is wrapped with `ErrorCode.Failure`. `Open` tries to
  enable the device and `Close` tries to disable it. Each logs an exception
  from that enable or disable attempt instead of passing it on. An exception
  thrown by the framework's own Open or Close escapes, and then nothing else
  happens. `EnableMachine` defines this on values.

`Scanner` holds the objects. `SerialPort` has a fixed configuration and an
`isOpen` flag that changes in place. `YasnaScanner` has the enabled flag, the
delivered scans and the log. Each method is proved against the value-level
function for its operation.

What the framework and the port do is passed in as parameters: `None` means
the call returns normally, and `Some(f)` means it throws `f`. This covers the
framework's `base.Open`, `base.Close` and `base.DeviceEnabled` checks, and the
port failing to open. The service object's constructor swallows every
exception, so the port can be missing (`null`). For that reason, the invariant
proved is "when the port exists, the device is enabled exactly when the port is
open" (`EnableMachine.Coupled`). Without a port, enabling succeeds and nothing
is opened (`EnableMachine.EnableWithoutPort`).

Modelling decisions:
- The port name and baud rate are fixed when the object is constructed.
- The Error state is the framework's control state, an input to the handler.
- The coupling of the enabled flag to the open port holds only while the port
  object exists.

## Model

| member | source | states |
|---|---|---|
| Framing.LabelOf | ScannerCore.cs:149-159 | the label is a prefix of the buffer; with more than one byte it is one byte shorter, otherwise it is the whole buffer |
| Framing.Frame | ScannerCore.cs:146-158 | a framed scan's raw data is the whole buffer, its symbology is Ean13S, and its label is a prefix of its raw data |
| Framing.Receive | ScannerCore.cs:136-160 | the notification is ignored, without reading the port, with the Error-state warning exactly when the control state is Error; otherwise the result is a well-formed good scan whose raw data is the buffer |
| Framing.LabelDropsOnlyDelimiter | ScannerCore.cs:149-153 | a multi-byte buffer equals its label followed by its last byte |
| Framing.WellFormedIffFramed | ScannerCore.cs:147-158 | a scan record is well formed exactly when it is the frame of its own raw data, so the framing rule fixes the label |
| Framing.DeliveredSkipsErrors | ScannerCore.cs:138-142 | notifications in the Error state deliver no scan: a sequence delivers exactly what its notifications outside the Error state deliver |
| Framing.DeliveredScans | ScannerCore.cs:136-160 | a sequence of notifications yields one scan per notification outside the Error state, in receipt order: the k-th scan is the frame of the k-th such notification's bytes; every scan is well formed |
| Framing.DeliveredWithoutErrors | ScannerCore.cs:146-160 | when no notification arrives in the Error state, the k-th scan is the frame of the k-th notification's bytes |
| Framing.DeliveredInErrorState | ScannerCore.cs:138-142 | notifications that all arrive in the Error state deliver no scan |
| Framing.FramingExample | ScannerCore.cs:138-159 | bytes 41 42 43 0D give label 41 42 43; byte 05 gives label 05; in the Error state the same bytes are not read and no scan results |
| EnableMachine.EnableFault | ScannerCore.cs:250-261 | a PosControlException from opening is rethrown as it is; any other exception is wrapped in a PosControlException with code Failure that holds the original |
| EnableMachine.SetDeviceEnabled | ScannerCore.cs:221-265 | the setter never adds or removes the port; on success the flag equals the assigned value; on failure nothing has changed and the assigned value differed from the flag; an assignment of a new value that the framework rejects throws exactly the framework's exception |
| EnableMachine.OpenDevice | ScannerCore.cs:91-114 | if the framework's Open throws, that exception escapes and nothing changes; otherwise Open returns normally, its new state is that of assigning true to DeviceEnabled, it logs exactly the exception that assignment threw (if any), and the device ends enabled exactly when nothing was logged |
| EnableMachine.CloseDevice | ScannerCore.cs:116-130 | if the framework's Close throws, that exception escapes and nothing changes; otherwise Close returns normally, its new state is that of assigning false to DeviceEnabled, it logs exactly the exception that assignment threw (if any), and the device ends disabled exactly when nothing was logged |
| EnableMachine.SetToCurrentIsNoOp | ScannerCore.cs:227 | assigning the current value changes nothing and throws nothing, whatever the framework or port would do |
| EnableMachine.DisableClosesPort | ScannerCore.cs:231-240 | disabling never opens the port; if accepted, the flag ends false and the port ends closed (unless the device was already disabled with the port open); if rejected, the framework's exception escapes and nothing changes |
| EnableMachine.EnableOpensClosedPort | ScannerCore.cs:241-261 | enabling a disabled device leaves an open or missing port alone and opens a closed one; if opening fails, the flag ends false, the port stays closed and EnableFault of the port's exception is raised |
| EnableMachine.SetDeviceEnabledKeepsCoupled | ScannerCore.cs:227-261 | if "port present implies (enabled iff open)" holds before an assignment, it holds after, whether the assignment succeeds or fails |
| EnableMachine.EnableSucceedsIffPortOpens | ScannerCore.cs:243-253 | with a port present and the framework accepting, enabling succeeds, sets the flag and opens the port, each exactly when the port's Open succeeds |
| EnableMachine.EnableWithoutPort | ScannerCore.cs:245 | when the port is missing, enabling succeeds and the flag is set while nothing is open |
| EnableMachine.OpenCloseKeepCoupled | ScannerCore.cs:99-128 | Open and Close keep the coupling, whatever they log or throw |
| EnableMachine.DisableIdempotent | ScannerCore.cs:227-240 | after a disable that succeeded, a second disable changes nothing and throws nothing |
| EnableMachine.EnableDisableEnable | ScannerCore.cs:227-261 | with the port opening each time, enable then disable then enable all succeed; the port is closed after the disable and open at the end |
| EnableMachine.RunKeepsCoupled | ScannerCore.cs:91-265 | over any sequence of setter, Open and Close calls made one at a time, the port neither appears nor disappears and the coupling holds throughout |
| Scanner.PortCreationFault | ScannerCore.cs:39-45 | creating the port throws nothing exactly when the name is valid and the baud rate is positive; an invalid name throws Argument |
| Scanner.SerialPort.constructor | ScannerCore.cs:39-45 | a new port has the given name and baud rate, 500 ms read and write timeouts, and is closed |
| Scanner.SerialPort.Open | ScannerCore.cs:245-248 | opening an open port throws InvalidOperation and leaves it open; opening a closed port either succeeds and opens it, or throws the acquisition fault and leaves it closed |
| Scanner.SerialPort.Close | ScannerCore.cs:236-239 | after Close the port is closed |
| Scanner.YasnaScanner.constructor | ScannerCore.cs:23-55 | the device starts disabled with no scans; the port exists exactly when setup and port configuration threw nothing; any such exception is logged under "YasnaScanner" |
| Scanner.YasnaScanner.SetDeviceEnabled | ScannerCore.cs:221-265 | the object's new flag, its port's open state and the exception raised equal EnableMachine.SetDeviceEnabled of its old state; the coupling of flag and port, if it held before, holds after |
| Scanner.YasnaScanner.Open | ScannerCore.cs:91-114 | the new state and outcome equal EnableMachine.OpenDevice of the old state; a swallowed exception is appended to the log under "Open"; the coupling, if it held before, holds after |
| Scanner.YasnaScanner.Close | ScannerCore.cs:116-130 | the new state and outcome equal EnableMachine.CloseDevice of the old state; a swallowed exception is appended to the log under "Close"; the coupling, if it held before, holds after |
| Scanner.YasnaScanner.DataReceived | ScannerCore.cs:131-179 | in the Error state the warning is appended to the log and no scan is delivered; otherwise the scan from Framing.Receive is appended; the delivered scans remain Framing.Delivered of all notifications so far |

## Left out

- Host framework: claim semantics and `VerifyState`. What `base.Open`, `base.Close` and the base `DeviceEnabled` setter do is a parameter (returns normally, or throws a given fault). The model assumes the framework's Open and Close never change the enabled flag or the port themselves; a framework whose Close disables an enabled device is not modelled.
- The framework's `GoodScan`: it is modelled only as appending the record to `scans`. Its event queue and statistics are left out.
- The `DeviceEnabled` getter (ScannerCore.cs:224): it is the `enabled` field read directly.
- Constructor setup (ScannerCore.cs:27-38): loading localized strings and setting statistics are left out. Their possible exception is the `setupFault` parameter. The text of the "unable to enable device" message (ScannerCore.cs:260) is not modelled.
- Registry lookups (ScannerCore.cs:181-218) are OS I/O. The constructor takes the resolved port name and baud rate as inputs. The defaults are kept as `DefaultPortName` and `DefaultBaudRate`.
- The port's receive buffer is not modelled. Each notification's `available` is every byte pending at that moment. Bytes left unread in the Error state come back at the front of the next buffer read outside it, and the model does not relate consecutive `available` values.
- The serial port library is reduced to an open flag, an Open that may fail, and Close. Read is assumed to return exactly the bytes available (ScannerCore.cs:146-148). A read that throws, and the catch-and-log path at ScannerCore.cs:175-178, are not modelled.
- Scanner.YasnaScanner.SetDeviceEnabled: the port's Close (ScannerCore.cs:238) and the rollback assignment `base.DeviceEnabled = false` (ScannerCore.cs:253) are assumed not to throw.
- `CheckHealth`, `CheckHealthText` and `DirectIO` (ScannerCore.cs:59-89) are framework pass-throughs.
- The commented-out symbology and label decoding (ScannerCore.cs:162-173, 269-341) is not compiled in the source.
- Logging is a list of entries. Logging sinks and message formatting are left out.
- Concurrency between the data-received callback and enable/disable callers is left out. The source has no locking, and each call is treated as atomic and sequential.

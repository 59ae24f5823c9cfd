/** The Yasna scanner service object and its serial port, as objects whose fields
    change in place. Each method is proved against the value-level model: the
    DeviceEnabled setter, Open and Close against the EnableMachine functions,
    the data-received handler against Framing.Receive.
 */
module Scanner {
  import opened Faults
  import opened Framing
  import EnableMachine

  /** The port name and baud rate used when the configuration store has none. */
  const DefaultPortName := "COM10"
  const DefaultBaudRate := 9600

  /** The read and write timeouts the port is configured with, in milliseconds. */
  const PortTimeoutMs := 500

  /** A port name the serial port accepts: not empty and not a `\\`-prefixed device path. */
  predicate ValidPortName(name: string) {
    |name| > 0 && !(|name| >= 2 && name[..2] == "\\\\")
  }

  /** What configuring a serial port with `name` and `baud` throws, if anything: the
      name is set first, then the baud rate. */
  function PortCreationFault(name: string, baud: int): (f: Option<Fault>)
    ensures f.None? <==> ValidPortName(name) && baud > 0
    ensures !ValidPortName(name) ==> f == Some(SystemException(Argument))
  {
    if !ValidPortName(name) then Some(SystemException(Argument))
    else if baud <= 0 then Some(SystemException(ArgumentOutOfRange))
    else None
  }

  /** The serial port: its configuration, fixed once created, and whether it is open. */
  class SerialPort {
    const portName: string
    const baudRate: int
    const readTimeout: int
    const writeTimeout: int
    var isOpen: bool

    constructor (name: string, baud: int)
      requires PortCreationFault(name, baud).None?
      ensures portName == name && baudRate == baud
      ensures readTimeout == PortTimeoutMs && writeTimeout == PortTimeoutMs
      ensures !isOpen
    {
      portName, baudRate := name, baud;
      readTimeout, writeTimeout := PortTimeoutMs, PortTimeoutMs;
      isOpen := false;
    }

    /** Opening: an already open port refuses with InvalidOperation; otherwise the
        port opens unless acquiring it throws `fault`. */
    method Open(fault: Option<Fault>) returns (r: Outcome)
      modifies this
      ensures old(isOpen) ==> isOpen && r == Fail(SystemException(InvalidOperation))
      ensures !old(isOpen) ==> r == (if fault.Some? then Fail(fault.value) else Pass)
      ensures !old(isOpen) ==> (isOpen <==> r.Pass?)
    {
      if isOpen {
        r := Fail(SystemException(InvalidOperation));
      } else if fault.Some? {
        r := Fail(fault.value);
      } else {
        isOpen := true;
        r := Pass;
      }
    }

    method Close()
      modifies this
      ensures !isOpen
    {
      isOpen := false;
    }
  }

  /** The service object. `enabled` is the framework's DeviceEnabled flag; `scans`
      are the records handed to GoodScan, in order; `log` is what the driver logged.
      The ghost `notifications` is every data-received notification so far. */
  class YasnaScanner {
    const port: SerialPort?
    var enabled: bool
    var scans: seq<ScanRecord>
    var log: seq<LogEntry>
    ghost var notifications: seq<Notification>

    /** The delivered scans are exactly those the notifications so far produce. The
        coupling of the flag to the port is kept separately by SetDeviceEnabled, Open
        and Close: each preserves EnableMachine.Coupled(Model()). */
    ghost predicate Valid()
      reads this
    {
      scans == Delivered(notifications)
    }

    /** The enable/disable state of this object as a value. */
    function Model(): (d: EnableMachine.Driver)
      reads this, port
    {
      EnableMachine.Driver(enabled, if port == null then EnableMachine.NoPort else EnableMachine.Port(port.isOpen))
    }

    /** Construction. `setupFault` is what loading the localized strings and setting
        the device statistics throws, if anything; the port is then created with the
        resolved `portName` and `baudRate`. Any exception is logged and leaves the
        port missing. */
    constructor (setupFault: Option<Fault>, portName: string, baudRate: int)
      ensures Valid() && notifications == [] && scans == []
      ensures !enabled && EnableMachine.Coupled(Model())
      ensures port != null <==> setupFault.None? && PortCreationFault(portName, baudRate).None?
      ensures port != null ==> fresh(port) && !port.isOpen && port.portName == portName && port.baudRate == baudRate
      ensures log == if setupFault.Some? then [LogError("YasnaScanner", setupFault.value)]
                     else if PortCreationFault(portName, baudRate).Some? then [LogError("YasnaScanner", PortCreationFault(portName, baudRate).value)]
                     else []
    {
      enabled := false;
      scans := [];
      notifications := [];
      if setupFault.Some? {
        port := null;
        log := [LogError("YasnaScanner", setupFault.value)];
      } else {
        var creationFault := PortCreationFault(portName, baudRate);
        if creationFault.Some? {
          port := null;
          log := [LogError("YasnaScanner", creationFault.value)];
        } else {
          port := new SerialPort(portName, baudRate);
          log := [];
        }
      }
    }

    /** The DeviceEnabled setter. `baseFault` is what the framework's setter does with
        the assignment, `openFault` what acquiring the port does if it is opened. */
    method SetDeviceEnabled(value: bool, baseFault: Option<Fault>, openFault: Option<Fault>) returns (r: Outcome)
      modifies this`enabled, port
      ensures EnableMachine.Step(Model(), r) == EnableMachine.SetDeviceEnabled(old(Model()), value, baseFault, openFault)
      ensures old(EnableMachine.Coupled(Model())) ==> EnableMachine.Coupled(Model())
    {
      r := Pass;
      if value != enabled {
        if baseFault.Some? {
          r := Fail(baseFault.value);
          return;
        }
        enabled := value;
        if !value {
          if port != null && port.isOpen {
            port.Close();
          }
        } else if port != null && !port.isOpen {
          var openResult := port.Open(openFault);
          if openResult.Fail? {
            enabled := false;
            r := Fail(EnableMachine.EnableFault(openResult.fault));
          }
        }
      }
    }

    /** Open: the framework's Open, then an attempt to enable whose failure is logged. */
    method Open(baseOpenFault: Option<Fault>, baseFault: Option<Fault>, openFault: Option<Fault>) returns (r: Outcome)
      modifies this`enabled, this`log, port
      ensures var g := EnableMachine.OpenDevice(old(Model()), baseOpenFault, baseFault, openFault);
        Model() == g.after && r == g.outcome &&
        log == old(log) + (if g.logged.Some? then [LogError("Open", g.logged.value)] else [])
      ensures old(EnableMachine.Coupled(Model())) ==> EnableMachine.Coupled(Model())
    {
      if baseOpenFault.Some? {
        r := Fail(baseOpenFault.value);
        return;
      }
      var e := SetDeviceEnabled(true, baseFault, openFault);
      if e.Fail? {
        log := log + [LogError("Open", e.fault)];
      }
      r := Pass;
    }

    /** Close: the framework's Close, then an attempt to disable whose failure is logged. */
    method Close(baseCloseFault: Option<Fault>, baseFault: Option<Fault>) returns (r: Outcome)
      modifies this`enabled, this`log, port
      ensures var g := EnableMachine.CloseDevice(old(Model()), baseCloseFault, baseFault);
        Model() == g.after && r == g.outcome &&
        log == old(log) + (if g.logged.Some? then [LogError("Close", g.logged.value)] else [])
      ensures old(EnableMachine.Coupled(Model())) ==> EnableMachine.Coupled(Model())
    {
      if baseCloseFault.Some? {
        r := Fail(baseCloseFault.value);
        return;
      }
      var e := SetDeviceEnabled(false, baseFault, None);
      if e.Fail? {
        log := log + [LogError("Close", e.fault)];
      }
      r := Pass;
    }

    /** The data-received handler, given the framework's control state and the bytes
        available on the port. */
    method DataReceived(state: ControlState, available: seq<byte>)
      requires Valid()
      modifies this`scans, this`log, this`notifications
      ensures Valid()
      ensures notifications == old(notifications) + [Notification(state, available)]
      ensures match Receive(state, available)
        case GoodScan(s) => scans == old(scans) + [s] && log == old(log)
        case Ignored(w) => scans == old(scans) && log == old(log) + [LogWarning(w)]
    {
      ghost var before := notifications;
      notifications := notifications + [Notification(state, available)];
      assert notifications[..|notifications| - 1] == before;
      if state == Error {
        log := log + [LogWarning(ErrorStateWarning)];
        return;
      }
      var respBuffer := available;
      if |respBuffer| > 1 {
        var labelArray := respBuffer[..|respBuffer| - 1];
        scans := scans + [ScanRecord(respBuffer, Ean13S, labelArray)];
      } else {
        scans := scans + [ScanRecord(respBuffer, Ean13S, respBuffer)];
      }
    }
  }
}

/** The enable/disable state machine of the scanner, as values.

    The driver couples the framework's DeviceEnabled flag to the open/closed state
    of its one serial port. The port may be missing altogether: the service
    object's constructor swallows every exception, so a failure before the port is
    created leaves it null. The framework's own checks (the base DeviceEnabled
    setter, base Open, base Close) and the port's Open may throw; what they do is
    given as a parameter, `None` for "returns normally" and `Some(f)` for "throws f".
 */
module EnableMachine {
  import opened Faults

  /** The serial port as the driver sees it: absent, or present and open or closed. */
  datatype Port = NoPort | Port(isOpen: bool)

  /** The state the state machine is about: the framework's DeviceEnabled flag and the port. */
  datatype Driver = Driver(enabled: bool, port: Port)

  /** A call's new state and what it threw. */
  datatype Step = Step(after: Driver, outcome: Outcome)

  /** A call that catches and logs what it throws: its new state, what escaped it,
      and what it logged. */
  datatype Guarded = Guarded(after: Driver, outcome: Outcome, logged: Option<Fault>)

  /** The coupling the setter maintains: a present port is open exactly when the
      device is enabled. */
  predicate Coupled(d: Driver) {
    d.port.Port? ==> (d.enabled <==> d.port.isOpen)
  }

  /** The exception the setter raises when the port fails to open: a
      PosControlException is rethrown as it is, anything else is wrapped in a
      PosControlException with the Failure code. */
  function EnableFault(e: Fault): (r: Fault)
    ensures r.PosControlException?
    ensures e.PosControlException? ==> r == e
    ensures e.SystemException? ==> r.code == Failure && r.inner == Some(e)
  {
    if e.PosControlException? then e else PosControlException(Failure, Some(e))
  }

  /** Assigning `value` to DeviceEnabled. `baseFault` is what the framework's setter
      does with the assignment, `openFault` what the port's Open does if it is called. */
  function SetDeviceEnabled(d: Driver, value: bool, baseFault: Option<Fault>, openFault: Option<Fault>): (s: Step)
    ensures s.after.port.Port? == d.port.Port?
    ensures s.outcome.Pass? ==> s.after.enabled == value
    ensures s.outcome.Fail? ==> s.after == d && value != d.enabled
    ensures value != d.enabled && baseFault.Some? ==> s == Step(d, Fail(baseFault.value))
  {
    if value == d.enabled then Step(d, Pass)
    else if baseFault.Some? then Step(d, Fail(baseFault.value))
    else if !value then
      Step(Driver(false, if d.port.Port? then Port(false) else NoPort), Pass)
    else if d.port.Port? && !d.port.isOpen then
      if openFault.None? then Step(Driver(true, Port(true)), Pass)
      else Step(Driver(false, d.port), Fail(EnableFault(openFault.value)))
    else Step(Driver(true, d.port), Pass)
  }

  /** The service object's Open: the framework's Open (which may throw, and then
      nothing else happens), then DeviceEnabled := true, whose exception is logged
      and not passed on. */
  function OpenDevice(d: Driver, baseOpenFault: Option<Fault>, baseFault: Option<Fault>, openFault: Option<Fault>): (g: Guarded)
    ensures baseOpenFault.Some? ==> g == Guarded(d, Fail(baseOpenFault.value), None)
    ensures baseOpenFault.None? ==> g.outcome.Pass? && (g.after.enabled <==> g.logged.None?)
    ensures baseOpenFault.None? ==>
      var s := SetDeviceEnabled(d, true, baseFault, openFault);
      g.after == s.after && (g.logged.Some? <==> s.outcome.Fail?) &&
      (g.logged.Some? ==> g.logged.value == s.outcome.fault)
  {
    if baseOpenFault.Some? then Guarded(d, Fail(baseOpenFault.value), None)
    else
      var s := SetDeviceEnabled(d, true, baseFault, openFault);
      Guarded(s.after, Pass, if s.outcome.Fail? then Some(s.outcome.fault) else None)
  }

  /** The service object's Close: the framework's Close (which may throw, and then
      nothing else happens), then DeviceEnabled := false, whose exception is logged
      and not passed on. */
  function CloseDevice(d: Driver, baseCloseFault: Option<Fault>, baseFault: Option<Fault>): (g: Guarded)
    ensures baseCloseFault.Some? ==> g == Guarded(d, Fail(baseCloseFault.value), None)
    ensures baseCloseFault.None? ==> g.outcome.Pass? && (!g.after.enabled <==> g.logged.None?)
    ensures baseCloseFault.None? ==>
      var s := SetDeviceEnabled(d, false, baseFault, None);
      g.after == s.after && (g.logged.Some? <==> s.outcome.Fail?) &&
      (g.logged.Some? ==> g.logged.value == s.outcome.fault)
  {
    if baseCloseFault.Some? then Guarded(d, Fail(baseCloseFault.value), None)
    else
      var s := SetDeviceEnabled(d, false, baseFault, None);
      Guarded(s.after, Pass, if s.outcome.Fail? then Some(s.outcome.fault) else None)
  }

  /** Assigning the current value does nothing, whatever the framework or the port would do. */
  lemma SetToCurrentIsNoOp(d: Driver, baseFault: Option<Fault>, openFault: Option<Fault>)
    ensures SetDeviceEnabled(d, d.enabled, baseFault, openFault) == Step(d, Pass)
  {
  }

  /** Disabling never opens the port; once accepted by the framework it leaves the
      device disabled and, unless the device was already disabled with the port
      open behind its back, the port closed. A rejected call changes nothing. */
  lemma DisableClosesPort(d: Driver, baseFault: Option<Fault>, openFault: Option<Fault>)
    ensures var s := SetDeviceEnabled(d, false, baseFault, openFault);
      (s.after.port == Port(true) ==> d.port == Port(true)) &&
      (s.outcome.Pass? ==> !s.after.enabled) &&
      (s.outcome.Pass? && (d.enabled || Coupled(d)) ==> s.after.port != Port(true)) &&
      (s.outcome.Fail? ==> s.after == d && baseFault == Some(s.outcome.fault))
  {
  }

  /** Enabling a disabled device that the framework accepts: an open port is left
      alone, a closed port is opened, and a failed open rolls the flag back to
      false and raises EnableFault of the port's exception. */
  lemma EnableOpensClosedPort(d: Driver, openFault: Option<Fault>)
    requires !d.enabled
    ensures var s := SetDeviceEnabled(d, true, None, openFault);
      (d.port != Port(false) ==> s == Step(Driver(true, d.port), Pass)) &&
      (d.port == Port(false) && openFault.None? ==> s == Step(Driver(true, Port(true)), Pass)) &&
      (d.port == Port(false) && openFault.Some? ==>
         s == Step(Driver(false, Port(false)), Fail(EnableFault(openFault.value))))
  {
  }

  /** Every assignment to DeviceEnabled keeps the coupling, whether it succeeds or fails. */
  lemma SetDeviceEnabledKeepsCoupled(d: Driver, value: bool, baseFault: Option<Fault>, openFault: Option<Fault>)
    requires Coupled(d)
    ensures Coupled(SetDeviceEnabled(d, value, baseFault, openFault).after)
  {
  }

  /** With a port and the framework accepting, enabling a coupled disabled device
      succeeds exactly when the port opens, and the device is then enabled exactly
      when the port is open. */
  lemma EnableSucceedsIffPortOpens(d: Driver, openFault: Option<Fault>)
    requires Coupled(d) && d.port.Port? && !d.enabled
    ensures var s := SetDeviceEnabled(d, true, None, openFault);
      (s.outcome.Pass? <==> openFault.None?) &&
      (s.after.enabled <==> openFault.None?) &&
      (s.after.port.isOpen <==> openFault.None?)
  {
  }

  /** Without a port, enabling succeeds and nothing is opened: the flag says enabled
      while no bytes can arrive. */
  lemma EnableWithoutPort(enabled: bool, openFault: Option<Fault>)
    ensures SetDeviceEnabled(Driver(enabled, NoPort), true, None, openFault) == Step(Driver(true, NoPort), Pass)
  {
  }

  /** Open and Close keep the coupling, whatever they log or throw. */
  lemma OpenCloseKeepCoupled(d: Driver, baseOpenFault: Option<Fault>, baseCloseFault: Option<Fault>,
                             baseFault: Option<Fault>, openFault: Option<Fault>)
    requires Coupled(d)
    ensures Coupled(OpenDevice(d, baseOpenFault, baseFault, openFault).after)
    ensures Coupled(CloseDevice(d, baseCloseFault, baseFault).after)
  {
    SetDeviceEnabledKeepsCoupled(d, true, baseFault, openFault);
    SetDeviceEnabledKeepsCoupled(d, false, baseFault, None);
  }

  /** Disabling twice: the second call does nothing and throws nothing. */
  lemma DisableIdempotent(d: Driver, baseFault1: Option<Fault>, baseFault2: Option<Fault>, openFault: Option<Fault>)
    requires SetDeviceEnabled(d, false, baseFault1, openFault).outcome.Pass?
    ensures var s1 := SetDeviceEnabled(d, false, baseFault1, openFault);
      SetDeviceEnabled(s1.after, false, baseFault2, openFault) == Step(s1.after, Pass)
  {
  }

  /** Enable, disable, enable with a port that keeps opening and a framework that
      keeps accepting: all three succeed and the port is open at the end. */
  lemma EnableDisableEnable(d: Driver)
    requires Coupled(d) && d.port.Port? && !d.enabled
    ensures var s1 := SetDeviceEnabled(d, true, None, None);
      var s2 := SetDeviceEnabled(s1.after, false, None, None);
      var s3 := SetDeviceEnabled(s2.after, true, None, None);
      s1.outcome.Pass? && s2.outcome.Pass? && s3.outcome.Pass? &&
      s2.after == Driver(false, Port(false)) && s3.after == Driver(true, Port(true))
  {
  }

  /** One call the host makes on the driver, with what the framework and the port do. */
  datatype Call =
    | AssignEnabled(value: bool, baseFault: Option<Fault>, openFault: Option<Fault>)
    | OpenCall(baseOpenFault: Option<Fault>, baseFault: Option<Fault>, openFault: Option<Fault>)
    | CloseCall(baseCloseFault: Option<Fault>, baseFault: Option<Fault>)

  /** The state after one call. */
  function Apply(d: Driver, c: Call): (d': Driver)
  {
    match c
    case AssignEnabled(v, bf, of) => SetDeviceEnabled(d, v, bf, of).after
    case OpenCall(bo, bf, of) => OpenDevice(d, bo, bf, of).after
    case CloseCall(bc, bf) => CloseDevice(d, bc, bf).after
  }

  /** The state after a session of calls made one at a time. */
  function Run(d: Driver, calls: seq<Call>): (d': Driver)
    decreases |calls|
  {
    if calls == [] then d else Run(Apply(d, calls[0]), calls[1..])
  }

  /** Over any session, the port neither appears nor disappears and the coupling holds throughout. */
  lemma {:induction false} RunKeepsCoupled(d: Driver, calls: seq<Call>)
    requires Coupled(d)
    ensures Coupled(Run(d, calls))
    ensures Run(d, calls).port.Port? == d.port.Port?
    decreases |calls|
  {
    if calls != [] {
      match calls[0] {
        case AssignEnabled(v, bf, of) => SetDeviceEnabledKeepsCoupled(d, v, bf, of);
        case OpenCall(bo, bf, of) => OpenCloseKeepCoupled(d, bo, None, bf, of);
        case CloseCall(bc, bf) => OpenCloseKeepCoupled(d, None, bc, bf, None);
      }
      RunKeepsCoupled(Apply(d, calls[0]), calls[1..]);
    }
  }
}

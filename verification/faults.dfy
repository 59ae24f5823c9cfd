/** Exceptions, outcomes and log entries of the Yasna scanner service object.

    The driver talks to two collaborators that signal failure by throwing: the
    point-of-sale framework (PosControlException, carrying an ErrorCode) and the
    serial port library (system exceptions). Here a thrown exception is a value of
    type Fault, and a call that may throw returns an Outcome.
 */
module Faults {

  datatype Option<+T> = None | Some(value: T)

  /** The error codes of the framework's PosControlException. */
  datatype ErrorCode =
    | Closed | Claimed | NotClaimed | NoService | Disabled | Illegal | NoHardware
    | Offline | NoExist | Exists | Failure | Timeout | Busy | Extended

  /** The system exceptions the serial port raises when it is configured or opened
      (port held by another process, bad name or baud rate, I/O error, already open). */
  datatype SystemFaultKind = UnauthorizedAccess | Argument | ArgumentOutOfRange | IO | InvalidOperation

  datatype Fault =
    | PosControlException(code: ErrorCode, inner: Option<Fault>)
    | SystemException(kind: SystemFaultKind)

  /** What a call that may throw did: returned normally, or threw `fault`. */
  datatype Outcome = Pass | Fail(fault: Fault)

  /** What the driver writes to its log: a warning, or a caught exception with the
      name of the member that caught it. */
  datatype LogEntry = LogWarning(text: string) | LogError(context: string, fault: Fault)
}

/** Framing and gating of one data-received notification of the serial port.

    Each notification is one frame: every byte available is read into a buffer,
    the whole buffer is the scan's raw data, the label is the buffer without its
    last byte (a trailing delimiter) when the buffer holds more than one byte and
    the whole buffer otherwise, and the symbology is always EAN-13 with supplement.
    While the framework reports the Error control state the handler ignores the
    notification without reading the port and logs a warning instead; the bytes
    stay pending in the port's receive buffer.
 */
module Framing {

  newtype byte = x: int | 0 <= x < 256

  /** The framework's control states. */
  datatype ControlState = Closed | Idle | Busy | Error

  /** The framework's barcode symbologies; this driver only ever reports Ean13S. */
  datatype BarCodeSymbology = Ean13S | Other

  /** The record handed to the framework's GoodScan. */
  datatype ScanRecord = ScanRecord(scanData: seq<byte>, symbology: BarCodeSymbology, scanDataLabel: seq<byte>)

  /** What one notification produces: an ignored buffer with its warning, or a good scan. */
  datatype Reception = Ignored(warning: string) | GoodScan(scan: ScanRecord)

  /** One notification as the handler sees it: the framework's control state and
      `available`, every byte pending in the port's receive buffer at that moment,
      including bytes left unread by earlier notifications. */
  datatype Notification = Notification(state: ControlState, available: seq<byte>)

  const ErrorStateWarning := "Input data ignored because device is in the Error state."

  /** The label of a buffer: the buffer without its trailing delimiter byte when
      there is more than one byte, the buffer itself otherwise. */
  function LabelOf(buffer: seq<byte>): (dataLabel: seq<byte>)
    ensures dataLabel <= buffer
    ensures |buffer| > 1 ==> |dataLabel| == |buffer| - 1
    ensures |buffer| <= 1 ==> dataLabel == buffer
  {
    if |buffer| > 1 then buffer[..|buffer| - 1] else buffer
  }

  /** The scan record framed from one buffer. */
  function Frame(buffer: seq<byte>): (s: ScanRecord)
    ensures s.scanData == buffer
    ensures s.symbology == Ean13S
    ensures s.scanDataLabel <= s.scanData
  {
    ScanRecord(buffer, Ean13S, LabelOf(buffer))
  }

  /** The shape every scan record of this driver has: EAN-13 with supplement, and a
      label that is the raw data, less at most one trailing byte, and less exactly
      one when there is more than one byte. */
  predicate WellFormed(s: ScanRecord) {
    s.symbology == Ean13S &&
    s.scanDataLabel <= s.scanData &&
    (if |s.scanData| > 1 then |s.scanDataLabel| + 1 == |s.scanData| else s.scanDataLabel == s.scanData)
  }

  /** The handler: in the Error state it ignores the notification, without reading
      the port, and gives the warning; in any other state it frames the pending
      bytes as a good scan. */
  function Receive(state: ControlState, buffer: seq<byte>): (r: Reception)
    ensures r.Ignored? <==> state == Error
    ensures r.Ignored? ==> r.warning == ErrorStateWarning
    ensures r.GoodScan? ==> r.scan.scanData == buffer && WellFormed(r.scan)
  {
    if state == Error then Ignored(ErrorStateWarning) else GoodScan(Frame(buffer))
  }

  /** A multi-byte buffer is its label followed by the delimiter the label drops. */
  lemma LabelDropsOnlyDelimiter(buffer: seq<byte>)
    requires |buffer| > 1
    ensures LabelOf(buffer) + [buffer[|buffer| - 1]] == buffer
  {
  }

  /** The framing rule determines the record: a record is well formed exactly when
      it is the frame of its own raw data. */
  lemma WellFormedIffFramed(s: ScanRecord)
    ensures WellFormed(s) <==> s == Frame(s.scanData)
  {
  }

  /** The scans delivered by a sequence of notifications, in receipt order: one per
      notification that arrived outside the Error state. */
  function Delivered(ns: seq<Notification>): (scans: seq<ScanRecord>)
  {
    if ns == [] then []
    else
      var last := ns[|ns| - 1];
      Delivered(ns[..|ns| - 1]) +
        (match Receive(last.state, last.available)
         case GoodScan(s) => [s]
         case Ignored(_) => [])
  }

  /** The notifications that arrived outside the Error state, in receipt order. */
  function NonError(ns: seq<Notification>): (accepted: seq<Notification>)
    ensures |accepted| <= |ns|
    ensures forall i :: 0 <= i < |accepted| ==> accepted[i].state != Error && accepted[i] in ns
  {
    if ns == [] then []
    else NonError(ns[..|ns| - 1]) + (if ns[|ns| - 1].state == Error then [] else [ns[|ns| - 1]])
  }

  /** Notifications in the Error state deliver no scan: a sequence delivers what
      its notifications outside the Error state deliver. */
  lemma {:induction false} DeliveredSkipsErrors(ns: seq<Notification>)
    ensures Delivered(ns) == Delivered(NonError(ns))
  {
    if ns != [] {
      var init := ns[..|ns| - 1];
      var last := ns[|ns| - 1];
      DeliveredSkipsErrors(init);
      if last.state == Error {
        assert NonError(ns) == NonError(init);
        assert Delivered(ns) == Delivered(init);
      } else {
        var accepted := NonError(init) + [last];
        assert NonError(ns) == accepted;
        assert Delivered(ns) == Delivered(init) + [Frame(last.available)];
        assert accepted[..|accepted| - 1] == NonError(init);
        assert Delivered(accepted) == Delivered(NonError(init)) + [Frame(last.available)];
      }
    }
  }

  /** One scan per notification outside the Error state, in receipt order: the k-th
      scan is the frame of the k-th such notification's bytes; every scan is well
      formed and is the frame of some notification's bytes. */
  lemma {:induction false} DeliveredScans(ns: seq<Notification>)
    ensures |Delivered(ns)| == |NonError(ns)|
    ensures forall k :: 0 <= k < |Delivered(ns)| ==> Delivered(ns)[k] == Frame(NonError(ns)[k].available)
    ensures forall k :: 0 <= k < |Delivered(ns)| ==> WellFormed(Delivered(ns)[k])
    ensures forall k :: 0 <= k < |Delivered(ns)| ==>
              exists i :: 0 <= i < |ns| && ns[i].state != Error && Delivered(ns)[k] == Frame(ns[i].available)
  {
    DeliveredSkipsErrors(ns);
    DeliveredWithoutErrors(NonError(ns));
    forall k | 0 <= k < |Delivered(ns)|
      ensures exists i :: 0 <= i < |ns| && ns[i].state != Error && Delivered(ns)[k] == Frame(ns[i].available)
    {
      var n := NonError(ns)[k];
      assert n in ns;
      var i :| 0 <= i < |ns| && ns[i] == n;
    }
  }

  /** Outside the Error state every notification is read: the k-th scan is the
      frame of the k-th notification's pending bytes. */
  lemma {:induction false} DeliveredWithoutErrors(ns: seq<Notification>)
    requires forall i :: 0 <= i < |ns| ==> ns[i].state != Error
    ensures |Delivered(ns)| == |ns|
    ensures forall k :: 0 <= k < |ns| ==> Delivered(ns)[k] == Frame(ns[k].available)
  {
    if ns != [] {
      var init := ns[..|ns| - 1];
      DeliveredWithoutErrors(init);
    }
  }

  /** In the Error state no notification produces a scan. */
  lemma {:induction false} DeliveredInErrorState(ns: seq<Notification>)
    requires forall i :: 0 <= i < |ns| ==> ns[i].state == Error
    ensures Delivered(ns) == []
  {
    if ns != [] {
      DeliveredInErrorState(ns[..|ns| - 1]);
    }
  }

  /** An example: a four-byte notification ending in a carriage return gives the
      three-byte label, a one-byte notification gives itself, and in the Error state
      the four bytes are not read. */
  lemma FramingExample()
    ensures Receive(Idle, [0x41, 0x42, 0x43, 0x0D]) == GoodScan(ScanRecord([0x41, 0x42, 0x43, 0x0D], Ean13S, [0x41, 0x42, 0x43]))
    ensures Receive(Idle, [0x05]) == GoodScan(ScanRecord([0x05], Ean13S, [0x05]))
    ensures Receive(Error, [0x41, 0x42, 0x43, 0x0D]) == Ignored(ErrorStateWarning)
  {
  }
}

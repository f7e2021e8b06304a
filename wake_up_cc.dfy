/**
 * The Wake Up command class: the awake/asleep view of a node's status, the
 * Interval Set serializer and the Interval Report and Interval Capabilities
 * Report parsers.
 */
module WakeUpCC {
  import opened Wrappers
  import opened Errors
  import opened Bytes
  import opened NodeTypes

  /** The largest wake-up interval plus one: the interval is a 3-byte field. */
  const IntervalLimit: nat := 0x100_0000

  lemma IntervalLimitIsThreeBytes()
    ensures Pow256(3) == IntervalLimit
  {
  }

  /** WakeUpCC.isAwake: only Asleep and Dead count as not awake; Unknown is assumed awake. */
  function IsAwake(status: NodeStatus): (r: bool)
    ensures r <==> status != Asleep && status != Dead
  {
    match status
    case Asleep => false
    case Dead => false
    case Unknown => true
    case Awake => true
  }

  /** The status WakeUpCC.setAwake writes into the node. */
  function AwakeStatus(awake: bool): (r: NodeStatus)
    ensures r == Awake || r == Asleep
  {
    if awake then Awake else Asleep
  }

  /** Setting the status from a flag and reading it back with IsAwake gives the flag. */
  lemma SetAwakeThenIsAwake(awake: bool)
    ensures IsAwake(AwakeStatus(awake)) == awake
  {
  }

  datatype IntervalSet = IntervalSet(wakeupInterval: int, controllerNodeId: int)

  /** An Interval Set is never deserialized: the constructor throws. */
  function DeserializeIntervalSet(payload: seq<Byte>): (r: Result<IntervalSet, Thrown>)
    ensures r == Err(ZWaveError(Deserialization_NotImplemented))
  {
    Err(ZWaveError(Deserialization_NotImplemented))
  }

  /**
   * IntervalSet.serialize: a 4-byte buffer holding three placeholder bytes and
   * the controller node id (Buffer.from keeps its low byte), into whose first
   * three bytes the interval is then written big-endian. writeUIntBE throws a
   * RangeError for an interval that does not fit in three bytes.
   */
  method SerializeIntervalSet(s: IntervalSet) returns (r: Result<seq<Byte>, Thrown>)
    ensures r.Ok? <==> 0 <= s.wakeupInterval < IntervalLimit
    ensures r.Err? ==> r.error == RangeError
    ensures r.Ok? ==> (|r.value| == 4
                       && UIntBE(r.value[..3]) == s.wakeupInterval
                       && r.value[3] == s.controllerNodeId % 256)
  {
    var payload := new Byte[4];
    payload[0], payload[1], payload[2], payload[3] := 0, 0, 0, s.controllerNodeId % 256;
    if !(0 <= s.wakeupInterval < IntervalLimit) {
      return Err(RangeError);
    }
    IntervalLimitIsThreeBytes();
    var encoded := EncodeUIntBE(s.wakeupInterval, 3);
    UIntBERoundTrip(s.wakeupInterval, 3);
    var i := 0;
    while i < 3
      invariant 0 <= i <= 3
      invariant payload[..i] == encoded[..i]
      invariant payload[3] == s.controllerNodeId % 256
    {
      payload[i] := encoded[i];
      i := i + 1;
    }
    assert payload[..3] == encoded;
    r := Ok(payload[..]);
    assert r.value[..3] == payload[..3];
  }

  /** An Interval Report; the node id is `undefined` when the payload has only three bytes. */
  datatype IntervalReport = IntervalReport(wakeupInterval: nat, controllerNodeId: Option<Byte>)

  /** The Interval Report constructor: readUIntBE(0, 3) throws a RangeError on a shorter payload. */
  function ParseIntervalReport(payload: seq<Byte>): (r: Result<IntervalReport, Thrown>)
    ensures r.Ok? <==> |payload| >= 3
    ensures r.Err? ==> r.error == RangeError
    ensures r.Ok? ==> (r.value.wakeupInterval == UIntBE(payload[..3])
                       && r.value.controllerNodeId == At(payload, 3))
  {
    if |payload| < 3 then Err(RangeError)
    else
      Ok(IntervalReport(UIntBE(payload[..3]), At(payload, 3)))
  }

  /** What an Interval Set carries is read back by the Interval Report parser. */
  lemma IntervalRoundTrip(s: IntervalSet, bytes: seq<Byte>)
    requires 0 <= s.controllerNodeId < 256
    requires |bytes| == 4 && UIntBE(bytes[..3]) == s.wakeupInterval && bytes[3] == s.controllerNodeId
    ensures ParseIntervalReport(bytes) == Ok(IntervalReport(s.wakeupInterval, Some(s.controllerNodeId)))
  {
  }

  /** The Interval Report parser takes every 3-byte interval field to a distinct interval. */
  lemma IntervalReportInjective(p: seq<Byte>, q: seq<Byte>)
    requires |p| >= 3 && |q| >= 3
    requires ParseIntervalReport(p).value.wakeupInterval == ParseIntervalReport(q).value.wakeupInterval
    ensures p[..3] == q[..3]
  {
    EncodeUIntBERoundTrip(p[..3]);
    EncodeUIntBERoundTrip(q[..3]);
  }

  datatype IntervalCapabilities = IntervalCapabilities(
    minWakeUpInterval: nat,
    maxWakeUpInterval: nat,
    defaultWakeUpInterval: nat,
    wakeUpIntervalSteps: nat)

  /** The Interval Capabilities Report constructor: four 3-byte big-endian fields at 0, 3, 6 and 9. */
  function ParseIntervalCapabilitiesReport(payload: seq<Byte>): (r: Result<IntervalCapabilities, Thrown>)
    ensures r.Ok? <==> |payload| >= 12
    ensures r.Err? ==> r.error == RangeError
    ensures r.Ok? ==> (r.value.minWakeUpInterval == UIntBE(payload[0..3])
                       && r.value.maxWakeUpInterval == UIntBE(payload[3..6])
                       && r.value.defaultWakeUpInterval == UIntBE(payload[6..9])
                       && r.value.wakeUpIntervalSteps == UIntBE(payload[9..12]))
  {
    if |payload| < 12 then Err(RangeError)
    else
      Ok(IntervalCapabilities(UIntBE(payload[0..3]), UIntBE(payload[3..6]),
                              UIntBE(payload[6..9]), UIntBE(payload[9..12])))
  }
}

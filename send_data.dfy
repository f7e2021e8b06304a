/**
 * ZW_SendData and ZW_SendDataMulticast (Z-Wave Serial API, INS12350): the
 * request constructors and payload layouts, the controller's response and
 * transmit report, and the classification of received messages as
 * responses to a sent request.
 */
module SendDataMessages {
  import opened Wrappers
  import opened Errors
  import opened Bytes
  import opened CommandClasses
  import NodeTypes

  /** Transmit option bits. */
  const TransmitACK: Byte := 0x01
  const TransmitLowPower: Byte := 0x02
  const TransmitAutoRoute: Byte := 0x04
  const TransmitNoRoute: Byte := 0x10
  const TransmitExplore: Byte := 0x20
  /** ACK | AutoRoute | Explore */
  const DefaultTransmitOptions: Byte := 0x25

  /** Transmit status of a transmit report; only OK means success. */
  const TransmitOK: Byte := 0x00
  const TransmitNoAck: Byte := 0x01
  const TransmitFail: Byte := 0x02
  const TransmitNotIdle: Byte := 0x03
  const TransmitNoRouteStatus: Byte := 0x04

  datatype SendDataRequest = SendDataRequest(command: CC, transmitOptions: Byte)
  datatype SendDataMulticastRequest = SendDataMulticastRequest(command: CC, transmitOptions: Byte)

  /** Only a singlecast (or broadcast) command can be sent with SendData. */
  function NewSendDataRequest(command: CC, transmitOptions: Option<Byte>): (r: Result<SendDataRequest, Thrown>)
    ensures r.Err? <==> !command.target.Singlecast?
    ensures r.Err? ==> r.error == ZWaveError(Argument_Invalid)
    ensures r.Ok? ==> (r.value.command == command
      && r.value.transmitOptions == (if transmitOptions.Some? then transmitOptions.value else DefaultTransmitOptions))
  {
    if !command.target.Singlecast? then Err(ZWaveError(Argument_Invalid))
    else Ok(SendDataRequest(command, if transmitOptions.Some? then transmitOptions.value else DefaultTransmitOptions))
  }

  /** A multicast needs a multicast command with at least one target, each a valid node id. */
  function NewSendDataMulticastRequest(command: CC, transmitOptions: Option<Byte>): (r: Result<SendDataMulticastRequest, Thrown>)
    ensures r.Ok? <==>
      command.target.Multicast? && |command.target.nodeIds| > 0
      && forall i :: 0 <= i < |command.target.nodeIds| ==> 1 <= command.target.nodeIds[i] <= NodeTypes.MAX_NODES
    ensures r.Err? ==> r.error == ZWaveError(Argument_Invalid)
    ensures r.Ok? ==> (r.value.command == command
      && r.value.transmitOptions == (if transmitOptions.Some? then transmitOptions.value else DefaultTransmitOptions))
  {
    if !command.target.Multicast? then Err(ZWaveError(Argument_Invalid))
    else if |command.target.nodeIds| == 0 then Err(ZWaveError(Argument_Invalid))
    else if exists i :: 0 <= i < |command.target.nodeIds| && (command.target.nodeIds[i] < 1 || command.target.nodeIds[i] > NodeTypes.MAX_NODES) then
      Err(ZWaveError(Argument_Invalid))
    else Ok(SendDataMulticastRequest(command, if transmitOptions.Some? then transmitOptions.value else DefaultTransmitOptions))
  }

  /** Buffer.from([n]) keeps the low byte of a number. */
  function LowByte(n: nat): Byte {
    n % 256
  }

  /** Payload of a SendData request: node id, command length, command, transmit options, callback id. */
  function SerializeSendData(req: SendDataRequest, callbackId: Byte): (r: seq<Byte>)
    requires req.command.target.Singlecast?
    ensures |r| == |req.command.body| + 4
  {
    [LowByte(req.command.target.nodeId), LowByte(|req.command.body|)] + req.command.body + [req.transmitOptions, callbackId]
  }

  /** Payload of a multicast: target count, node ids, command length, command, transmit options, callback id. */
  function SerializeSendDataMulticast(req: SendDataMulticastRequest, callbackId: Byte): (r: seq<Byte>)
    requires req.command.target.Multicast?
    ensures |r| == |req.command.target.nodeIds| + |req.command.body| + 4
  {
    var ids := req.command.target.nodeIds;
    [LowByte(|ids|)] + seq(|ids|, i requires 0 <= i < |ids| => LowByte(ids[i])) + [LowByte(|req.command.body|)]
      + req.command.body + [req.transmitOptions, callbackId]
  }

  /** The fields a SendData payload carries, as the controller reads them. */
  datatype SendDataFields = SendDataFields(nodeId: Byte, body: seq<Byte>, transmitOptions: Byte, callbackId: Byte)

  function ReadSendData(p: seq<Byte>): (r: Option<SendDataFields>)
    ensures r.Some? ==> |p| == |r.value.body| + 4
  {
    if |p| < 4 || p[1] as int + 4 != |p| then None
    else Some(SendDataFields(p[0], p[2..2 + p[1]], p[|p| - 2], p[|p| - 1]))
  }

  /** A SendData payload carries the node id, command, options and callback id unchanged. */
  lemma SendDataLayout(req: SendDataRequest, callbackId: Byte)
    requires req.command.target.Singlecast? && req.command.target.nodeId < 256 && |req.command.body| < 256
    ensures ReadSendData(SerializeSendData(req, callbackId))
      == Some(SendDataFields(req.command.target.nodeId, req.command.body, req.transmitOptions, callbackId))
  {
    var p := SerializeSendData(req, callbackId);
    assert p[2..2 + p[1]] == req.command.body;
  }

  /** The fields of a multicast payload. */
  datatype MulticastFields = MulticastFields(nodeIds: seq<Byte>, body: seq<Byte>, transmitOptions: Byte, callbackId: Byte)

  function ReadSendDataMulticast(p: seq<Byte>): (r: Option<MulticastFields>)
  {
    if |p| < 1 || |p| < p[0] as int + 2 then None
    else
      var n: int := p[0];
      var len: int := p[n + 1];
      if n + len + 4 != |p| then None
      else Some(MulticastFields(p[1..n + 1], p[n + 2..n + 2 + len], p[|p| - 2], p[|p| - 1]))
  }

  /** A multicast payload carries the targets, command, options and callback id unchanged. */
  lemma SendDataMulticastLayout(req: SendDataMulticastRequest, callbackId: Byte)
    requires req.command.target.Multicast?
    requires |req.command.target.nodeIds| < 256 && |req.command.body| < 256
    requires forall i :: 0 <= i < |req.command.target.nodeIds| ==> req.command.target.nodeIds[i] < 256
    ensures var r := ReadSendDataMulticast(SerializeSendDataMulticast(req, callbackId));
      r.Some? && r.value.nodeIds == req.command.target.nodeIds && r.value.body == req.command.body
      && r.value.transmitOptions == req.transmitOptions && r.value.callbackId == callbackId
  {
    var ids := req.command.target.nodeIds;
    var n := |ids|;
    var p := SerializeSendDataMulticast(req, callbackId);
    assert p[0] == n;
    assert p[n + 1] == |req.command.body|;
    assert p[1..n + 1] == ids;
    assert p[n + 2..n + 2 + |req.command.body|] == req.command.body;
  }

  /** Basic Set (0x20 0x01) with value 0x63, the command of the test vectors below. */
  function BasicSet63(target: Target): CC {
    CC(0x20, Some(0x01), 0x20, target, [0x20, 0x01, 0x63], NoResponse, None, false, Plain)
  }

  /** Broadcast SendData test vector: payload ff 03 20 01 63 25 01. */
  lemma SendDataBroadcastVector()
    ensures SerializeSendData(SendDataRequest(BasicSet63(Singlecast(NodeTypes.NODE_ID_BROADCAST)), DefaultTransmitOptions), 1)
      == [0xff, 0x03, 0x20, 0x01, 0x63, 0x25, 0x01]
  {
  }

  /** Multicast test vector to nodes 2 and 3: payload 02 02 03 03 20 01 63 25 01. */
  lemma SendDataMulticastVector()
    ensures SerializeSendDataMulticast(SendDataMulticastRequest(BasicSet63(Multicast([2, 3])), DefaultTransmitOptions), 1)
      == [0x02, 0x02, 0x03, 0x03, 0x20, 0x01, 0x63, 0x25, 0x01]
  {
  }

  /**
   * A transmit report as read from its payload. Either field is `undefined`
   * (None) when the payload is too short to hold it.
   */
  datatype TransmitReport = TransmitReport(callbackId: Option<Byte>, transmitStatus: Option<Byte>)

  /** Callback id from byte 0, status from byte 1, whatever the payload's length. */
  function ParseTransmitReport(p: seq<Byte>): (r: TransmitReport)
    ensures r.callbackId.Some? <==> |p| >= 1
    ensures r.transmitStatus.Some? <==> |p| >= 2
    ensures r.callbackId.Some? ==> r.callbackId.value == p[0]
    ensures r.transmitStatus.Some? ==> r.transmitStatus.value == p[1]
  {
    TransmitReport(At(p, 0), At(p, 1))
  }

  /** isFailed(): the status is not OK; an `undefined` status is not OK either. */
  predicate IsFailed(r: TransmitReport) {
    r.transmitStatus != Some(TransmitOK)
  }

  /** The bytes of a report the controller sends: callback id, then status. */
  function TransmitReportBytes(callbackId: Byte, transmitStatus: Byte): (r: seq<Byte>)
    ensures |r| == 2
  {
    [callbackId, transmitStatus]
  }

  /** A report read from its two bytes (and whatever follows them) carries both fields. */
  lemma TransmitReportRoundTrip(callbackId: Byte, transmitStatus: Byte, rest: seq<Byte>)
    ensures ParseTransmitReport(TransmitReportBytes(callbackId, transmitStatus) + rest)
      == TransmitReport(Some(callbackId), Some(transmitStatus))
  {
    assert (TransmitReportBytes(callbackId, transmitStatus) + rest)[1] == transmitStatus;
  }

  /** A report counts as failed exactly when byte 1 is missing or is not OK. */
  lemma TransmitReportFailed(p: seq<Byte>)
    ensures IsFailed(ParseTransmitReport(p)) <==> |p| < 2 || p[1] != TransmitOK
  {
  }

  /** The controller's response: sent unless byte 0 is zero (a missing byte is not zero). */
  function ParseWasSent(p: seq<Byte>): (r: bool)
    ensures r <==> |p| == 0 || p[0] != 0
  {
    if |p| == 0 then true else p[0] != 0
  }

  /** Received messages, by class. */
  datatype Received =
    | SendDataResponse(wasSent: bool)
    | SendDataTransmitReport(report: TransmitReport)
    | SendDataMulticastResponse(mcWasSent: bool)
    | SendDataMulticastTransmitReport(mcReport: TransmitReport)
    | ApplicationCommandRequest(command: CC)
    | OtherReceived

  datatype ResponseRole = Confirmation | Final | FatalController | FatalNode | Unexpected

  /** What a command's own response test may answer. */
  datatype CCRole = CCConfirmation | CCFinal | CCUnexpected | CheckEncapsulated

  /** A command's own test of a possible response (sent, received command, is it a transmit report). */
  type CustomTest = (CC, Option<CC>, bool) -> CCRole

  function Role(r: CCRole): ResponseRole
    requires r != CheckEncapsulated
  {
    match r
    case CCConfirmation => Confirmation
    case CCFinal => Final
    case CCUnexpected => Unexpected
  }

  /** The answer at one level of the encapsulation chain. */
  function LevelRole(sent: CC, received: Option<CC>, isTransmitReport: bool, custom: CustomTest): CCRole {
    match sent.expected
    case NoResponse => if isTransmitReport then CCFinal else CCUnexpected
    case Fixed(cls) =>
      if received.Some? && received.value.cls == cls then
        (if IsEncapsulating(sent) then CheckEncapsulated else CCFinal)
      else if isTransmitReport then
        (if IsEncapsulating(sent) then CheckEncapsulated else CCConfirmation)
      else CCUnexpected
    case Custom => custom(sent, received, isTransmitReport)
  }

  /** No layer of the command tests responses itself. */
  predicate NoCustom(c: CC)
    decreases c
  {
    !c.expected.Custom? && (c.encapsulation.Single? ==> NoCustom(c.encapsulation.inner))
  }

  /**
   * testResponseForCC: the sent command's expected response decides, and an
   * encapsulating command defers to its encapsulated command (and the
   * received command's). A custom test asking to look deeper into a command
   * that encapsulates nothing fails with a TypeError.
   */
  function TestResponseForCC(sent: CC, received: Option<CC>, isTransmitReport: bool, custom: CustomTest): (r: Result<ResponseRole, Thrown>)
    ensures r.Ok? ==> r.value in {Confirmation, Final, Unexpected}
    ensures NoCustom(sent) ==> r.Ok?
    decreases sent
  {
    var level := LevelRole(sent, received, isTransmitReport, custom);
    if level != CheckEncapsulated then Ok(Role(level))
    else if !IsEncapsulating(sent) then Err(TypeError)
    else
      var inner := if received.Some? && IsEncapsulating(received.value) then Some(received.value.encapsulation.inner) else None;
      TestResponseForCC(sent.encapsulation.inner, inner, isTransmitReport, custom)
  }

  /** Every layer expects a fixed response class. */
  predicate FixedChain(c: CC)
    decreases c
  {
    c.expected.Fixed? && (c.encapsulation.Single? ==> FixedChain(c.encapsulation.inner))
  }

  /** The received command answers the sent one layer by layer. */
  predicate AnswersChain(sent: CC, received: CC)
    requires FixedChain(sent)
    decreases sent
  {
    && received.cls == sent.expected.responseClass
    && (IsEncapsulating(sent) ==> IsEncapsulating(received) && AnswersChain(sent.encapsulation.inner, received.encapsulation.inner))
  }

  /**
   * For commands that expect fixed responses at every layer, a command is
   * the final response exactly when it answers every layer, and is
   * unexpected otherwise.
   */
  lemma {:induction false} FixedChainFinal(sent: CC, received: CC, custom: CustomTest)
    requires FixedChain(sent)
    ensures TestResponseForCC(sent, Some(received), false, custom)
      == if AnswersChain(sent, received) then Ok(Final) else Ok(Unexpected)
    decreases sent
  {
    if IsEncapsulating(sent) && received.cls == sent.expected.responseClass && IsEncapsulating(received) {
      FixedChainFinal(sent.encapsulation.inner, received.encapsulation.inner, custom);
    }
  }

  /** For such commands a positive transmit report is a confirmation, whatever the nesting. */
  lemma {:induction false} FixedChainTransmitReport(sent: CC, custom: CustomTest)
    requires FixedChain(sent)
    ensures TestResponseForCC(sent, None, true, custom) == Ok(Confirmation)
    decreases sent
  {
    if IsEncapsulating(sent) {
      FixedChainTransmitReport(sent.encapsulation.inner, custom);
    }
  }

  /**
   * testResponseForSendDataRequest. Without a callback only the controller's
   * response matters; with one, the response confirms, a failed transmit
   * report is fatal for the node, and a positive report or an application
   * command is judged by the command's expected response.
   */
  function TestResponseForSendDataRequest(sent: SendDataRequest, callbackId: Byte, received: Received, custom: CustomTest): (r: Result<ResponseRole, Thrown>)
    ensures callbackId == 0 ==>
      r == (if received.SendDataResponse? then Ok(if received.wasSent then Final else FatalController) else Ok(Unexpected))
    ensures callbackId != 0 && received.SendDataResponse? ==>
      r == Ok(if received.wasSent then Confirmation else FatalController)
    ensures callbackId != 0 && received.SendDataTransmitReport? ==>
      r == if IsFailed(received.report) then Ok(FatalNode) else TestResponseForCC(sent.command, None, true, custom)
    ensures callbackId != 0 && received.ApplicationCommandRequest? ==>
      r == TestResponseForCC(sent.command, Some(received.command), false, custom)
    ensures callbackId != 0 && !(received.SendDataResponse? || received.SendDataTransmitReport? || received.ApplicationCommandRequest?) ==>
      r == Ok(Unexpected)
  {
    if callbackId == 0 then
      if received.SendDataResponse? then Ok(if received.wasSent then Final else FatalController) else Ok(Unexpected)
    else
      match received
      case SendDataResponse(wasSent) => Ok(if wasSent then (if callbackId == 0 then Final else Confirmation) else FatalController)
      case SendDataTransmitReport(report) =>
        if IsFailed(report) then Ok(FatalNode) else TestResponseForCC(sent.command, None, true, custom)
      case ApplicationCommandRequest(command) => TestResponseForCC(sent.command, Some(command), false, custom)
      case _ => Ok(Unexpected)
  }

  /** A multicast expects only the controller's response and transmit report. */
  function TestResponseForSendDataMulticastRequest(received: Received): (r: ResponseRole)
    ensures r == Confirmation <==> received.SendDataMulticastResponse? && received.mcWasSent
    ensures r == FatalController <==> received.SendDataMulticastResponse? && !received.mcWasSent
    ensures r == FatalNode <==> received.SendDataMulticastTransmitReport? && IsFailed(received.mcReport)
    ensures r == Final <==> received.SendDataMulticastTransmitReport? && !IsFailed(received.mcReport)
  {
    match received
    case SendDataMulticastResponse(wasSent) => if wasSent then Confirmation else FatalController
    case SendDataMulticastTransmitReport(report) => if IsFailed(report) then FatalNode else Final
    case _ => Unexpected
  }

  /**
   * A transmit report too short to carry a status is classified as a failure
   * for the node, for single and multicast requests alike.
   */
  lemma ShortTransmitReportIsFatal(sent: SendDataRequest, callbackId: Byte, p: seq<Byte>, custom: CustomTest)
    requires |p| < 2
    ensures callbackId != 0 ==>
      TestResponseForSendDataRequest(sent, callbackId, SendDataTransmitReport(ParseTransmitReport(p)), custom) == Ok(FatalNode)
    ensures TestResponseForSendDataMulticastRequest(SendDataMulticastTransmitReport(ParseTransmitReport(p))) == FatalNode
  {
  }
}

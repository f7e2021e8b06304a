/**
 * The driver's receive path: which single-byte reply a frame gets, how a
 * decoding error is answered, and how commands split over several messages
 * are collected into sessions until the final part arrives.
 */
module DriverReceive {
  import opened Wrappers
  import opened Errors
  import opened Text
  import opened CommandClasses
  import opened SendThreadMachine

  const DatabaseNotOpen := "database is not open"

  /** Decoding errors after which the frame is acknowledged and dropped. */
  predicate AcknowledgedCode(c: ErrorCode) {
    c in {Deserialization_NotImplemented, CC_NotImplemented, Driver_NotReady, PacketFormat_InvalidPayload, Driver_NoSecurity}
  }

  /**
   * The reply to a frame that could not be decoded: NAK for a malformed or
   * corrupted frame, ACK for the known harmless errors (and for a value
   * database that is not open yet), and the error itself otherwise.
   */
  function HandleDecodeError(e: Thrown): (r: Result<LinkHeader, Thrown>)
    ensures r == Ok(HeaderNAK) <==> e == ZWaveError(PacketFormat_Invalid) || e == ZWaveError(PacketFormat_Checksum)
    ensures r == Ok(HeaderACK) <==>
      (e.ZWaveError? && AcknowledgedCode(e.code)) || (e.OtherError? && Contains(e.message, DatabaseNotOpen))
    ensures r.Err? ==> r.error == e
    ensures r != Ok(HeaderCAN)
  {
    match e
    case ZWaveError(code) =>
      (match code
       case PacketFormat_Invalid => Ok(HeaderNAK)
       case PacketFormat_Checksum => Ok(HeaderNAK)
       case Deserialization_NotImplemented => Ok(HeaderACK)
       case CC_NotImplemented => Ok(HeaderACK)
       case Driver_NotReady => Ok(HeaderACK)
       case PacketFormat_InvalidPayload => Ok(HeaderACK)
       case Driver_NoSecurity => Ok(HeaderACK)
       case _ => Err(e))
    case OtherError(message) => if Contains(message, DatabaseNotOpen) then Ok(HeaderACK) else Err(e)
    case _ => Err(e)
  }

  /**
   * A session is identified by the node, the class and command of the
   * message's outermost command, and the session fields of the part.
   */
  datatype SessionKey = SessionKey(nodeId: nat, ccId: nat, ccCommand: Option<nat>, session: string)

  /** Merging a final part with its stored parts; None when it succeeds. */
  type Merge = (CC, seq<CC>) -> Option<Thrown>

  /** Errors from a merge after which the message is dropped instead of rethrown. */
  predicate DroppedMergeError(e: Thrown) {
    e.ZWaveError? && e.code in {Deserialization_NotImplemented, CC_NotImplemented, PacketFormat_InvalidPayload}
  }

  datatype MergeCall = MergeCall(final: CC, parts: seq<CC>)

  /** The sessions after a walk, the merges it asked for, and whether the message is complete. */
  datatype Assembly = Assembly(sessions: map<SessionKey, seq<CC>>, merges: seq<MergeCall>, result: Result<bool, Thrown>)

  function Stored(sessions: map<SessionKey, seq<CC>>, key: SessionKey): seq<CC> {
    if key in sessions then sessions[key] else []
  }

  /**
   * The walk down the encapsulation chain of `outer`, from `command` on: a
   * non-final part is stored and ends the walk with false; a final part
   * closes its session and is merged with the stored parts in arrival order.
   * Its behaviour is stated by the lemmas PartsStoredInOrder,
   * FinalPartMergesStoredParts and NoSessionPassesThrough below.
   */
  function Assemble(sessions: map<SessionKey, seq<CC>>, nodeId: nat, outer: CC, command: CC, merge: Merge): (a: Assembly)
    ensures a.result.Err? ==> !DroppedMergeError(a.result.error)
    decreases command
  {
    var next := if command.encapsulation.Single? then Some(command.encapsulation.inner) else None;
    if command.sessionId.Some? then
      var key := SessionKey(nodeId, outer.ccId, outer.ccCommand, command.sessionId.value);
      var parts := Stored(sessions, key);
      if command.expectMore then Assembly(sessions[key := parts + [command]], [], Ok(false))
      else
        var closed := sessions - {key};
        var outcome := merge(command, parts);
        if outcome.Some? then
          Assembly(closed, [MergeCall(command, parts)], if DroppedMergeError(outcome.value) then Ok(false) else Err(outcome.value))
        else if next.None? then Assembly(closed, [MergeCall(command, parts)], Ok(true))
        else
          var rest := Assemble(closed, nodeId, outer, next.value, merge);
          rest.(merges := [MergeCall(command, parts)] + rest.merges)
    else if next.None? then Assembly(sessions, [], Ok(true))
    else Assemble(sessions, nodeId, outer, next.value, merge)
  }

  /** A message that decoded: its node and, for a command container, its command. */
  datatype Received = Received(id: nat, nodeId: nat, command: Option<CC>)

  /** What arrives from the serial port: a single-byte header or a frame and how its decoding went. */
  datatype Frame = HeaderFrame(h: LinkHeader) | DataFrame(decoded: Result<Received, Thrown>)

  datatype Output =
    | HeaderToSendThread(h: LinkHeader)
    | WroteHeader(h: LinkHeader)
    | MessageToSendThread(id: nat)
    | NonceGetToNode(nodeId: nat)

  /**
   * Security Command Encapsulation Nonce Get (command 0xC1 of the Security
   * command class, 0x98): an encapsulated command that also asks for a nonce.
   */
  predicate IsEncapsulationNonceGet(c: CC) {
    c.ccId == 0x98 && c.ccCommand == Some(0xC1)
  }

  /** The nonce request handed to the sending node, when the driver knows that node. */
  function NonceGetReply(m: Received, knownNodes: set<nat>): (r: seq<Output>)
    ensures r != [] <==> m.command.Some? && IsEncapsulationNonceGet(m.command.value) && m.nodeId in knownNodes
    ensures r != [] ==> r == [NonceGetToNode(m.nodeId)]
  {
    if m.command.Some? && IsEncapsulationNonceGet(m.command.value) && m.nodeId in knownNodes then
      [NonceGetToNode(m.nodeId)]
    else []
  }

  class Receiver {
    var sessions: map<SessionKey, seq<CC>>
    var merges: seq<MergeCall>
    var outputs: seq<Output>

    constructor ()
      ensures sessions == map[] && merges == [] && outputs == []
    {
      sessions := map[];
      merges := [];
      outputs := [];
    }

    /** assemblePartialCCs: true when the message is complete and may be handled. */
    method AssemblePartialCCs(nodeId: nat, outer: CC, merge: Merge) returns (r: Result<bool, Thrown>)
      modifies this`sessions, this`merges
      ensures var a := Assemble(old(sessions), nodeId, outer, outer, merge);
        sessions == a.sessions && merges == old(merges) + a.merges && r == a.result
    {
      var command := outer;
      ghost var done: seq<MergeCall> := [];
      ghost var target := Assemble(old(sessions), nodeId, outer, outer, merge);
      while true
        invariant merges == old(merges) + done
        invariant var a := Assemble(sessions, nodeId, outer, command, merge);
          target.sessions == a.sessions && target.result == a.result && target.merges == done + a.merges
        decreases command
      {
        ghost var s0 := sessions;
        if command.sessionId.Some? {
          var stop := SessionStep(nodeId, outer, command, merge);
          ghost var key := SessionKey(nodeId, outer.ccId, outer.ccCommand, command.sessionId.value);
          if stop.Some? {
            return stop.value;
          }
          done := done + [MergeCall(command, Stored(s0, key))];
        }
        if command.encapsulation.Single? {
          command := command.encapsulation.inner;
        } else {
          break;
        }
      }
      return Ok(true);
    }

    /**
     * The session handling of one command in the loop of
     * assemblePartialCCs: a part that expects more is stored behind the
     * session's earlier parts and stops the walk with false; a final part
     * closes the session and is merged with its parts, and a failed merge
     * stops the walk (false for the dropped errors, the error otherwise).
     */
    method SessionStep(nodeId: nat, outer: CC, command: CC, merge: Merge) returns (stop: Option<Result<bool, Thrown>>)
      requires command.sessionId.Some?
      modifies this`sessions, this`merges
      ensures var key := SessionKey(nodeId, outer.ccId, outer.ccCommand, command.sessionId.value);
        var parts := Stored(old(sessions), key);
        var a := Assemble(old(sessions), nodeId, outer, command, merge);
        && (command.expectMore ==> stop == Some(Ok(false)) && merges == old(merges)
                                   && sessions == old(sessions)[key := parts + [command]])
        && (!command.expectMore ==> sessions == old(sessions) - {key}
                                    && merges == old(merges) + [MergeCall(command, parts)])
        && (stop.Some? ==> a == Assembly(sessions, merges[|old(merges)|..], stop.value))
        && (stop.None? ==> merge(command, parts).None?)
    {
      var key := SessionKey(nodeId, outer.ccId, outer.ccCommand, command.sessionId.value);
      ghost var s0 := sessions;
      if key !in sessions {
        sessions := sessions[key := []];
      }
      var session := sessions[key];
      assert session == Stored(s0, key);
      if command.expectMore {
        sessions := sessions[key := session + [command]];
        return Some(Ok(false));
      }
      sessions := sessions - {key};
      assert sessions == s0 - {key};
      merges := merges + [MergeCall(command, session)];
      var failure := merge(command, session);
      if failure.Some? {
        if DroppedMergeError(failure.value) {
          return Some(Ok(false));
        }
        return Some(Err(failure.value));
      }
      return None;
    }

    /**
     * serialport_onData: headers go to the send thread; a decoded frame is
     * acknowledged and, once complete, handed to the send thread; a frame that
     * failed to decode gets the reply handleDecodeError chooses, or the error
     * propagates. A Command Encapsulation Nonce Get from a known node is also
     * handed to that node to answer, before the encapsulated part is assembled.
     */
    method OnData(frame: Frame, merge: Merge, knownNodes: set<nat>) returns (r: Result<(), Thrown>)
      modifies this
      ensures frame.HeaderFrame? ==>
        r == Ok(()) && outputs == old(outputs) + [HeaderToSendThread(frame.h)]
        && sessions == old(sessions) && merges == old(merges)
      ensures frame.DataFrame? && frame.decoded.Err? ==>
        var reply := HandleDecodeError(frame.decoded.error);
        sessions == old(sessions) && merges == old(merges)
        && (reply.Err? ==> r == Err(reply.error) && outputs == old(outputs))
        && (reply.Ok? ==> r == Ok(()) && outputs == old(outputs) + [WroteHeader(reply.value)])
      ensures frame.DataFrame? && frame.decoded.Ok? && frame.decoded.value.command.None? ==>
        r == Ok(()) && sessions == old(sessions) && merges == old(merges)
        && outputs == old(outputs) + [WroteHeader(HeaderACK), MessageToSendThread(frame.decoded.value.id)]
      ensures frame.DataFrame? && frame.decoded.Ok? && frame.decoded.value.command.Some? ==>
        var m := frame.decoded.value;
        var a := Assemble(old(sessions), m.nodeId, m.command.value, m.command.value, merge);
        var acked := old(outputs) + [WroteHeader(HeaderACK)] + NonceGetReply(m, knownNodes);
        sessions == a.sessions && merges == old(merges) + a.merges
        && (a.result.Err? ==> r == Err(a.result.error) && outputs == acked)
        && (a.result == Ok(false) ==> r == Ok(()) && outputs == acked)
        && (a.result == Ok(true) ==> r == Ok(()) && outputs == acked + [MessageToSendThread(m.id)])
    {
      match frame {
        case HeaderFrame(h) =>
          outputs := outputs + [HeaderToSendThread(h)];
          return Ok(());
        case DataFrame(decoded) =>
          if decoded.Err? {
            var reply := HandleDecodeError(decoded.error);
            if reply.Err? {
              return Err(reply.error);
            }
            outputs := outputs + [WroteHeader(reply.value)];
            return Ok(());
          }
          outputs := outputs + [WroteHeader(HeaderACK)];
          var m := decoded.value;
          if m.command.Some? {
            outputs := outputs + NonceGetReply(m, knownNodes);
            var complete := AssemblePartialCCs(m.nodeId, m.command.value, merge);
            if complete.Err? {
              return Err(complete.error);
            }
            if !complete.value {
              return Ok(());
            }
          }
          outputs := outputs + [MessageToSendThread(m.id)];
          return Ok(());
      }
    }
  }

  /** A plain part of a session: no encapsulation, expecting more parts. */
  predicate NonFinalPart(c: CC, nodeId: nat, key: SessionKey) {
    && c.encapsulation.Plain?
    && c.sessionId.Some?
    && c.expectMore
    && key == SessionKey(nodeId, c.ccId, c.ccCommand, c.sessionId.value)
  }

  /** The sessions after receiving `parts` one message each. */
  function Feed(sessions: map<SessionKey, seq<CC>>, nodeId: nat, parts: seq<CC>, merge: Merge): map<SessionKey, seq<CC>>
    decreases |parts|
  {
    if parts == [] then sessions
    else
      var last := parts[|parts| - 1];
      Assemble(Feed(sessions, nodeId, parts[..|parts| - 1], merge), nodeId, last, last, merge).sessions
  }

  /** Non-final parts of one session are stored in arrival order, and no other session changes. */
  lemma {:induction false} PartsStoredInOrder(sessions: map<SessionKey, seq<CC>>, nodeId: nat, key: SessionKey, parts: seq<CC>, merge: Merge)
    requires forall i :: 0 <= i < |parts| ==> NonFinalPart(parts[i], nodeId, key)
    ensures Stored(Feed(sessions, nodeId, parts, merge), key) == Stored(sessions, key) + parts
    ensures forall k :: k != key ==>
      (k in Feed(sessions, nodeId, parts, merge) <==> k in sessions)
      && (k in sessions ==> Feed(sessions, nodeId, parts, merge)[k] == sessions[k])
    decreases |parts|
  {
    if parts != [] {
      var init := parts[..|parts| - 1];
      PartsStoredInOrder(sessions, nodeId, key, init, merge);
      assert init + [parts[|parts| - 1]] == parts;
    }
  }

  /**
   * A final part after non-final parts of a fresh session is merged with
   * exactly those parts, in the order they arrived, and the session is closed.
   */
  lemma FinalPartMergesStoredParts(sessions: map<SessionKey, seq<CC>>, nodeId: nat, key: SessionKey, parts: seq<CC>, final: CC, merge: Merge)
    requires key !in sessions
    requires forall i :: 0 <= i < |parts| ==> NonFinalPart(parts[i], nodeId, key)
    requires final.encapsulation.Plain? && final.sessionId.Some? && !final.expectMore
    requires key == SessionKey(nodeId, final.ccId, final.ccCommand, final.sessionId.value)
    ensures var a := Assemble(Feed(sessions, nodeId, parts, merge), nodeId, final, final, merge);
      a.merges == [MergeCall(final, parts)] && key !in a.sessions
      && (merge(final, parts).None? ==> a.result == Ok(true))
  {
    PartsStoredInOrder(sessions, nodeId, key, parts, merge);
    assert Stored(sessions, key) + parts == parts;
  }

  /** A message without session fields anywhere in its chain passes through unchanged. */
  lemma {:induction false} NoSessionPassesThrough(sessions: map<SessionKey, seq<CC>>, nodeId: nat, outer: CC, command: CC, merge: Merge)
    requires NoSession(command)
    ensures Assemble(sessions, nodeId, outer, command, merge) == Assembly(sessions, [], Ok(true))
    decreases command
  {
    if command.encapsulation.Single? {
      NoSessionPassesThrough(sessions, nodeId, outer, command.encapsulation.inner, merge);
    }
  }

  predicate NoSession(c: CC)
    decreases c
  {
    c.sessionId.None? && (c.encapsulation.Single? ==> NoSession(c.encapsulation.inner))
  }
}

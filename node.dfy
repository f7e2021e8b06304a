/**
 * A Z-Wave node as the driver sees it: its status and the events a status
 * change emits, the assumed sleep state, the lazily created endpoint
 * instances, the node information frame, the Central Scene key-held state
 * and the Wake Up "no more information" step.
 *
 * Emitted events and the scene values written into the value database are
 * recorded in sequence fields; timers are input events; the Wake Up send is
 * a parameter carrying its outcome.
 */
module Node {
  import opened Wrappers
  import opened Errors
  import opened Bytes
  import NT = NodeTypes
  import WakeUpCC
  import CS = CentralSceneCC

  /** The Wake Up command class id. */
  const WakeUpCCId: nat := 0x84

  /** The release timer a held key arms, in milliseconds. */
  const SlowRefreshTimeout: nat := 60000
  const FastRefreshTimeout: nat := 400

  datatype NodeEvent = AliveEvent | SleepEvent | WakeUpEvent | DeadEvent

  /**
   * The events the status setter emits when the status goes from `from` to
   * `to`: nothing for an unchanged status or when leaving Unknown; otherwise
   * "alive" when leaving Dead, then the event of the new status.
   */
  function StatusEvents(from: NT.NodeStatus, to: NT.NodeStatus): (r: seq<NodeEvent>)
    ensures from == to || from == NT.Unknown ==> r == []
    ensures AliveEvent in r <==> from == NT.Dead && to != NT.Dead
    ensures SleepEvent in r <==> to == NT.Asleep && from != NT.Asleep && from != NT.Unknown
    ensures WakeUpEvent in r <==> to == NT.Awake && from != NT.Awake && from != NT.Unknown
    ensures DeadEvent in r <==> to == NT.Dead && from != NT.Dead && from != NT.Unknown
    ensures |r| <= 2 && (|r| == 2 ==> r[0] == AliveEvent && r[1] != AliveEvent)
  {
    if from == to || from == NT.Unknown then []
    else
      var alive := if from == NT.Dead then [AliveEvent] else [];
      var entered := match to
        case Asleep => [SleepEvent]
        case Awake => [WakeUpEvent]
        case Dead => [DeadEvent]
        case Unknown => [];
      alive + entered
  }

  /** An endpoint instance (index ≥ 1); the endpoint's command classes are not part of this model. */
  class Endpoint {
    const nodeId: nat
    const index: nat

    constructor (nodeId: nat, index: nat)
      ensures this.nodeId == nodeId && this.index == index
    {
      this.nodeId := nodeId;
      this.index := index;
    }
  }

  /** What getEndpoint hands out: the node itself for index 0, or an endpoint instance. */
  datatype EndpointRef = TheNode | Instance(endpoint: Endpoint)

  function OrZero(v: Option<nat>): nat {
    if v.Some? then v.value else 0
  }

  /** A key held down: the scene and the release timeout armed for it. */
  datatype HeldKey = HeldKey(sceneNumber: Option<Byte>, timeout: nat)

  /** A value written into the scene's value id. */
  datatype SceneWrite = SceneWrite(sceneNumber: Option<Byte>, key: nat)

  /** The last key written for a scene, if any. */
  function LastKey(writes: seq<SceneWrite>, scene: Option<Byte>): Option<nat> {
    if writes == [] then None
    else if writes[|writes| - 1].sceneNumber == scene then Some(writes[|writes| - 1].key)
    else LastKey(writes[..|writes| - 1], scene)
  }

  /** A held key's scene still shows a key that was not released. */
  predicate ReleasePending(writes: seq<SceneWrite>, scene: Option<Byte>) {
    LastKey(writes, scene).Some? && LastKey(writes, scene).value != CS.KeyReleased
  }

  /** The forced release that a notification for another scene causes while a key is held. */
  function ForcedRelease(held: Option<HeldKey>, scene: Option<Byte>): (r: seq<SceneWrite>)
    ensures |r| <= 1
    ensures r != [] <==> held.Some? && held.value.sceneNumber != scene
    ensures r != [] ==> r[0] == SceneWrite(held.value.sceneNumber, CS.KeyReleased)
  {
    if held.Some? && held.value.sceneNumber != scene then [SceneWrite(held.value.sceneNumber, CS.KeyReleased)]
    else []
  }

  /** The held-key context after a notification. */
  function HeldAfter(held: Option<HeldKey>, n: CS.Notification): Option<HeldKey> {
    if n.keyAttribute == CS.KeyHeldDown then
      Some(HeldKey(n.sceneNumber, if n.slowRefresh then SlowRefreshTimeout else FastRefreshTimeout))
    else if n.keyAttribute == CS.KeyReleased then None
    else if ForcedRelease(held, n.sceneNumber) != [] then None
    else held
  }

  class Node {
    const id: nat
    var status: NT.NodeStatus
    var events: seq<NodeEvent>
    var supportedCCs: set<nat>
    var controlledCCs: set<nat>
    var nodeInfoReceived: bool
    var individualEndpointCount: Option<nat>
    var aggregatedEndpointCount: Option<nat>
    var endpointInstances: map<nat, Endpoint>
    var interviewStage: NT.InterviewStage
    var keepAwake: bool
    var isSendingNoMoreInformation: bool
    /** How many Wake Up No More Information commands were handed to the send path. */
    var noMoreInformationSent: nat
    var lastCentralSceneSequenceNumber: Option<Byte>
    var keyHeldDown: Option<HeldKey>
    var sceneValues: seq<SceneWrite>

    /**
     * Cached endpoints sit under their own index and belong to this node, and
     * while a key is held its scene shows a key that has not been released.
     */
    ghost predicate Valid()
      reads this
    {
      (forall k :: k in endpointInstances ==> endpointInstances[k].index == k && endpointInstances[k].nodeId == id)
      && (keyHeldDown.Some? ==> ReleasePending(sceneValues, keyHeldDown.value.sceneNumber))
    }

    constructor (id: nat)
      ensures Valid() && this.id == id
      ensures status == NT.Unknown && events == [] && interviewStage == NT.None
      ensures supportedCCs == {} && controlledCCs == {} && !nodeInfoReceived
      ensures endpointInstances == map[] && individualEndpointCount == None && aggregatedEndpointCount == None
      ensures !keepAwake && !isSendingNoMoreInformation && noMoreInformationSent == 0
      ensures lastCentralSceneSequenceNumber == None && keyHeldDown == None && sceneValues == []
    {
      this.id := id;
      status := NT.Unknown;
      events := [];
      supportedCCs := {};
      controlledCCs := {};
      nodeInfoReceived := false;
      individualEndpointCount := None;
      aggregatedEndpointCount := None;
      endpointInstances := map[];
      interviewStage := NT.None;
      keepAwake := false;
      isSendingNoMoreInformation := false;
      noMoreInformationSent := 0;
      lastCentralSceneSequenceNumber := None;
      keyHeldDown := None;
      sceneValues := [];
    }

    /** The status setter: store the new status and emit the events of the transition. */
    method SetStatus(value: NT.NodeStatus)
      modifies this`status, this`events
      ensures status == value
      ensures events == old(events) + StatusEvents(old(status), value)
    {
      var oldStatus := status;
      status := value;
      if oldStatus == status {
        return;
      }
      if oldStatus != NT.Unknown {
        if oldStatus == NT.Dead {
          events := events + [AliveEvent];
        }
        if status == NT.Asleep {
          events := events + [SleepEvent];
        } else if status == NT.Awake {
          events := events + [WakeUpEvent];
        } else if status == NT.Dead {
          events := events + [DeadEvent];
        }
      }
    }

    predicate SupportsWakeUp()
      reads this
    {
      WakeUpCCId in supportedCCs
    }

    /** isAwake: a node without Wake Up support is always awake; otherwise Wake Up's view of the status decides. */
    function IsAwake(): (r: bool)
      reads this
      ensures r <==> !SupportsWakeUp() || status == NT.Unknown || status == NT.Awake
    {
      !(SupportsWakeUp() && !WakeUpCC.IsAwake(status))
    }

    /** setAwake: a no-op without Wake Up support; otherwise the status becomes Awake or Asleep. */
    method SetAwake(awake: bool)
      modifies this`status, this`events
      ensures !SupportsWakeUp() ==> status == old(status) && events == old(events)
      ensures SupportsWakeUp() ==> status == WakeUpCC.AwakeStatus(awake)
                                   && events == old(events) + StatusEvents(old(status), status)
      ensures SupportsWakeUp() ==> IsAwake() == awake
    {
      if !SupportsWakeUp() {
        return;
      }
      SetStatus(WakeUpCC.AwakeStatus(awake));
      WakeUpCC.SetAwakeThenIsAwake(awake);
    }

    /** getEndpointCount: the individual plus the aggregated endpoints, a missing count read as 0. */
    function EndpointCount(): nat
      reads this
    {
      OrZero(individualEndpointCount) + OrZero(aggregatedEndpointCount)
    }

    /**
     * getEndpoint: a negative index throws, 0 is the node itself, an index
     * past the endpoint count gives `undefined`; any other index gives the
     * cached instance, created on first use.
     */
    method GetEndpoint(index: int) returns (r: Result<Option<EndpointRef>, Thrown>)
      requires Valid()
      modifies this`endpointInstances
      ensures Valid()
      ensures index < 0 ==> r == Err(ZWaveError(Argument_Invalid))
      ensures index == 0 ==> r == Ok(Some(TheNode))
      ensures index > EndpointCount() ==> r == Ok(None)
      ensures !(0 < index <= EndpointCount()) ==> endpointInstances == old(endpointInstances)
      ensures 0 < index <= EndpointCount() ==>
                index in endpointInstances
                && r == Ok(Some(Instance(endpointInstances[index])))
                && endpointInstances[index].index == index
      ensures 0 < index <= EndpointCount() && index in old(endpointInstances) ==>
                endpointInstances == old(endpointInstances)
      ensures 0 < index <= EndpointCount() && index !in old(endpointInstances) ==>
                fresh(endpointInstances[index]) && endpointInstances == old(endpointInstances)[index := endpointInstances[index]]
    {
      if index < 0 {
        return Err(ZWaveError(Argument_Invalid));
      }
      if index == 0 {
        return Ok(Some(TheNode));
      }
      if index > EndpointCount() {
        return Ok(None);
      }
      if index !in endpointInstances {
        var ep := new Endpoint(id, index);
        endpointInstances := endpointInstances[index := ep];
      }
      return Ok(Some(Instance(endpointInstances[index])));
    }

    /** getAllEndpoints: the node followed by endpoints 1 to the endpoint count, in order. */
    method GetAllEndpoints() returns (all: seq<EndpointRef>)
      requires Valid()
      modifies this`endpointInstances
      ensures Valid()
      ensures |all| == EndpointCount() + 1 && all[0] == TheNode
      ensures forall i :: 1 <= i < |all| ==>
                i in endpointInstances && all[i] == Instance(endpointInstances[i]) && endpointInstances[i].index == i
      ensures forall k :: k in old(endpointInstances) ==>
                k in endpointInstances && endpointInstances[k] == old(endpointInstances)[k]
    {
      all := [TheNode];
      var i := 1;
      while i <= EndpointCount()
        invariant Valid()
        invariant 1 <= i <= EndpointCount() + 1
        invariant |all| == i && all[0] == TheNode
        invariant forall j :: 1 <= j < i ==> j in endpointInstances && all[j] == Instance(endpointInstances[j])
        invariant forall k :: k in old(endpointInstances) ==>
                    k in endpointInstances && endpointInstances[k] == old(endpointInstances)[k]
        invariant individualEndpointCount == old(individualEndpointCount)
        invariant aggregatedEndpointCount == old(aggregatedEndpointCount)
      {
        var ep := GetEndpoint(i);
        all := all + [ep.value.value];
        i := i + 1;
      }
    }

    /**
     * updateNodeInfo: the first node information frame adds its supported
     * and controlled command classes; every frame marks the node awake.
     */
    method UpdateNodeInfo(supported: seq<nat>, controlled: seq<nat>)
      modifies this`supportedCCs, this`controlledCCs, this`nodeInfoReceived, this`status, this`events
      ensures nodeInfoReceived
      ensures old(nodeInfoReceived) ==> supportedCCs == old(supportedCCs) && controlledCCs == old(controlledCCs)
      ensures !old(nodeInfoReceived) ==>
                supportedCCs == old(supportedCCs) + (set cc | cc in supported)
                && controlledCCs == old(controlledCCs) + (set cc | cc in controlled)
      ensures !SupportsWakeUp() ==> status == old(status) && events == old(events)
      ensures SupportsWakeUp() ==> status == NT.Awake && events == old(events) + StatusEvents(old(status), NT.Awake)
      ensures IsAwake()
    {
      if !nodeInfoReceived {
        var i := 0;
        while i < |supported|
          invariant 0 <= i <= |supported|
          invariant supportedCCs == old(supportedCCs) + (set cc | cc in supported[..i])
          invariant controlledCCs == old(controlledCCs)
          invariant status == old(status) && events == old(events)
        {
          supportedCCs := supportedCCs + {supported[i]};
          i := i + 1;
          assert supported[..i] == supported[..i - 1] + [supported[i - 1]];
        }
        assert supported[..i] == supported;
        i := 0;
        while i < |controlled|
          invariant 0 <= i <= |controlled|
          invariant controlledCCs == old(controlledCCs) + (set cc | cc in controlled[..i])
          invariant supportedCCs == old(supportedCCs) + (set cc | cc in supported)
          invariant status == old(status) && events == old(events)
        {
          controlledCCs := controlledCCs + {controlled[i]};
          i := i + 1;
          assert controlled[..i] == controlled[..i - 1] + [controlled[i - 1]];
        }
        assert controlled[..i] == controlled;
        nodeInfoReceived := true;
      }
      SetAwake(true);
    }

    /** serialize: the interview stage written to the cache. */
    function SerializedInterviewStage(): (r: NT.InterviewStage)
      reads this
      ensures NT.StageAtLeast(interviewStage, NT.RestartFromCache) ==> r == NT.Complete
      ensures !NT.StageAtLeast(interviewStage, NT.RestartFromCache) ==> r == interviewStage
    {
      NT.CachedStage(interviewStage)
    }

    /**
     * handleCentralSceneNotification: a repeated sequence number is ignored;
     * otherwise a key held on another scene is released first, KeyHeldDown
     * (re)arms the release timer, KeyReleased disarms it, and the scene's
     * value becomes the key attribute.
     */
    method HandleCentralSceneNotification(n: CS.Notification)
      requires Valid()
      modifies this`lastCentralSceneSequenceNumber, this`keyHeldDown, this`sceneValues
      ensures Valid()
      ensures n.sequenceNumber == old(lastCentralSceneSequenceNumber) ==>
                lastCentralSceneSequenceNumber == old(lastCentralSceneSequenceNumber)
                && keyHeldDown == old(keyHeldDown) && sceneValues == old(sceneValues)
      ensures n.sequenceNumber != old(lastCentralSceneSequenceNumber) ==>
                lastCentralSceneSequenceNumber == n.sequenceNumber
                && sceneValues == old(sceneValues) + ForcedRelease(old(keyHeldDown), n.sceneNumber)
                                  + [SceneWrite(n.sceneNumber, n.keyAttribute)]
                && keyHeldDown == HeldAfter(old(keyHeldDown), n)
    {
      if n.sequenceNumber == lastCentralSceneSequenceNumber {
        return;
      }
      lastCentralSceneSequenceNumber := n.sequenceNumber;
      if keyHeldDown.Some? && keyHeldDown.value.sceneNumber != n.sceneNumber {
        ForceKeyUp();
      }
      if n.keyAttribute == CS.KeyHeldDown {
        keyHeldDown := Some(HeldKey(n.sceneNumber, if n.slowRefresh then SlowRefreshTimeout else FastRefreshTimeout));
      } else if n.keyAttribute == CS.KeyReleased {
        keyHeldDown := None;
      }
      sceneValues := sceneValues + [SceneWrite(n.sceneNumber, n.keyAttribute)];
      assert LastKey(sceneValues, n.sceneNumber) == Some(n.keyAttribute);
    }

    /** forceKeyUp: the held scene's value becomes KeyReleased and the context is cleared. */
    method ForceKeyUp()
      requires keyHeldDown.Some?
      modifies this`keyHeldDown, this`sceneValues
      ensures keyHeldDown == None
      ensures sceneValues == old(sceneValues) + [SceneWrite(old(keyHeldDown).value.sceneNumber, CS.KeyReleased)]
    {
      sceneValues := sceneValues + [SceneWrite(keyHeldDown.value.sceneNumber, CS.KeyReleased)];
      keyHeldDown := None;
    }

    /** The release timer of a held key elapsed. */
    method ReleaseTimerElapsed()
      requires Valid()
      modifies this`keyHeldDown, this`sceneValues
      ensures Valid()
      ensures keyHeldDown == None
      ensures old(keyHeldDown).None? ==> sceneValues == old(sceneValues)
      ensures old(keyHeldDown).Some? ==>
                sceneValues == old(sceneValues) + [SceneWrite(old(keyHeldDown).value.sceneNumber, CS.KeyReleased)]
    {
      if keyHeldDown.Some? {
        ForceKeyUp();
      }
    }

    /**
     * sendNoMoreInformation: refused (false) while the node is kept awake or
     * a call is in progress; sends only when the node is awake and its
     * interview is complete, then marks it asleep. `sendError` is the outcome
     * of the send; when it throws, the in-progress flag stays set.
     */
    method SendNoMoreInformation(sendError: Option<Thrown>) returns (r: Result<bool, Thrown>)
      modifies this`isSendingNoMoreInformation, this`noMoreInformationSent, this`status, this`events
      ensures old(keepAwake) || old(isSendingNoMoreInformation) ==>
                r == Ok(false) && isSendingNoMoreInformation == old(isSendingNoMoreInformation)
                && noMoreInformationSent == old(noMoreInformationSent)
                && status == old(status) && events == old(events)
      ensures !old(keepAwake) && !old(isSendingNoMoreInformation) && !(old(IsAwake()) && interviewStage == NT.Complete) ==>
                r == Ok(false) && !isSendingNoMoreInformation
                && noMoreInformationSent == old(noMoreInformationSent)
                && status == old(status) && events == old(events)
      ensures !old(keepAwake) && !old(isSendingNoMoreInformation) && old(IsAwake()) && interviewStage == NT.Complete ==>
                noMoreInformationSent == old(noMoreInformationSent) + 1
      ensures !old(keepAwake) && !old(isSendingNoMoreInformation) && old(IsAwake()) && interviewStage == NT.Complete
              && sendError.Some? ==>
                r == Err(sendError.value) && isSendingNoMoreInformation
                && status == old(status) && events == old(events)
      ensures !old(keepAwake) && !old(isSendingNoMoreInformation) && old(IsAwake()) && interviewStage == NT.Complete
              && sendError.None? ==>
                r == Ok(true) && !isSendingNoMoreInformation
                && (SupportsWakeUp() ==> status == NT.Asleep && events == old(events) + StatusEvents(old(status), NT.Asleep))
                && (!SupportsWakeUp() ==> status == old(status) && events == old(events))
    {
      if keepAwake {
        return Ok(false);
      }
      if isSendingNoMoreInformation {
        return Ok(false);
      }
      isSendingNoMoreInformation := true;
      var msgSent := false;
      if IsAwake() && interviewStage == NT.Complete {
        noMoreInformationSent := noMoreInformationSent + 1;
        if sendError.Some? {
          return Err(sendError.value);
        }
        SetAwake(false);
        msgSent := true;
      }
      isSendingNoMoreInformation := false;
      return Ok(msgSent);
    }
  }

  /** A failed send leaves the flag set, so every later call is refused without sending. */
  method StuckAfterFailedSend(node: Node, e: Thrown)
    requires !node.keepAwake && !node.isSendingNoMoreInformation
    requires node.IsAwake() && node.interviewStage == NT.Complete
    modifies node
    ensures node.isSendingNoMoreInformation
  {
    var first := node.SendNoMoreInformation(Some(e));
    assert first == Err(e);
    var second := node.SendNoMoreInformation(None);
    assert second == Ok(false);
  }
}

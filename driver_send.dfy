/**
 * The driver's send path around the send thread: callback ids, wrapping and
 * unwrapping commands, the checks and priority rules applied before a
 * message is queued, the reaction to a node that did not respond, and the
 * transaction reducers that move or reject queued transactions.
 */
module DriverSend {
  import opened Wrappers
  import opened Errors
  import NodeTypes
  import opened Transactions
  import opened CommandClasses
  import SendThreadMachine

  /** Hands out callback ids 1..255 in a cycle; 0 means "no callback" and is never used. */
  class CallbackIds {
    var lastCallbackId: nat

    ghost predicate Valid()
      reads this
    {
      1 <= lastCallbackId <= 255
    }

    constructor ()
      ensures Valid() && lastCallbackId == 0xff
    {
      lastCallbackId := 0xff;
    }

    /** The id after `lastCallbackId`, wrapping from 255 to 1. */
    method GetNextCallbackId() returns (id: nat)
      requires Valid()
      modifies this
      ensures Valid() && id == lastCallbackId
      ensures id == old(lastCallbackId) % 255 + 1
    {
      lastCallbackId := (lastCallbackId + 1) % 256;
      if lastCallbackId < 1 {
        lastCallbackId := 1;
      }
      id := lastCallbackId;
    }
  }

  /** The `n`-th id handed out by a fresh generator, following one step at a time. */
  function IdAfter(n: nat): (r: nat)
    ensures 1 <= r <= 255
  {
    if n == 0 then 0xff else IdAfter(n - 1) % 255 + 1
  }

  /** The ids run 1, 2, ..., 255, 1, 2, ... from the first call on. */
  lemma {:induction false} CallbackIdCycle(n: nat)
    requires n >= 1
    ensures IdAfter(n) == (n - 1) % 255 + 1
  {
    if n > 1 {
      CallbackIdCycle(n - 1);
    }
  }

  /** The message whose command the driver wraps and unwraps in place. */
  class CommandContainer {
    var command: CC

    constructor (command: CC)
      ensures this.command == command
    {
      this.command := command;
    }

    /**
     * Wraps the command in Supervision, then Multi Channel, then Security,
     * each only if that class asks for it given the command as wrapped so far.
     */
    method EncapsulateCommands(needs: (Layer, CC) -> bool, wrap: (Layer, CC) -> CC)
      modifies this
      ensures command == Encapsulated(old(command), needs, wrap)
    {
      if needs(SupervisionLayer, command) {
        command := wrap(SupervisionLayer, command);
      }
      if needs(MultiChannelLayer, command) {
        command := wrap(MultiChannelLayer, command);
      }
      if needs(SecurityLayer, command) {
        command := wrap(SecurityLayer, command);
      }
    }

    /** Unwraps single encapsulations until the core command (or a multi-command container). */
    method UnwrapCommands()
      modifies this
      ensures command == Core(old(command))
    {
      while command.encapsulation.Single? || command.encapsulation.Multiple?
        invariant Core(command) == Core(old(command))
        decreases command
      {
        if command.encapsulation.Multiple? {
          return;
        }
        command := command.encapsulation.inner;
      }
    }
  }

  /** The encapsulation order, from the inside out. */
  function Encapsulated(c: CC, needs: (Layer, CC) -> bool, wrap: (Layer, CC) -> CC): CC {
    Step(Step(Step(c, SupervisionLayer, needs, wrap), MultiChannelLayer, needs, wrap), SecurityLayer, needs, wrap)
  }

  /** An encapsulation function puts its argument inside one new command of the layer's class. */
  ghost predicate WrapsInner(wrap: (Layer, CC) -> CC) {
    forall l: Layer, c: CC :: wrap(l, c).encapsulation == Single(c) && wrap(l, c).ccId == LayerCcId(l)
  }

  /** The class id a wrapping step adds, if it applies. */
  function Added(applies: bool, l: Layer): seq<nat> {
    if applies then [LayerCcId(l)] else []
  }

  /** One optional wrapping step. */
  function Step(c: CC, l: Layer, needs: (Layer, CC) -> bool, wrap: (Layer, CC) -> CC): CC {
    if needs(l, c) then wrap(l, c) else c
  }

  /** Security ends up outermost and Supervision innermost among the wrappers. */
  lemma EncapsulationOrder(c: CC, needs: (Layer, CC) -> bool, wrap: (Layer, CC) -> CC)
    requires WrapsInner(wrap)
    ensures var c1 := Step(c, SupervisionLayer, needs, wrap);
      var c2 := Step(c1, MultiChannelLayer, needs, wrap);
      Layers(Encapsulated(c, needs, wrap)) ==
        Added(needs(SecurityLayer, c2), SecurityLayer)
        + Added(needs(MultiChannelLayer, c1), MultiChannelLayer)
        + Added(needs(SupervisionLayer, c), SupervisionLayer)
        + Layers(c)
  {
    var c1 := Step(c, SupervisionLayer, needs, wrap);
    var c2 := Step(c1, MultiChannelLayer, needs, wrap);
    var c3 := Step(c2, SecurityLayer, needs, wrap);
    StepLayers(c, SupervisionLayer, needs, wrap);
    StepLayers(c1, MultiChannelLayer, needs, wrap);
    StepLayers(c2, SecurityLayer, needs, wrap);
  }

  lemma StepLayers(c: CC, l: Layer, needs: (Layer, CC) -> bool, wrap: (Layer, CC) -> CC)
    requires WrapsInner(wrap)
    ensures Layers(Step(c, l, needs, wrap)) == Added(needs(l, c), l) + Layers(c)
    ensures Core(Step(c, l, needs, wrap)) == Core(c)
  {
    if needs(l, c) {
      WrapOne(l, c, wrap);
    }
  }

  /** Unwrapping undoes the driver's encapsulation. */
  lemma UnwrapEncapsulated(c: CC, needs: (Layer, CC) -> bool, wrap: (Layer, CC) -> CC)
    requires WrapsInner(wrap)
    ensures Core(Encapsulated(c, needs, wrap)) == Core(c)
  {
    var c1 := Step(c, SupervisionLayer, needs, wrap);
    var c2 := Step(c1, MultiChannelLayer, needs, wrap);
    StepLayers(c, SupervisionLayer, needs, wrap);
    StepLayers(c1, MultiChannelLayer, needs, wrap);
    StepLayers(c2, SecurityLayer, needs, wrap);
  }

  /** One wrapper adds its class on the outside and leaves the core alone. */
  lemma WrapOne(l: Layer, c: CC, wrap: (Layer, CC) -> CC)
    requires WrapsInner(wrap)
    ensures Layers(wrap(l, c)) == [LayerCcId(l)] + Layers(c)
    ensures Core(wrap(l, c)) == Core(c)
  {
    assert wrap(l, c).encapsulation == Single(c);
  }

  /** What the driver knows about a message's target node. */
  datatype NodeView = NodeView(id: nat, status: NodeTypes.NodeStatus, isAwake: bool, supportsWakeUp: bool)

  /** A message to a sleeping node is moved back to the WakeUp priority, with the listed exceptions. */
  predicate Demoted(node: Option<NodeView>, m: Message, p: Priority) {
    && node.Some?
    && !m.isPing
    && !node.value.isAwake
    && m.kind != SendDataMulticastRequest
    && p != Handshake
    && p != PreTransmitHandshake
  }

  /**
   * The checks before a message is queued and the priority it is queued
   * with. `addressesNode` says whether the message is a node query or
   * carries a command (only then is its node looked up); `defaultPriority`
   * stands for the message class's default; `functionSupported` is None when
   * there is no controller yet.
   */
  function SendMessagePriority(
    ready: bool, m: Message, addressesNode: bool, node: Option<NodeView>,
    given: Option<Priority>, defaultPriority: Option<Priority>,
    supportCheck: Option<bool>, functionSupported: Option<bool>): (r: Result<Priority, Thrown>)
    ensures !ready <==> r == Err(ZWaveError(Driver_NotReady))
    ensures r == Err(ZWaveError(Controller_MessageDropped)) <==>
      ready && addressesNode && node.Some? && node.value.status == NodeTypes.Dead
    ensures r == Err(ZWaveError(Driver_NoPriority)) <==>
      ready && !(addressesNode && node.Some? && node.value.status == NodeTypes.Dead)
      && given.None? && defaultPriority.None?
    ensures r == Err(ZWaveError(Driver_NotSupported)) <==>
      ready && !(addressesNode && node.Some? && node.value.status == NodeTypes.Dead)
      && (given.Some? || defaultPriority.Some?)
      && supportCheck != Some(false) && functionSupported == Some(false)
    ensures r.Ok? <==>
      ready && !(addressesNode && node.Some? && node.value.status == NodeTypes.Dead)
      && (given.Some? || defaultPriority.Some?)
      && !(supportCheck != Some(false) && functionSupported == Some(false))
    ensures r.Ok? ==>
      var p := if given.Some? then given.value else defaultPriority.value;
      r.value == if Demoted(if addressesNode then node else None, m, p) then WakeUp else p
  {
    var target := if addressesNode then node else None;
    if !ready then Err(ZWaveError(Driver_NotReady))
    else if target.Some? && target.value.status == NodeTypes.Dead then Err(ZWaveError(Controller_MessageDropped))
    else
      var p := if given.Some? then given else defaultPriority;
      if p.None? then Err(ZWaveError(Driver_NoPriority))
      else if (supportCheck.None? || supportCheck.value) && functionSupported == Some(false) then
        Err(ZWaveError(Driver_NotSupported))
      else if Demoted(target, m, p.value) then Ok(WakeUp)
      else Ok(p.value)
  }

  /** What the driver does about a send-data request whose node did not respond. */
  datatype NodeTimeoutAction =
    | NoAction
    | MarkAsleep(nodeId: nat)
    | MarkDeadAndRejectAll(nodeId: nat, maxSendAttempts: nat)

  /**
   * A node that supports Wake Up is presumed asleep (which moves its messages
   * to the wake-up queue); any other node is presumed dead and all its
   * transactions are rejected, unless the transaction opted out of changing
   * the node's status.
   */
  function HandleNodeTimeout(t: Transaction, changeNodeStatusOnTimeout: bool, node: Option<NodeView>): (r: NodeTimeoutAction)
    ensures r == NoAction <==> node.None? || !changeNodeStatusOnTimeout
    ensures r.MarkAsleep? <==> node.Some? && changeNodeStatusOnTimeout && node.value.supportsWakeUp
    ensures r.MarkAsleep? ==> r.nodeId == node.value.id
    ensures r.MarkDeadAndRejectAll? ==>
      r.nodeId == node.value.id && r.maxSendAttempts == t.message.maxSendAttempts
  {
    if node.None? then NoAction
    else if !changeNodeStatusOnTimeout then NoAction
    else if node.value.supportsWakeUp then MarkAsleep(node.value.id)
    else MarkDeadAndRejectAll(node.value.id, t.message.maxSendAttempts)
  }

  const NodeAsleep := "The node is asleep"
  const RemovedFromQueue := "The message has been removed from the queue"
  const NodeIsDead := "The node is dead"

  /**
   * The reducer applied when a node falls asleep: other nodes' transactions
   * stay; queued pings are rejected and the rest requeued at WakeUp; the
   * current transaction is rejected if it is a ping or a handshake response
   * and requeued at WakeUp otherwise.
   */
  function MoveToWakeUpReducer(nodeId: nat): SendThreadMachine.Reducer {
    (t: Transaction, src: SendThreadMachine.Source) =>
      if t.message.nodeId != Some(nodeId) then SendThreadMachine.Keep
      else if src == SendThreadMachine.FromQueue then
        (if t.message.isPing then SendThreadMachine.Reject(NodeAsleep, Controller_MessageDropped)
         else SendThreadMachine.Requeue(Some(WakeUp)))
      else if t.message.isPing || t.priority == Handshake then
        SendThreadMachine.Reject(NodeAsleep, Controller_MessageDropped)
      else SendThreadMachine.Requeue(Some(WakeUp))
  }

  /** The reducer behind rejectTransactions: reject what matches, keep everything else. */
  function RejectReducer(pred: Transaction -> bool, message: string, code: ErrorCode): SendThreadMachine.Reducer {
    (t: Transaction, src: SendThreadMachine.Source) =>
      if pred(t) then SendThreadMachine.Reject(message, code) else SendThreadMachine.Keep
  }

  /** The predicate of rejectAllTransactionsForNode. */
  function ForNode(nodeId: nat): Transaction -> bool {
    (t: Transaction) => t.message.nodeId == Some(nodeId)
  }

  /** The transactions of `q`, in order, for which `pred` is `polarity`. */
  function Filter(q: seq<Transaction>, pred: Transaction -> bool, polarity: bool): (r: seq<Transaction>)
    ensures forall t :: t in r <==> t in q && pred(t) == polarity
    decreases |q|
  {
    if q == [] then []
    else
      var init := Filter(q[..|q| - 1], pred, polarity);
      assert q == q[..|q| - 1] + [q[|q| - 1]];
      if pred(q[|q| - 1]) == polarity then init + [q[|q| - 1]] else init
  }

  /** The effect of rejecting each of `q` with the same message and code. */
  function RejectAll(q: seq<Transaction>, message: string, code: ErrorCode): (r: seq<SendThreadMachine.Effect>)
    ensures |r| == |q|
    ensures forall i :: 0 <= i < |q| ==>
      r[i] == SendThreadMachine.Rejected(q[i], ReducerRejected(message, code))
    decreases |q|
  {
    if q == [] then []
    else RejectAll(q[..|q| - 1], message, code) + [SendThreadMachine.Rejected(q[|q| - 1], ReducerRejected(message, code))]
  }

  /**
   * rejectTransactions rejects exactly the matching transactions, in queue
   * order, keeps all others in order, and requeues nothing.
   */
  lemma {:induction false} RejectTransactionsExact(
    q: seq<Transaction>, src: SendThreadMachine.Source, pred: Transaction -> bool, message: string, code: ErrorCode)
    ensures SendThreadMachine.Classify(q, src, RejectReducer(pred, message, code))
      == SendThreadMachine.Sorting(Filter(q, pred, false), [], RejectAll(Filter(q, pred, true), message, code))
    decreases |q|
  {
    if q != [] {
      RejectTransactionsExact(q[..|q| - 1], src, pred, message, code);
    }
  }

  /** The wake-up reducer keeps exactly the other nodes' transactions and loses none of the node's. */
  lemma {:induction false} MoveToWakeUpQueued(q: seq<Transaction>, nodeId: nat)
    ensures var s := SendThreadMachine.Classify(q, SendThreadMachine.FromQueue, MoveToWakeUpReducer(nodeId));
      && (forall t :: t in s.kept <==> t in q && t.message.nodeId != Some(nodeId))
      && (forall t :: t in s.requeue ==> t.priority == WakeUp && t.message.nodeId == Some(nodeId) && !t.message.isPing)
      && (forall e :: e in s.rejected ==>
            e.Rejected? && e.t.message.nodeId == Some(nodeId) && e.t.message.isPing
            && e.why == ReducerRejected(NodeAsleep, Controller_MessageDropped))
      && |s.kept| + |s.requeue| + |s.rejected| == |q|
    decreases |q|
  {
    var r := MoveToWakeUpReducer(nodeId);
    SendThreadMachine.ClassifyKept(q, SendThreadMachine.FromQueue, r, _ => 0);
    if q != [] {
      MoveToWakeUpQueued(q[..|q| - 1], nodeId);
    }
  }

  /** For the current transaction the wake-up reducer also rejects handshake responses. */
  lemma MoveToWakeUpCurrent(t: Transaction, nodeId: nat)
    ensures var v := MoveToWakeUpReducer(nodeId)(t, SendThreadMachine.FromCurrent);
      && (v == SendThreadMachine.Keep <==> t.message.nodeId != Some(nodeId))
      && (v.Reject? <==> t.message.nodeId == Some(nodeId) && (t.message.isPing || t.priority == Handshake))
      && (v.Requeue? ==> v.priority == Some(WakeUp))
      && !v.Drop?
  {
  }

  /** The reported CC version a driver may use with a node. */
  datatype ImplementedVersion = Finite(n: nat) | Unbounded

  /**
   * Version 1 for a CC the node does not support; otherwise the lower of the
   * node's and the library's version, which fails with CC_NotSupported when
   * the library does not implement the CC.
   */
  function GetSafeCCVersion(supportedVersion: nat, implemented: ImplementedVersion): (r: Result<nat, Thrown>)
    ensures supportedVersion == 0 ==> r == Ok(1)
    ensures r.Err? <==> supportedVersion != 0 && (implemented == Unbounded || implemented == Finite(0))
    ensures r.Err? ==> r.error == ZWaveError(CC_NotSupported)
    ensures r.Ok? && supportedVersion != 0 ==>
      1 <= r.value && r.value <= supportedVersion && r.value <= implemented.n
      && (r.value == supportedVersion || r.value == implemented.n)
  {
    if supportedVersion == 0 then Ok(1)
    else if implemented.Finite? && implemented.n != 0 then
      Ok(if supportedVersion < implemented.n then supportedVersion else implemented.n)
    else Err(ZWaveError(CC_NotSupported))
  }
}

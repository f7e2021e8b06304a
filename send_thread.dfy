/**
 * The send thread: the application-level machine that owns the priority queue
 * of transactions and a single current slot, decides when the head may be
 * sent, runs the optional pre-transmit handshake, hands the current
 * transaction to the command queue, waits for the node's update and retries
 * send-data requests a bounded number of times.
 *
 * Rest states only: init, beforeSend and done are transient and are folded
 * into the event methods. Calls out of the machine (resolving or rejecting a
 * transaction's promise, forwarding to the command queue, invoking services)
 * are appended to `effects`.
 */
module SendThreadMachine {
  import opened Wrappers
  import opened Errors
  import opened Transactions

  datatype State =
    | Idle
    | HandshakeWaitForCommandResult
    | HandshakeWaitForHandshakeResponse
    | Execute
    | WaitForUpdate
    | RetryWait

  predicate IsHandshakeState(s: State) {
    s == HandshakeWaitForCommandResult || s == HandshakeWaitForHandshakeResponse
  }

  /** Single-byte frames from the serial port. */
  datatype LinkHeader = HeaderACK | HeaderNAK | HeaderCAN

  /** A received message: only whether it is an ApplicationCommandRequest matters here. */
  datatype Inbound = Inbound(id: nat, isApplicationCommand: bool)

  /** Whether a received message answers a sent one (the command's isExpectedCCResponse). */
  type ResponseTest = (Message, Inbound) -> bool

  datatype Effect =
    | Resolved(t: Transaction, withResult: bool)
    | Rejected(t: Transaction, why: Rejection)
    | SentToCommandQueue(t: Transaction)
    | ForwardedMessage(m: Inbound)
    | ForwardedHeader(h: LinkHeader)
    | HandshakeInvoked(t: Transaction)
    | RetryNotified(t: Transaction, attempts: nat, maxAttempts: nat)
    | UnsolicitedReturned(m: Inbound)

  /** What a transaction reducer decides for one transaction. */
  datatype Verdict =
    | Keep
    | Drop
    | Reject(message: string, code: ErrorCode)
    | Requeue(priority: Option<Priority>)

  datatype Source = FromQueue | FromCurrent

  type Reducer = (Transaction, Source) -> Verdict

  /** A requeued transaction takes the new priority if the verdict names one. */
  function Requeued(t: Transaction, p: Option<Priority>): (r: Transaction)
    ensures r.id == t.id && r.message == t.message
    ensures r.priority == if p.Some? then p.value else t.priority
  {
    if p.Some? then t.(priority := p.value) else t
  }

  /** The outcome of applying a reducer to a sequence of transactions. */
  datatype Sorting = Sorting(kept: seq<Transaction>, requeue: seq<Transaction>, rejected: seq<Effect>)

  /** The reducer's verdicts over `q`, in queue order. */
  function Classify(q: seq<Transaction>, src: Source, r: Reducer): Sorting
    decreases |q|
  {
    if q == [] then Sorting([], [], [])
    else
      var s := Classify(q[..|q| - 1], src, r);
      var t := q[|q| - 1];
      match r(t, src)
      case Keep => s.(kept := s.kept + [t])
      case Drop => s
      case Reject(m, c) => s.(rejected := s.rejected + [Rejected(t, ReducerRejected(m, c))])
      case Requeue(p) => s.(requeue := s.requeue + [Requeued(t, p)])
  }

  /** Exactly the kept transactions stay, in their order. */
  lemma {:induction false} ClassifyKept(q: seq<Transaction>, src: Source, r: Reducer, rank: Rank)
    ensures forall t :: t in Classify(q, src, r).kept <==> t in q && r(t, src) == Keep
    ensures SortedBy(q, rank) ==> SortedBy(Classify(q, src, r).kept, rank)
    decreases |q|
  {
    if q != [] {
      var init := q[..|q| - 1];
      ClassifyKept(init, src, r, rank);
      assert q == init + [q[|q| - 1]];
      if SortedBy(q, rank) {
        assert SortedBy(init, rank);
        var k := Classify(init, src, r).kept;
        var t := q[|q| - 1];
        forall i | 0 <= i < |k| ensures rank(k[i]) <= rank(t) {
          assert k[i] in init;
          var j :| 0 <= j < |init| && init[j] == k[i];
          assert q[j] == k[i];
        }
      }
    }
  }

  /** The reducer's loop over the queue: each verdict in turn, rejections recorded in order. */
  method ClassifyQueue(q: seq<Transaction>, reducer: Reducer) returns (s: Sorting)
    ensures s == Classify(q, FromQueue, reducer)
  {
    s := Sorting([], [], []);
    var i := 0;
    while i < |q|
      invariant 0 <= i <= |q|
      invariant s == Classify(q[..i], FromQueue, reducer)
    {
      assert q[..i + 1][..i] == q[..i];
      var t := q[i];
      match reducer(t, FromQueue) {
        case Keep => s := s.(kept := s.kept + [t]);
        case Drop =>
        case Reject(m, c) => s := s.(rejected := s.rejected + [Rejected(t, ReducerRejected(m, c))]);
        case Requeue(p) => s := s.(requeue := s.requeue + [Requeued(t, p)]);
      }
      i := i + 1;
    }
    assert q[..|q|] == q;
  }

  /** Returns `t` if it is present. */
  function Slot(t: Option<Transaction>): seq<Transaction> {
    if t.Some? then [t.value] else []
  }

  /** The queue's first entry may be sent: its node is unknown or awake, or it is a ping or a handshake response. */
  predicate MaySendFirstMessage(queue: seq<Transaction>, nodes: map<nat, bool>) {
    if |queue| == 0 then false
    else
      var next := queue[0];
      var target := next.message.nodeId;
      target.None? || target.value !in nodes || nodes[target.value]
      || next.message.isPing || next.priority == Handshake
  }

  predicate RequiresNoHandshake(m: Message) {
    m.kind != SendDataRequest || !m.requiresPreTransmitHandshake
  }

  predicate ExpectsNodeUpdate(m: Message) {
    m.kind == SendDataRequest && m.expectsCCResponse
  }

  /**
   * Whether a failed send may be retried. `undefined > attempts` is false in
   * the source, so messages that are not send-data never retry.
   */
  predicate MayRetry(m: Message, attempts: nat, reason: Option<FailureReason>) {
    if m.kind == SendDataMulticastRequest && reason == Some(CallbackNOK) then false
    else IsSendData(m) && m.maxSendAttempts > attempts
  }

  function Max1(n: nat): nat { if n < 1 then 1 else n }

  /** Where beforeSend continues for the current message. */
  function AfterBeforeSend(m: Message): State {
    if RequiresNoHandshake(m) then Execute else HandshakeWaitForCommandResult
  }

  function EntryEffect(t: Transaction): Effect {
    if RequiresNoHandshake(t.message) then SentToCommandQueue(t) else HandshakeInvoked(t)
  }

  function FirstAttempts(m: Message): nat {
    if IsSendData(m) then 1 else 0
  }

  /** Facts that hold of the current transaction in every state. */
  ghost predicate CurrentOk(s: State, m: Message, hs: Option<Transaction>, attempts: nat, executions: nat) {
    (s == Execute || s == WaitForUpdate ==> hs.None?)
    && (s == WaitForUpdate ==> ExpectsNodeUpdate(m))
    && (IsHandshakeState(s) ==> m.kind == SendDataRequest && m.requiresPreTransmitHandshake)
    && (s == RetryWait ==> IsSendData(m) && attempts < m.maxSendAttempts)
    && (IsSendData(m) ==> 1 <= attempts <= Max1(m.maxSendAttempts))
    && (IsSendData(m) ==> executions + (if IsHandshakeState(s) then 1 else 0) <= attempts)
    && (!IsSendData(m) ==> attempts == 0 && executions <= 1)
  }

  /** The queue after `sending` is entered again: its entry shifts the head into the current slot. */
  function Reentered(q: seq<Transaction>): (r: seq<Transaction>)
    ensures q != [] ==> r == q[1..]
    ensures q == [] ==> r == []
  {
    if q == [] then [] else q[1..]
  }

  /** Effect `f` settles the promise of transaction `t`. */
  predicate Settles(f: Effect, t: Transaction) {
    (f.Resolved? || f.Rejected?) && f.t.id == t.id
  }

  /**
   * Transaction `t` is neither queued nor current, and no call in `e`
   * settled it: its promise can never settle.
   */
  predicate Abandoned(t: Transaction, queue: seq<Transaction>, current: Option<Transaction>, e: seq<Effect>) {
    (forall i :: 0 <= i < |queue| ==> queue[i].id != t.id)
    && (current.None? || current.value.id != t.id)
    && (forall i :: 0 <= i < |e| ==> !Settles(e[i], t))
  }

  class SendThread {
    var state: State
    var queue: seq<Transaction>
    var current: Option<Transaction>
    var handshake: Option<Transaction>
    var attempts: nat
    /** The queue order in force; sortQueue installs a new one. */
    var rank: Rank
    /** The nodes the driver knows, with whether each is awake (what the guard reads). */
    var nodes: map<nat, bool>
    var effects: seq<Effect>
    /** How often the current transaction has entered `execute` since it became current. */
    ghost var executions: nat

    ghost predicate Valid()
      reads this
    {
      SortedBy(queue, rank)
      && (state == Idle <==> current.None?)
      && (state == Idle ==> handshake.None? && attempts == 0 && executions == 0)
      && (current.Some? ==> CurrentOk(state, current.value.message, handshake, attempts, executions))
    }

    /** The machine never rests in idle while the head of the queue may be sent. */
    ghost predicate Resting()
      reads this
    {
      state == Idle ==> !MaySendFirstMessage(queue, nodes)
    }

    /**
     * After `done` (or an event in idle): either the machine rests in idle
     * with queue `q`, or it took the head of `q` as the current transaction
     * and ran beforeSend.
     */
    ghost predicate SettledFrom(q: seq<Transaction>, e: seq<Effect>)
      reads this
    {
      if MaySendFirstMessage(q, nodes) then
        current == Some(q[0]) && queue == q[1..] && handshake == None
        && attempts == FirstAttempts(q[0].message)
        && state == AfterBeforeSend(q[0].message)
        && effects == e + [EntryEffect(q[0])]
        && executions == (if state == Execute then 1 else 0)
      else
        state == Idle && current == None && handshake == None && attempts == 0
        && queue == q && effects == e && executions == 0
    }

    constructor (rank: Rank, nodes: map<nat, bool>)
      ensures Valid() && Resting()
      ensures state == Idle && queue == [] && effects == []
      ensures this.rank == rank && this.nodes == nodes
    {
      state := Idle;
      queue := [];
      current := None;
      handshake := None;
      attempts := 0;
      this.rank := rank;
      this.nodes := nodes;
      effects := [];
      executions := 0;
    }

    /** The driver's view of its nodes changed (a node woke up or fell asleep). */
    method UpdateNodes(nodes: map<nat, bool>)
      requires Valid()
      modifies this`nodes
      ensures Valid() && this.nodes == nodes
    {
      this.nodes := nodes;
    }

    /** Entry of `sending.execute`: forget the handshake and hand the current transaction to the command queue. */
    method EnterExecute()
      requires current.Some?
      modifies this`handshake, this`effects, this`state, this`executions
      ensures handshake == None && state == Execute
      ensures effects == old(effects) + [SentToCommandQueue(current.value)]
      ensures executions == old(executions) + 1
    {
      handshake := None;
      effects := effects + [SentToCommandQueue(current.value)];
      state := Execute;
      executions := executions + 1;
    }

    /** `sending.beforeSend`: count the attempt, clear the handshake slot, then execute or handshake. */
    method BeforeSend()
      requires current.Some?
      modifies this`handshake, this`effects, this`state, this`executions, this`attempts
      ensures var m := current.value.message;
        attempts == old(attempts) + (if IsSendData(m) then 1 else 0)
        && handshake == None && state == AfterBeforeSend(m)
        && effects == old(effects) + [EntryEffect(current.value)]
        && executions == old(executions) + (if state == Execute then 1 else 0)
    {
      if IsSendData(current.value.message) {
        attempts := attempts + 1;
      }
      handshake := None;
      if RequiresNoHandshake(current.value.message) {
        EnterExecute();
      } else {
        effects := effects + [HandshakeInvoked(current.value)];
        state := HandshakeWaitForCommandResult;
      }
    }

    /** `idle`'s guard: take the head of the queue if it may be sent. */
    method Settle()
      requires Valid() && state == Idle
      modifies this
      ensures Valid() && Resting() && rank == old(rank) && nodes == old(nodes)
      ensures SettledFrom(old(queue), old(effects))
    {
      if MaySendFirstMessage(queue, nodes) {
        current := Some(queue[0]);
        queue := queue[1..];
        BeforeSend();
      }
    }

    /** `sending.done` and the entry of `idle`: clear the current slot, then settle. */
    method Done()
      requires Valid()
      modifies this
      ensures Valid() && Resting() && rank == old(rank) && nodes == old(nodes)
      ensures SettledFrom(old(queue), old(effects))
    {
      current := None;
      handshake := None;
      attempts := 0;
      executions := 0;
      state := Idle;
      Settle();
    }

    /** The `trigger` event: only idle reacts, by sending the head if it may. */
    method Trigger()
      requires Valid()
      modifies this
      ensures Valid() && Resting() && rank == old(rank) && nodes == old(nodes)
      ensures old(state) == Idle ==> SettledFrom(old(queue), old(effects))
      ensures old(state) != Idle ==>
        state == old(state) && queue == old(queue) && current == old(current) && effects == old(effects)
        && handshake == old(handshake) && attempts == old(attempts)
    {
      if state == Idle {
        Settle();
      }
    }

    predicate IsPreTransmitHandshakeFor(t: Transaction)
      reads this
    {
      IsHandshakeState(state) && current.Some?
      && t.priority == PreTransmitHandshake && t.message.kind == SendDataRequest
      && t.message.nodeId == current.value.message.nodeId
    }

    predicate IsHandshakeFor(t: Transaction)
      reads this
    {
      current.Some? && current.value.message.kind == SendDataRequest
      && t.priority == Handshake && t.message.kind == SendDataRequest
      && t.message.nodeId == current.value.message.nodeId
    }

    /**
     * The handshake guard reads `command.nodeId` of the current message as if
     * it were a send-data request; a message without a command has none, so
     * the guard throws a TypeError.
     */
    predicate HandshakeGuardThrows(t: Transaction)
      reads this
    {
      current.Some? && current.value.message.kind == OtherMessage
      && t.priority == Handshake && t.message.kind == SendDataRequest
    }

    /**
     * The `add` event: a pre-transmit handshake for the current node during the
     * handshake becomes the handshake transaction, a handshake response for
     * the current node bypasses the queue, everything else is queued in order
     * and followed by a trigger. A handshake-priority send-data request
     * arriving while the current message is not a send-data request makes
     * the guard throw, and the event changes nothing.
     */
    method Add(t: Transaction) returns (thrown: Option<Thrown>)
      requires Valid()
      modifies this
      ensures Valid() && rank == old(rank) && nodes == old(nodes)
      ensures thrown.Some? <==> !old(IsPreTransmitHandshakeFor(t)) && old(HandshakeGuardThrows(t))
      ensures thrown.Some? ==> thrown == Some(TypeError) && unchanged(this)
      ensures old(IsPreTransmitHandshakeFor(t)) ==>
        handshake == Some(t) && effects == old(effects) + [SentToCommandQueue(t)]
        && queue == old(queue) && state == old(state) && current == old(current) && attempts == old(attempts)
      ensures !old(IsPreTransmitHandshakeFor(t)) && old(IsHandshakeFor(t)) ==>
        effects == old(effects) + [SentToCommandQueue(t)] && handshake == old(handshake)
        && queue == old(queue) && state == old(state) && current == old(current) && attempts == old(attempts)
      ensures !old(IsPreTransmitHandshakeFor(t)) && !old(IsHandshakeFor(t)) && thrown.None? ==>
        var q := Insert(old(queue), t, rank);
        if old(state) == Idle then SettledFrom(q, old(effects))
        else (queue == q && state == old(state) && current == old(current)
              && handshake == old(handshake) && attempts == old(attempts) && effects == old(effects))
      ensures old(state) == Idle ==> Resting()
    {
      thrown := None;
      if IsPreTransmitHandshakeFor(t) {
        effects := effects + [SentToCommandQueue(t)];
        handshake := Some(t);
      } else if HandshakeGuardThrows(t) {
        thrown := Some(TypeError);
      } else if IsHandshakeFor(t) {
        effects := effects + [SentToCommandQueue(t)];
      } else {
        InsertSorted(queue, t, rank);
        queue := Insert(queue, t, rank);
        Trigger();
      }
    }

    /** The `sortQueue` event: re-insert every queued transaction under the order `rank'`, then trigger. */
    method SortQueue(rank': Rank)
      requires Valid()
      modifies this
      ensures Valid() && rank == rank' && nodes == old(nodes)
      ensures var q := InsertAll([], old(queue), rank');
        multiset(q) == multiset(old(queue))
        && (if old(state) == Idle then SettledFrom(q, old(effects))
            else queue == q && state == old(state) && current == old(current) && effects == old(effects)
                 && handshake == old(handshake) && attempts == old(attempts))
      ensures old(state) == Idle ==> Resting()
    {
      InsertAllSorted([], queue, rank');
      rank := rank';
      queue := InsertAll([], queue, rank');
      Trigger();
    }

    /** Rejects the current transaction with `why`, recording the call. */
    method RejectCurrent(why: Rejection)
      requires current.Some?
      modifies this`effects
      ensures effects == old(effects) + [Rejected(current.value, why)]
    {
      effects := effects + [Rejected(current.value, why)];
    }

    /**
     * Rejects the handshake transaction. Without one, reading its message
     * throws a TypeError and nothing is rejected.
     */
    method RejectHandshake(why: Rejection) returns (thrown: Option<Thrown>)
      modifies this`effects
      ensures thrown.Some? <==> handshake.None?
      ensures thrown.Some? ==> thrown == Some(TypeError) && effects == old(effects)
      ensures thrown.None? ==> effects == old(effects) + [Rejected(handshake.value, why)]
    {
      if handshake.None? {
        return Some(TypeError);
      }
      effects := effects + [Rejected(handshake.value, why)];
      return None;
    }

    /** Entry of `retryWait`: the notifyRetry service is invoked. */
    method EnterRetryWait()
      requires current.Some?
      modifies this`effects, this`state
      ensures state == RetryWait
      ensures effects == old(effects) + [RetryNotified(current.value, attempts, current.value.message.maxSendAttempts)]
    {
      effects := effects + [RetryNotified(current.value, attempts, current.value.message.maxSendAttempts)];
      state := RetryWait;
    }

    /** Whether a completion event is about a transaction other than the ones the machine is waiting for. */
    predicate IsNotForActiveHandshake(t: Transaction)
      reads this
    {
      (IsHandshakeState(state) || handshake.Some?) && (handshake.None? || handshake.value.id != t.id)
    }

    predicate IsNotForActiveCurrent(t: Transaction)
      reads this
    {
      current.Some? && current.value.id != t.id
    }

    /**
     * The `command_success` event. In the handshake's first step it starts
     * waiting for the handshake response; in `execute` it either waits for the
     * node's update or resolves the current transaction. Everywhere else the
     * event's transaction is resolved if it is not the handshake or current one.
     */
    method CommandSuccess(t: Transaction)
      requires Valid()
      modifies this
      ensures Valid() && rank == old(rank) && nodes == old(nodes)
      ensures old(state) == HandshakeWaitForCommandResult ==>
        state == HandshakeWaitForHandshakeResponse && effects == old(effects)
        && queue == old(queue) && current == old(current) && handshake == old(handshake) && attempts == old(attempts)
      ensures old(state) == Execute && ExpectsNodeUpdate(old(current).value.message) ==>
        state == WaitForUpdate && effects == old(effects) && queue == old(queue) && current == old(current)
        && handshake == old(handshake) && attempts == old(attempts)
      ensures old(state) == Execute && !ExpectsNodeUpdate(old(current).value.message) ==>
        SettledFrom(old(queue), old(effects) + [Resolved(old(current).value, true)])
      ensures old(state) != HandshakeWaitForCommandResult && old(state) != Execute ==>
        state == old(state) && queue == old(queue) && current == old(current) && handshake == old(handshake)
        && attempts == old(attempts)
        && effects == old(effects) + (if old(IsNotForActiveHandshake(t) || IsNotForActiveCurrent(t)) then [Resolved(t, true)] else [])
      ensures old(Resting()) ==> Resting()
    {
      if state == HandshakeWaitForCommandResult {
        state := HandshakeWaitForHandshakeResponse;
      } else if state == Execute {
        if ExpectsNodeUpdate(current.value.message) {
          state := WaitForUpdate;
        } else {
          effects := effects + [Resolved(current.value, true)];
          Done();
        }
      } else if IsNotForActiveHandshake(t) || IsNotForActiveCurrent(t) {
        effects := effects + [Resolved(t, true)];
      }
    }

    /**
     * The `command_failure` event. A failed handshake command always rejects
     * the handshake transaction and retries if it may, otherwise also rejects
     * the current one; a failed send-data command in `execute` retries if it
     * may, and any other failure in `execute` rejects the current transaction.
     * Elsewhere the event's transaction is rejected if it is not the handshake
     * or current one. A failure during the handshake's first step before any
     * handshake transaction was added throws a TypeError and changes nothing.
     */
    method CommandFailure(t: Transaction, reason: FailureReason) returns (thrown: Option<Thrown>)
      requires Valid()
      modifies this
      ensures Valid() && rank == old(rank) && nodes == old(nodes)
      ensures thrown.Some? <==> old(state) == HandshakeWaitForCommandResult && old(handshake).None?
      ensures thrown.Some? ==> thrown == Some(TypeError) && unchanged(this)
      ensures old(state) == HandshakeWaitForCommandResult && thrown.None? ==>
        var cur := old(current).value;
        var rh := [Rejected(old(handshake).value, SendFailed(reason))];
        if MayRetry(cur.message, old(attempts), Some(reason)) then
          state == RetryWait && queue == old(queue) && current == old(current)
          && handshake == old(handshake) && attempts == old(attempts)
          && effects == old(effects) + rh + [RetryNotified(cur, old(attempts), cur.message.maxSendAttempts)]
        else SettledFrom(old(queue), old(effects) + rh + [Rejected(cur, SendFailed(reason))])
      ensures old(state) == Execute ==>
        var cur := old(current).value;
        if IsSendData(cur.message) && MayRetry(cur.message, old(attempts), Some(reason)) then
          state == RetryWait && queue == old(queue) && current == old(current)
          && handshake == old(handshake) && attempts == old(attempts)
          && effects == old(effects) + [RetryNotified(cur, old(attempts), cur.message.maxSendAttempts)]
        else SettledFrom(old(queue), old(effects) + [Rejected(cur, SendFailed(reason))])
      ensures old(state) != HandshakeWaitForCommandResult && old(state) != Execute ==>
        state == old(state) && queue == old(queue) && current == old(current) && handshake == old(handshake)
        && attempts == old(attempts)
        && effects == old(effects) + (if old(IsNotForActiveHandshake(t) || IsNotForActiveCurrent(t)) then [Rejected(t, SendFailed(reason))] else [])
      ensures old(Resting()) ==> Resting()
    {
      thrown := None;
      if state == HandshakeWaitForCommandResult {
        thrown := RejectHandshake(SendFailed(reason));
        if thrown.Some? {
          return;
        }
        if MayRetry(current.value.message, attempts, Some(reason)) {
          EnterRetryWait();
        } else {
          RejectCurrent(SendFailed(reason));
          Done();
        }
      } else if state == Execute {
        if IsSendData(current.value.message) && MayRetry(current.value.message, attempts, Some(reason)) {
          EnterRetryWait();
        } else {
          RejectCurrent(SendFailed(reason));
          Done();
        }
      } else if IsNotForActiveHandshake(t) || IsNotForActiveCurrent(t) {
        effects := effects + [Rejected(t, SendFailed(reason))];
      }
    }

    /** The `nodeUpdate` event: while waiting for the update it resolves the current transaction. */
    method NodeUpdate()
      requires Valid()
      modifies this
      ensures Valid() && rank == old(rank) && nodes == old(nodes)
      ensures old(state) == WaitForUpdate ==>
        SettledFrom(old(queue), old(effects) + [Resolved(old(current).value, true)])
      ensures old(state) != WaitForUpdate ==>
        state == old(state) && queue == old(queue) && current == old(current) && effects == old(effects)
        && handshake == old(handshake) && attempts == old(attempts)
      ensures old(state) == WaitForUpdate ==> Resting()
    {
      if state == WaitForUpdate {
        effects := effects + [Resolved(current.value, true)];
        Done();
      }
    }

    /** The `handshakeResponse` event: during the handshake it resolves the handshake transaction and stays. */
    method HandshakeResponse()
      requires Valid()
      modifies this`effects
      ensures Valid()
      ensures effects == old(effects) +
        (if IsHandshakeState(state) && handshake.Some? then [Resolved(handshake.value, true)] else [])
    {
      if IsHandshakeState(state) && handshake.Some? {
        effects := effects + [Resolved(handshake.value, true)];
      }
    }

    /** The invoked pre-transmit handshake finished (its errors are swallowed): go on to `execute`. */
    method HandshakeDone()
      requires Valid()
      modifies this
      ensures Valid() && rank == old(rank) && nodes == old(nodes) && queue == old(queue) && current == old(current)
      ensures attempts == old(attempts)
      ensures IsHandshakeState(old(state)) ==>
        state == Execute && handshake == None && effects == old(effects) + [SentToCommandQueue(current.value)]
        && executions == old(executions) + 1
      ensures !IsHandshakeState(old(state)) ==> state == old(state) && effects == old(effects) && handshake == old(handshake)
    {
      if IsHandshakeState(state) {
        EnterExecute();
      }
    }

    /**
     * The report timeout. Waiting for the handshake response, it rejects the
     * handshake transaction and retries if it may, otherwise also rejects the
     * current one; waiting for the update, it retries if it may, otherwise
     * rejects the current transaction. Both rejections name a node timeout.
     * Waiting for a handshake response with no handshake transaction set, the
     * timeout throws a TypeError and changes nothing.
     */
    method ReportTimeout() returns (thrown: Option<Thrown>)
      requires Valid()
      modifies this
      ensures Valid() && rank == old(rank) && nodes == old(nodes)
      ensures thrown.Some? <==> old(state) == HandshakeWaitForHandshakeResponse && old(handshake).None?
      ensures thrown.Some? ==> thrown == Some(TypeError) && unchanged(this)
      ensures old(state) == HandshakeWaitForHandshakeResponse && thrown.None? ==>
        var cur := old(current).value;
        var rh := [Rejected(old(handshake).value, SendFailed(NodeTimeout))];
        if MayRetry(cur.message, old(attempts), None) then
          state == RetryWait && queue == old(queue) && current == old(current)
          && handshake == old(handshake) && attempts == old(attempts)
          && effects == old(effects) + rh + [RetryNotified(cur, old(attempts), cur.message.maxSendAttempts)]
        else SettledFrom(old(queue), old(effects) + rh + [Rejected(cur, SendFailed(NodeTimeout))])
      ensures old(state) == WaitForUpdate ==>
        var cur := old(current).value;
        if MayRetry(cur.message, old(attempts), None) then
          state == RetryWait && queue == old(queue) && current == old(current)
          && handshake == old(handshake) && attempts == old(attempts)
          && effects == old(effects) + [RetryNotified(cur, old(attempts), cur.message.maxSendAttempts)]
        else SettledFrom(old(queue), old(effects) + [Rejected(cur, SendFailed(NodeTimeout))])
      ensures old(state) != HandshakeWaitForHandshakeResponse && old(state) != WaitForUpdate ==>
        state == old(state) && queue == old(queue) && current == old(current) && effects == old(effects)
        && handshake == old(handshake) && attempts == old(attempts)
      ensures old(Resting()) ==> Resting()
    {
      thrown := None;
      if state == HandshakeWaitForHandshakeResponse {
        thrown := RejectHandshake(SendFailed(NodeTimeout));
        if thrown.Some? {
          return;
        }
        if MayRetry(current.value.message, attempts, None) {
          EnterRetryWait();
        } else {
          RejectCurrent(SendFailed(NodeTimeout));
          Done();
        }
      } else if state == WaitForUpdate {
        if MayRetry(current.value.message, attempts, None) {
          EnterRetryWait();
        } else {
          RejectCurrent(SendFailed(NodeTimeout));
          Done();
        }
      }
    }

    /** The retry delay elapsed: run beforeSend again for the same transaction. */
    method RetryElapsed()
      requires Valid()
      modifies this
      ensures Valid() && rank == old(rank) && nodes == old(nodes) && queue == old(queue) && current == old(current)
      ensures old(state) == RetryWait ==>
        var m := current.value.message;
        attempts == old(attempts) + 1 && handshake == None && state == AfterBeforeSend(m)
        && effects == old(effects) + [EntryEffect(current.value)]
      ensures old(state) != RetryWait ==>
        state == old(state) && effects == old(effects) && handshake == old(handshake) && attempts == old(attempts)
    {
      if state == RetryWait {
        BeforeSend();
      }
    }

    predicate CurrentIsPingFor(nodeId: nat)
      reads this
    {
      current.Some? && current.value.message.isPing && current.value.message.nodeId == Some(nodeId)
    }

    /**
     * A node information frame from `nodeId`: a pending ping to that node
     * counts as answered, and the thread goes on through `done` without
     * entering `sending` again (NifAsWritten is the transition as declared).
     */
    method Nif(nodeId: nat)
      requires Valid()
      modifies this
      ensures Valid() && rank == old(rank) && nodes == old(nodes)
      ensures old(state) != Idle && old(CurrentIsPingFor(nodeId)) ==>
        SettledFrom(old(queue), old(effects) + [Resolved(old(current).value, false)]) && Resting()
      ensures !(old(state) != Idle && old(CurrentIsPingFor(nodeId))) ==>
        state == old(state) && queue == old(queue) && current == old(current) && effects == old(effects)
        && handshake == old(handshake) && attempts == old(attempts)
    {
      if state != Idle && CurrentIsPingFor(nodeId) {
        effects := effects + [Resolved(current.value, false)];
        Done();
      }
    }

    /**
     * Entering `sending` again and going on to `done`: the entry shifts the
     * head of the queue into the current slot, and `done` clears the slot
     * without resolving or rejecting it.
     */
    method ReenterSendingThenDone()
      requires Valid()
      modifies this
      ensures Valid() && Resting() && rank == old(rank) && nodes == old(nodes)
      ensures SettledFrom(Reentered(old(queue)), old(effects))
    {
      if queue != [] {
        queue := queue[1..];
      }
      Done();
    }

    /**
     * The `NIF` transition as declared on `sending`: its target `sending.done`
     * has no leading dot, so the transition is external, `sending` is exited
     * and entered again, and the queue's head is lost on the way to `done`.
     */
    method NifAsWritten(nodeId: nat)
      requires Valid()
      modifies this
      ensures Valid() && rank == old(rank) && nodes == old(nodes)
      ensures old(state) != Idle && old(CurrentIsPingFor(nodeId)) ==>
        SettledFrom(Reentered(old(queue)), old(effects) + [Resolved(old(current).value, false)]) && Resting()
      ensures !(old(state) != Idle && old(CurrentIsPingFor(nodeId))) ==>
        state == old(state) && queue == old(queue) && current == old(current) && effects == old(effects)
        && handshake == old(handshake) && attempts == old(attempts)
    {
      if state != Idle && CurrentIsPingFor(nodeId) {
        effects := effects + [Resolved(current.value, false)];
        ReenterSendingThenDone();
      }
    }

    /**
     * The `reduce` action: the reducer's verdict on each queued transaction,
     * then on the current one. Kept ones stay in place, dropped and rejected
     * ones leave (rejected ones are rejected on the way), requeued ones are
     * re-inserted with their new priority, the current one included.
     */
    method ApplyReducer(reducer: Reducer)
      requires Valid()
      modifies this`queue, this`effects
      ensures SortedBy(queue, rank)
      ensures var c := Classify(old(queue), FromQueue, reducer);
        var k := Classify(Slot(current), FromCurrent, reducer);
        queue == InsertAll(c.kept, c.requeue + k.requeue, rank)
        && effects == old(effects) + c.rejected + k.rejected
    {
      var q := queue;
      var s := ClassifyQueue(q, reducer);
      var k := Classify(Slot(current), FromCurrent, reducer);
      if current.Some? {
        assert Slot(current)[..0] == [];
      }
      effects := effects + s.rejected + k.rejected;
      ClassifyKept(q, FromQueue, reducer, rank);
      InsertAllSorted(s.kept, s.requeue + k.requeue, rank);
      queue := InsertAll(s.kept, s.requeue + k.requeue, rank);
    }

    /**
     * The `reduce` event. In idle it reduces and triggers; while sending it
     * reduces and, when the verdict on the current transaction is not keep,
     * abandons it through `done` without entering `sending` again
     * (ReduceAsWritten is the transition as declared).
     */
    method Reduce(reducer: Reducer)
      requires Valid()
      modifies this
      ensures Valid() && rank == old(rank) && nodes == old(nodes)
      ensures var c := Classify(old(queue), FromQueue, reducer);
        var k := Classify(Slot(old(current)), FromCurrent, reducer);
        var q := InsertAll(c.kept, c.requeue + k.requeue, rank);
        var e := old(effects) + c.rejected + k.rejected;
        if old(state) == Idle || reducer(old(current).value, FromCurrent) != Keep then
          SettledFrom(q, e) && Resting()
        else
          queue == q && effects == e && state == old(state) && current == old(current)
          && handshake == old(handshake) && attempts == old(attempts)
    {
      var abandon := state != Idle && reducer(current.value, FromCurrent) != Keep;
      ApplyReducer(reducer);
      if state == Idle {
        Trigger();
      } else if abandon {
        Done();
      }
    }

    /**
     * The `reduce` event as declared: abandoning the current transaction takes
     * the external transition to `sending.done`, which enters `sending` again
     * and loses the head of the reduced queue.
     */
    method ReduceAsWritten(reducer: Reducer)
      requires Valid()
      modifies this
      ensures Valid() && rank == old(rank) && nodes == old(nodes)
      ensures var c := Classify(old(queue), FromQueue, reducer);
        var k := Classify(Slot(old(current)), FromCurrent, reducer);
        var q := InsertAll(c.kept, c.requeue + k.requeue, rank);
        var e := old(effects) + c.rejected + k.rejected;
        if old(state) == Idle then SettledFrom(q, e) && Resting()
        else if reducer(old(current).value, FromCurrent) != Keep then SettledFrom(Reentered(q), e) && Resting()
        else
          queue == q && effects == e && state == old(state) && current == old(current)
          && handshake == old(handshake) && attempts == old(attempts)
    {
      var abandon := state != Idle && reducer(current.value, FromCurrent) != Keep;
      ApplyReducer(reducer);
      if state == Idle {
        Trigger();
      } else if abandon {
        ReenterSendingThenDone();
      }
    }

    predicate IsExpectedHandshakeResponse(m: Inbound, isExpected: ResponseTest)
      reads this
    {
      handshake.Some? && state == HandshakeWaitForHandshakeResponse
      && m.isApplicationCommand && isExpected(handshake.value.message, m)
    }

    predicate IsExpectedUpdate(m: Inbound, isExpected: ResponseTest)
      reads this
    {
      state == WaitForUpdate && current.Some?
      && m.isApplicationCommand && isExpected(current.value.message, m)
    }

    /**
     * A received message: the expected handshake response or node update is
     * raised as such, anything else goes on to the command queue.
     */
    method OnMessage(m: Inbound, isExpected: ResponseTest)
      requires Valid()
      modifies this
      ensures Valid() && rank == old(rank) && nodes == old(nodes)
      ensures old(IsExpectedHandshakeResponse(m, isExpected)) ==>
        effects == old(effects) + [Resolved(old(handshake).value, true)]
        && state == old(state) && queue == old(queue) && current == old(current)
        && handshake == old(handshake) && attempts == old(attempts)
      ensures !old(IsExpectedHandshakeResponse(m, isExpected)) && old(IsExpectedUpdate(m, isExpected)) ==>
        SettledFrom(old(queue), old(effects) + [Resolved(old(current).value, true)]) && Resting()
      ensures !old(IsExpectedHandshakeResponse(m, isExpected)) && !old(IsExpectedUpdate(m, isExpected)) ==>
        effects == old(effects) + [ForwardedMessage(m)]
        && state == old(state) && queue == old(queue) && current == old(current)
        && handshake == old(handshake) && attempts == old(attempts)
    {
      if IsExpectedHandshakeResponse(m, isExpected) {
        HandshakeResponse();
      } else if IsExpectedUpdate(m, isExpected) {
        NodeUpdate();
      } else {
        effects := effects + [ForwardedMessage(m)];
      }
    }

    /** ACK, NAK and CAN are forwarded to the command queue in every state. */
    method OnHeader(h: LinkHeader)
      requires Valid()
      modifies this`effects
      ensures Valid() && effects == old(effects) + [ForwardedHeader(h)]
    {
      effects := effects + [ForwardedHeader(h)];
    }

    /** The `unsolicited` event: the message is handed back to the driver. */
    method Unsolicited(m: Inbound)
      requires Valid()
      modifies this`effects
      ensures Valid() && effects == old(effects) + [UnsolicitedReturned(m)]
    {
      effects := effects + [UnsolicitedReturned(m)];
    }
  }

  /**
   * Settling from the queue after `sending` was entered again abandons the
   * old head: it is neither queued nor current, and nothing settled it.
   */
  lemma ReentryAbandonsHead(s: SendThread, q: seq<Transaction>, e: seq<Effect>)
    requires q != [] && forall i :: 1 <= i < |q| ==> q[i].id != q[0].id
    requires forall i :: 0 <= i < |e| ==> !Settles(e[i], q[0])
    requires s.SettledFrom(Reentered(q), e)
    ensures Abandoned(q[0], s.queue, s.current, s.effects)
  {
    var r := q[1..];
    assert forall i :: 0 <= i < |r| ==> r[i] == q[i + 1];
    if MaySendFirstMessage(r, s.nodes) {
      assert s.queue == r[1..];
      assert forall i :: 0 <= i < |s.queue| ==> s.queue[i] == q[i + 2];
      assert !Settles(EntryEffect(r[0]), q[0]);
    }
  }

  /**
   * A NIF that answers the current ping `ping` while `q[0]` is first in the
   * queue: as declared, the ping is resolved and `q[0]` is abandoned.
   */
  lemma NifAsWrittenAbandonsQueued(s: SendThread, q: seq<Transaction>, e: seq<Effect>, ping: Transaction)
    requires q != [] && forall i :: 1 <= i < |q| ==> q[i].id != q[0].id
    requires ping.id != q[0].id && forall i :: 0 <= i < |e| ==> !Settles(e[i], q[0])
    requires s.SettledFrom(Reentered(q), e + [Resolved(ping, false)])
    ensures Abandoned(q[0], s.queue, s.current, s.effects)
    ensures Resolved(ping, false) in s.effects
  {
    var e' := e + [Resolved(ping, false)];
    assert forall i :: 0 <= i < |e'| ==> e'[i] == if i < |e| then e[i] else Resolved(ping, false);
    ReentryAbandonsHead(s, q, e');
    assert s.effects[|e|] == Resolved(ping, false);
  }

  /**
   * Settling from a queue without entering `sending` again keeps its head
   * pending: it is sent as the current transaction or stays first in line.
   */
  lemma SettledKeepsHead(s: SendThread, q: seq<Transaction>, e: seq<Effect>)
    requires q != [] && forall i :: 0 <= i < |e| ==> !Settles(e[i], q[0])
    requires s.SettledFrom(q, e)
    ensures !Abandoned(q[0], s.queue, s.current, s.effects)
    ensures s.current == Some(q[0]) || (s.queue != [] && s.queue[0] == q[0])
  {
  }
}

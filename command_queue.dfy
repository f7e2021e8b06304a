/**
 * The command queue: a sorted queue in front of the serial API command
 * machine that runs one transaction at a time, reports each outcome to the
 * send thread, and aborts a send-data request whose callback timed out.
 * executeDone is transient and folded into the event methods.
 */
module CommandQueueMachine {
  import opened Wrappers
  import opened Transactions
  import SendThreadMachine

  datatype State = Idle | Execute | AbortSendData

  /** How the serial API command for the current transaction ended. */
  datatype Outcome = Success | Failure(reason: FailureReason)

  datatype Effect =
    | StartedCommand(t: Transaction)
    | StartedSendDataAbort
    | NotifiedSuccess(t: Transaction)
    | NotifiedFailure(t: Transaction, reason: FailureReason)
    | RespondedUnsolicited(m: SendThreadMachine.Inbound)
    | ForwardedToCommand(m: SendThreadMachine.Inbound)
    | ForwardedHeaderToCommand(h: SendThreadMachine.LinkHeader)

  /** The guard that turns a failure into an abort. */
  predicate IsSendDataWithCallbackTimeout(t: Transaction, outcome: Outcome) {
    IsSendData(t.message) && outcome == Failure(CallbackTimeout)
  }

  class CommandQueue {
    var state: State
    var queue: seq<Transaction>
    var current: Option<Transaction>
    var rank: Rank
    var effects: seq<Effect>

    /**
     * One transaction at a time: there is a current transaction exactly when
     * a command (or the abort after it) runs, and idle only with an empty queue.
     */
    ghost predicate Valid()
      reads this
    {
      SortedBy(queue, rank)
      && (state == Idle <==> current.None?)
      && (state == Idle ==> queue == [])
    }

    constructor (rank: Rank)
      ensures Valid() && state == Idle && queue == [] && effects == [] && this.rank == rank
    {
      state := Idle;
      queue := [];
      current := None;
      this.rank := rank;
      effects := [];
    }

    /** Entry of `execute`: the queue's head becomes the current transaction and its command starts. */
    method StartNext()
      requires SortedBy(queue, rank) && queue != []
      modifies this`state, this`queue, this`current, this`effects
      ensures Valid()
      ensures current == Some(old(queue)[0]) && queue == old(queue)[1..] && state == Execute
      ensures effects == old(effects) + [StartedCommand(old(queue)[0])]
    {
      current := Some(queue[0]);
      queue := queue[1..];
      state := Execute;
      effects := effects + [StartedCommand(current.value)];
    }

    /** `executeDone`: clear the current slot, return to idle, and start the next one if any. */
    method ExecuteDone()
      requires SortedBy(queue, rank)
      modifies this`state, this`queue, this`current, this`effects
      ensures Valid()
      ensures old(queue) == [] ==> state == Idle && current == None && queue == [] && effects == old(effects)
      ensures old(queue) != [] ==>
        state == Execute && current == Some(old(queue)[0]) && queue == old(queue)[1..]
        && effects == old(effects) + [StartedCommand(old(queue)[0])]
    {
      current := None;
      state := Idle;
      if queue != [] {
        StartNext();
      }
    }

    /** The `add` event: insert in order and trigger, which leaves idle for `execute`. */
    method Add(t: Transaction)
      requires Valid()
      modifies this
      ensures Valid() && rank == old(rank)
      ensures var q := Insert(old(queue), t, rank);
        if old(state) == Idle then
          current == Some(q[0]) && queue == q[1..] && state == Execute
          && effects == old(effects) + [StartedCommand(q[0])]
        else
          queue == q && state == old(state) && current == old(current) && effects == old(effects)
    {
      InsertSorted(queue, t, rank);
      queue := Insert(queue, t, rank);
      if state == Idle {
        StartNext();
      }
    }

    /**
     * The serial API command for the current transaction finished. The send
     * thread is told the outcome for the current transaction; a send-data
     * request that failed with a callback timeout is followed by one
     * SendDataAbort, every other outcome finishes the transaction.
     */
    method CommandDone(outcome: Outcome)
      requires Valid()
      modifies this
      ensures Valid() && rank == old(rank)
      ensures old(state) == Execute ==>
        var t := old(current).value;
        var notify := if outcome.Success? then NotifiedSuccess(t) else NotifiedFailure(t, outcome.reason);
        if IsSendDataWithCallbackTimeout(t, outcome) then
          state == AbortSendData && current == old(current) && queue == old(queue)
          && effects == old(effects) + [notify, StartedSendDataAbort]
        else if old(queue) == [] then
          state == Idle && current == None && queue == [] && effects == old(effects) + [notify]
        else
          state == Execute && current == Some(old(queue)[0]) && queue == old(queue)[1..]
          && effects == old(effects) + [notify, StartedCommand(old(queue)[0])]
      ensures old(state) != Execute ==>
        state == old(state) && current == old(current) && queue == old(queue) && effects == old(effects)
    {
      if state == Execute {
        var t := current.value;
        if outcome.Success? {
          effects := effects + [NotifiedSuccess(t)];
          ExecuteDone();
        } else if IsSendDataWithCallbackTimeout(t, outcome) {
          effects := effects + [NotifiedFailure(t, outcome.reason), StartedSendDataAbort];
          state := AbortSendData;
        } else {
          effects := effects + [NotifiedFailure(t, outcome.reason)];
          ExecuteDone();
        }
      }
    }

    /** The SendDataAbort command finished, however it ended: the transaction is done. */
    method AbortDone()
      requires Valid()
      modifies this
      ensures Valid() && rank == old(rank)
      ensures old(state) == AbortSendData ==>
        (if old(queue) == [] then state == Idle && current == None && effects == old(effects)
         else (state == Execute && current == Some(old(queue)[0]) && queue == old(queue)[1..]
               && effects == old(effects) + [StartedCommand(old(queue)[0])]))
      ensures old(state) != AbortSendData ==>
        state == old(state) && current == old(current) && queue == old(queue) && effects == old(effects)
    {
      if state == AbortSendData {
        ExecuteDone();
      }
    }

    /**
     * A received message. During `execute` it goes to the running command only;
     * otherwise it is returned as unsolicited, and during the abort it also
     * reaches the abort command.
     */
    method OnMessage(m: SendThreadMachine.Inbound)
      requires Valid()
      modifies this`effects
      ensures Valid()
      ensures effects == old(effects) +
        match state
        case Execute => [ForwardedToCommand(m)]
        case AbortSendData => [RespondedUnsolicited(m), ForwardedToCommand(m)]
        case Idle => [RespondedUnsolicited(m)]
    {
      match state {
        case Execute => effects := effects + [ForwardedToCommand(m)];
        case AbortSendData => effects := effects + [RespondedUnsolicited(m), ForwardedToCommand(m)];
        case Idle => effects := effects + [RespondedUnsolicited(m)];
      }
    }

    /** ACK, NAK and CAN reach the running command (or abort) and nothing else. */
    method OnHeader(h: SendThreadMachine.LinkHeader)
      requires Valid()
      modifies this`effects
      ensures Valid()
      ensures effects == old(effects) + (if state == Idle then [] else [ForwardedHeaderToCommand(h)])
    {
      if state != Idle {
        effects := effects + [ForwardedHeaderToCommand(h)];
      }
    }
  }

  /** Counts the SendDataAbort commands in an effect log. */
  function Aborts(e: seq<Effect>): (r: nat)
    ensures r <= |e|
  {
    if e == [] then 0 else Aborts(e[..|e| - 1]) + (if e[|e| - 1] == StartedSendDataAbort then 1 else 0)
  }

  lemma {:induction false} AbortsAppend(a: seq<Effect>, b: seq<Effect>)
    ensures Aborts(a + b) == Aborts(a) + Aborts(b)
    decreases |b|
  {
    if b == [] {
      assert a + b == a;
    } else {
      assert (a + b)[..|a + b| - 1] == a + b[..|b| - 1];
      assert (a + b)[|a + b| - 1] == b[|b| - 1];
      AbortsAppend(a, b[..|b| - 1]);
    }
  }

  /**
   * A finished command adds exactly one SendDataAbort when the current
   * transaction is a send-data request whose callback timed out, and none
   * otherwise.
   */
  lemma CommandDoneAborts(before: seq<Effect>, after: seq<Effect>, t: Transaction, outcome: Outcome, next: Option<Transaction>)
    requires var notify := if outcome.Success? then NotifiedSuccess(t) else NotifiedFailure(t, outcome.reason);
      if IsSendDataWithCallbackTimeout(t, outcome) then after == before + [notify, StartedSendDataAbort]
      else if next.None? then after == before + [notify]
      else after == before + [notify, StartedCommand(next.value)]
    ensures Aborts(after) == Aborts(before) + (if IsSendDataWithCallbackTimeout(t, outcome) then 1 else 0)
  {
    var notify := if outcome.Success? then NotifiedSuccess(t) else NotifiedFailure(t, outcome.reason);
    if IsSendDataWithCallbackTimeout(t, outcome) {
      AbortsAppend(before, [notify, StartedSendDataAbort]);
      assert [notify, StartedSendDataAbort][..1] == [notify];
    } else if next.None? {
      AbortsAppend(before, [notify]);
    } else {
      AbortsAppend(before, [notify, StartedCommand(next.value)]);
      assert [notify, StartedCommand(next.value)][..1] == [notify];
    }
  }
}

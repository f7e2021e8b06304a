/**
 * Transactions as the send thread and the command queue see them: an outgoing
 * message with the few facts the machines ask of it, a priority, and an
 * identity (the source compares transactions by reference).
 */
module Transactions {
  import opened Wrappers
  import opened Errors

  /** Message priorities, most urgent first. */
  datatype Priority =
    | ControllerImmediate
    | Handshake
    | PreTransmitHandshake
    | Supervision
    | NodeQuery
    | Poll
    | WakeUp

  datatype MessageKind = SendDataRequest | SendDataMulticastRequest | OtherMessage

  /**
   * What the machines ask of an outgoing message: its class, its target node,
   * whether it is a ping (NoOperation CC), the send attempt limit of a send-data
   * request, and whether its command needs a pre-transmit handshake or expects
   * a response from the node.
   */
  datatype Message = Message(
    kind: MessageKind,
    nodeId: Option<nat>,
    isPing: bool,
    maxSendAttempts: nat,
    requiresPreTransmitHandshake: bool,
    expectsCCResponse: bool)

  datatype Transaction = Transaction(id: nat, message: Message, priority: Priority)

  predicate IsSendData(m: Message) {
    m.kind == SendDataRequest || m.kind == SendDataMulticastRequest
  }

  /** Reasons with which a serial API command fails, plus the send thread's own node timeout. */
  datatype FailureReason =
    | AckTimeout
    | CAN
    | NAK
    | ResponseTimeout
    | CallbackTimeout
    | ResponseNOK
    | CallbackNOK
    | NodeTimeout

  /** Why a transaction's promise was rejected. */
  datatype Rejection =
    | SendFailed(reason: FailureReason)
    | ReducerRejected(message: string, code: ErrorCode)

  /**
   * The queue order: `rank` stands for the transaction comparator, which is
   * not part of this model; lower ranks are sent first.
   */
  type Rank = Transaction -> int

  ghost predicate SortedBy(q: seq<Transaction>, rank: Rank) {
    forall i, j :: 0 <= i < j < |q| ==> rank(q[i]) <= rank(q[j])
  }

  /** Sorted insertion behind every element that does not rank after `t`. */
  function Insert(q: seq<Transaction>, t: Transaction, rank: Rank): (r: seq<Transaction>)
    ensures multiset(r) == multiset(q) + multiset{t}
    ensures |r| == |q| + 1
  {
    if q == [] then [t]
    else if rank(t) < rank(q[0]) then [t] + q
    else
      assert q == [q[0]] + q[1..];
      [q[0]] + Insert(q[1..], t, rank)
  }

  lemma {:induction false} InsertSorted(q: seq<Transaction>, t: Transaction, rank: Rank)
    requires SortedBy(q, rank)
    ensures SortedBy(Insert(q, t, rank), rank)
  {
    if q != [] && rank(t) >= rank(q[0]) {
      InsertSorted(q[1..], t, rank);
      var r := Insert(q, t, rank);
      forall i, j | 0 <= i < j < |r| ensures rank(r[i]) <= rank(r[j]) {
        if i == 0 {
          assert r[j] in multiset(Insert(q[1..], t, rank));
          assert r[j] == t || r[j] in q[1..];
        }
      }
    }
  }

  /** Inserting behind a sorted queue whose last element does not rank after `t` appends it. */
  lemma {:induction false} InsertAppends(q: seq<Transaction>, t: Transaction, rank: Rank)
    requires SortedBy(q, rank)
    requires q != [] ==> rank(q[|q| - 1]) <= rank(t)
    ensures Insert(q, t, rank) == q + [t]
  {
    if q != [] {
      InsertAppends(q[1..], t, rank);
      assert [q[0]] + (q[1..] + [t]) == q + [t];
    }
  }

  /** Inserts `items` one after the other, as SortedList.add(...items) does. */
  function InsertAll(q: seq<Transaction>, items: seq<Transaction>, rank: Rank): (r: seq<Transaction>)
    ensures multiset(r) == multiset(q) + multiset(items)
    decreases |items|
  {
    if items == [] then q
    else
      assert items == [items[0]] + items[1..];
      InsertAll(Insert(q, items[0], rank), items[1..], rank)
  }

  lemma {:induction false} InsertAllSorted(q: seq<Transaction>, items: seq<Transaction>, rank: Rank)
    requires SortedBy(q, rank)
    ensures SortedBy(InsertAll(q, items, rank), rank)
    decreases |items|
  {
    if items != [] {
      InsertSorted(q, items[0], rank);
      InsertAllSorted(Insert(q, items[0], rank), items[1..], rank);
    }
  }

  /** Re-inserting an already sorted sequence behind a prefix it follows reproduces it. */
  lemma {:induction false} InsertAllSortedIdentity(q: seq<Transaction>, items: seq<Transaction>, rank: Rank)
    requires SortedBy(q + items, rank)
    ensures InsertAll(q, items, rank) == q + items
    decreases |items|
  {
    if items != [] {
      var q' := q + [items[0]];
      assert SortedBy(q, rank) by {
        forall i, j | 0 <= i < j < |q| ensures rank(q[i]) <= rank(q[j]) {
          assert (q + items)[i] == q[i] && (q + items)[j] == q[j];
        }
      }
      if q != [] {
        assert (q + items)[|q| - 1] == q[|q| - 1] && (q + items)[|q|] == items[0];
      }
      InsertAppends(q, items[0], rank);
      assert q + items == q' + items[1..];
      InsertAllSortedIdentity(q', items[1..], rank);
    }
  }
}

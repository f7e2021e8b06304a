/**
 * The driver's registry of request handlers for unsolicited requests, per
 * function type, and how a request is offered to them.
 */
module DriverRequestHandlers {
  import opened Wrappers

  /** A registered callback, identified by `invoke`, and whether it is removed after it handles a request. */
  datatype HandlerEntry = HandlerEntry(invoke: nat, oneTime: bool)

  /** The index of the first entry for `handler`, or the length of the list when there is none. */
  function FirstIndexOf(list: seq<HandlerEntry>, handler: nat): (i: nat)
    ensures i <= |list|
    ensures forall j :: 0 <= j < i ==> list[j].invoke != handler
    ensures i < |list| ==> list[i].invoke == handler
    decreases |list|
  {
    if list == [] || list[0].invoke == handler then 0
    else
      var i := 1 + FirstIndexOf(list[1..], handler);
      assert forall j :: 1 <= j < i ==> list[j] == list[1..][j - 1];
      i
  }

  /** The list without its first entry for `handler`, or unchanged if there is none. */
  function RemoveFirst(list: seq<HandlerEntry>, handler: nat): (r: seq<HandlerEntry>)
    ensures (forall j :: 0 <= j < |list| ==> list[j].invoke != handler) ==> r == list
    ensures (exists j :: 0 <= j < |list| && list[j].invoke == handler) ==>
      exists i :: 0 <= i < |list| && list[i].invoke == handler
        && (forall j :: 0 <= j < i ==> list[j].invoke != handler)
        && r == list[..i] + list[i + 1..]
  {
    var i := FirstIndexOf(list, handler);
    if i < |list| then list[..i] + list[i + 1..] else list
  }

  /** What the removal loop as written does: only an entry at the head is ever compared. */
  function HeadOnlyRemoval(list: seq<HandlerEntry>, handler: nat): (r: seq<HandlerEntry>)
    ensures |list| - 1 <= |r| <= |list|
  {
    if |list| > 0 && list[0].invoke == handler then list[1..] else list
  }

  class RequestHandlers {
    var handlers: map<nat, seq<HandlerEntry>>

    constructor ()
      ensures handlers == map[]
    {
      handlers := map[];
    }

    function HandlersFor(fnType: nat): seq<HandlerEntry>
      reads this
    {
      if fnType in handlers then handlers[fnType] else []
    }

    /** registerRequestHandler: appends the entry to the function type's list. */
    method RegisterRequestHandler(fnType: nat, handler: nat, oneTime: bool)
      modifies this
      ensures handlers == old(handlers)[fnType := old(HandlersFor(fnType)) + [HandlerEntry(handler, oneTime)]]
    {
      var list := HandlersFor(fnType);
      list := list + [HandlerEntry(handler, oneTime)];
      handlers := handlers[fnType := list];
    }

    /**
     * unregisterRequestHandler as written: the loop variable `entry` is bound
     * to the first entry once and never advanced, so a handler anywhere but at
     * the head of the list is never removed.
     */
    method UnregisterRequestHandlerAsWritten(fnType: nat, handler: nat)
      modifies this
      ensures handlers == old(handlers)[fnType := HeadOnlyRemoval(old(HandlersFor(fnType)), handler)]
    {
      var list := HandlersFor(fnType);
      var i := 0;
      if |list| > 0 {
        var entry := list[0];
        while i < |list|
          invariant 0 <= i <= |list| && entry == list[0]
          invariant i > 0 ==> entry.invoke != handler
          invariant list == old(HandlersFor(fnType))
        {
          if entry.invoke == handler {
            list := list[..i] + list[i + 1..];
            assert list == old(HandlersFor(fnType))[1..];
            break;
          }
          i := i + 1;
        }
      }
      handlers := handlers[fnType := list];
    }

    /** unregisterRequestHandler as intended: removes the first entry for the handler, if any. */
    method UnregisterRequestHandler(fnType: nat, handler: nat)
      modifies this
      ensures handlers == old(handlers)[fnType := RemoveFirst(old(HandlersFor(fnType)), handler)]
    {
      var list := HandlersFor(fnType);
      var i := 0;
      while i < |list|
        invariant 0 <= i <= |list|
        invariant forall j :: 0 <= j < i ==> list[j].invoke != handler
        invariant list == old(HandlersFor(fnType))
      {
        if list[i].invoke == handler {
          assert i == FirstIndexOf(list, handler);
          list := list[..i] + list[i + 1..];
          break;
        }
        i := i + 1;
      }
      handlers := handlers[fnType := list];
    }

    /**
     * The dispatch loop of handleRequest: handlers run in registration order
     * until one reports that it handled the request (`claims`); a one-time
     * handler that did so is removed. Returns the index of that handler.
     */
    method HandleRequest(fnType: nat, claims: nat -> bool) returns (handledBy: Option<nat>)
      modifies this
      ensures var list := old(HandlersFor(fnType));
        match handledBy
        case None =>
          (forall j :: 0 <= j < |list| ==> !claims(list[j].invoke)) && handlers == old(handlers)
        case Some(i) =>
          && i < |list| && claims(list[i].invoke)
          && (forall j :: 0 <= j < i ==> !claims(list[j].invoke))
          && handlers == if list[i].oneTime then old(handlers)[fnType := list[..i] + list[i + 1..]] else old(handlers)
    {
      handledBy := None;
      if fnType !in handlers {
        return;
      }
      var list := handlers[fnType];
      var i := 0;
      while i < |list|
        invariant 0 <= i <= |list|
        invariant forall j :: 0 <= j < i ==> !claims(list[j].invoke)
      {
        if claims(list[i].invoke) {
          handledBy := Some(i);
          if list[i].oneTime {
            handlers := handlers[fnType := list[..i] + list[i + 1..]];
          }
          return;
        }
        i := i + 1;
      }
    }
  }

  /** Registering a new handler and unregistering it again restores the list. */
  lemma RegisterUnregisterRoundTrip(list: seq<HandlerEntry>, handler: nat, oneTime: bool)
    requires forall j :: 0 <= j < |list| ==> list[j].invoke != handler
    ensures RemoveFirst(list + [HandlerEntry(handler, oneTime)], handler) == list
  {
    var extended := list + [HandlerEntry(handler, oneTime)];
    assert extended[|list|].invoke == handler;
    assert extended[..|list|] == list;
  }

  /**
   * As written, a handler registered after another one survives its own
   * unregistration.
   */
  lemma UnregisterAsWrittenKeepsLaterHandler(first: nat, handler: nat)
    requires first != handler
    ensures var list := [HandlerEntry(first, false)] + [HandlerEntry(handler, false)];
      HeadOnlyRemoval(list, handler) == list && RemoveFirst(list, handler) == [HandlerEntry(first, false)]
  {
    var list := [HandlerEntry(first, false)] + [HandlerEntry(handler, false)];
    assert list[1..] == [HandlerEntry(handler, false)];
  }
}

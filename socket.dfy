/**
 * The client's message dispatch (client/src/lib/socket.ts): `messageHandlers` maps a
 * message type to the handlers registered for it, in registration order. Handlers are
 * compared by identity, so here a handler is an abstract id; what a handler does is
 * outside the model, and a call is recorded as the handler and the data it received.
 */
module Socket {
  import Seqs
  import Hub

  /** The closure `onMessage` returns remembers the type and the handler it registered. */
  datatype Subscription = Subscription(kind: string, handler: int)

  /** One `handler(data)` call. */
  datatype Call = Call(handler: int, data: Hub.Event)

  /** The handlers registered for `kind`; a type never registered has none. */
  function Registered(handlers: map<string, seq<int>>, kind: string): seq<int> {
    if kind in handlers then handlers[kind] else []
  }

  /** The calls `list.forEach(handler => handler(data))` makes, in list order. */
  function Invocations(list: seq<int>, data: Hub.Event): (r: seq<Call>)
    ensures |r| == |list|
    ensures forall i :: 0 <= i < |list| ==> r[i] == Call(list[i], data)
  {
    if list == [] then [] else Invocations(list[..|list| - 1], data) + [Call(list[|list| - 1], data)]
  }

  /** Unsubscribing a handler that was appended to a list without it gives the list back. */
  lemma RemoveAppended(list: seq<int>, h: int)
    requires h !in list
    ensures Seqs.RemoveFirst(list + [h], h) == list
  {
    assert Seqs.IndexOf(list + [h], h) == |list| by {
      assert forall k :: 0 <= k < |list| ==> (list + [h])[k] != h;
    }
    Seqs.RemoveFirstMultiset(list + [h], h);
    Hub.CloseRemovesOneListing(list + [h], h);
    assert (list + [h])[..|list|] == list;
  }

  /** `messageHandlers` and the calls made so far. */
  class MessageHandlers {
    var handlers: map<string, seq<int>>
    var calls: seq<Call>

    /** `const messageHandlers = {}` */
    constructor ()
      ensures handlers == map[] && calls == []
    {
      handlers := map[];
      calls := [];
    }

    /** `onMessage`: the type's list is created if absent and the handler appended at its end. */
    method OnMessage(kind: string, handler: int) returns (sub: Subscription)
      modifies this`handlers
      ensures handlers == old(handlers)[kind := Registered(old(handlers), kind) + [handler]]
      ensures sub == Subscription(kind, handler)
    {
      if kind !in handlers {
        handlers := handlers[kind := []];
      }
      handlers := handlers[kind := handlers[kind] + [handler]];
      sub := Subscription(kind, handler);
    }

    /**
     * The unsubscribe closure: `indexOf` then `splice(index, 1)` on the type's list. Its
     * type's list exists, since only `onMessage` makes the closure and it never removes a list.
     */
    method Unsubscribe(sub: Subscription)
      requires sub.kind in handlers
      modifies this`handlers
      ensures handlers == old(handlers)[sub.kind := Seqs.RemoveFirst(old(handlers)[sub.kind], sub.handler)]
    {
      var list := handlers[sub.kind];
      var index := Seqs.IndexOf(list, sub.handler);
      if index != -1 {
        handlers := handlers[sub.kind := list[..index] + list[index + 1..]];
      }
    }

    /** `handleMessage`: every handler of the message's type, in registration order, gets its data. */
    method HandleMessage(kind: string, data: Hub.Event)
      modifies this`calls
      ensures calls == old(calls) + Invocations(Registered(handlers, kind), data)
    {
      if kind in handlers {
        var list := handlers[kind];
        for i := 0 to |list|
          invariant calls == old(calls) + Invocations(list[..i], data)
        {
          assert list[..i + 1][..i] == list[..i];
          calls := calls + [Call(list[i], data)];
        }
        assert list[..|list|] == list;
      }
    }
  }

  /**
   * Unsubscribing touches only its own type, takes out the first listing of its handler
   * and keeps the rest in order, and does nothing when the handler is no longer listed.
   */
  lemma UnsubscribeEffect(handlers: map<string, seq<int>>, sub: Subscription, other: string)
    requires sub.kind in handlers
    ensures var after := handlers[sub.kind := Seqs.RemoveFirst(handlers[sub.kind], sub.handler)];
      (other != sub.kind ==> Registered(after, other) == Registered(handlers, other)) &&
      (sub.handler !in handlers[sub.kind] ==> after == handlers) &&
      (sub.handler in handlers[sub.kind] ==>
         var list, i := handlers[sub.kind], Seqs.IndexOf(handlers[sub.kind], sub.handler);
         after[sub.kind] == list[..i] + list[i + 1..] && sub.handler !in list[..i]) &&
      multiset(after[sub.kind]) == multiset(handlers[sub.kind]) - multiset{sub.handler}
  {
    Hub.CloseRemovesOneListing(handlers[sub.kind], sub.handler);
  }

  /** Subscribing a handler not yet listed and then unsubscribing it restores that type's handlers. */
  lemma SubscribeThenUnsubscribe(handlers: map<string, seq<int>>, kind: string, h: int)
    requires h !in Registered(handlers, kind)
    ensures var during := handlers[kind := Registered(handlers, kind) + [h]];
      Registered(during[kind := Seqs.RemoveFirst(during[kind], h)], kind) == Registered(handlers, kind)
  {
    RemoveAppended(Registered(handlers, kind), h);
  }
}

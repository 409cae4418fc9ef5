/**
 * The WebSocket side of server/routes.ts: the `clients` list of live connections,
 * `broadcastToAdmins` and `handleWebSocketMessage`. A connection is an abstract id;
 * whether it is OPEN at a given moment belongs to the transport, so a broadcast is
 * given the set of connections that are open at that moment. What the server sends is
 * recorded as frames, in sending order.
 */
module Hub {
  import opened Schema
  import Seqs

  /** The `data` of the messages the server sends, one constructor per message `type`. */
  datatype Event =
    | Connected
    | Pong(time: int)
    | MenuItemUpdated(item: MenuItem)
    | MenuItemDeleted(id: int)
    | OrderCreated(order: Order, items: seq<OrderItem>)
    | OrderUpdated(order: Order)
    | ReservationCreated(reservation: Reservation)
    | ReservationUpdated(reservation: Reservation)
  {
    /** The message's `type` field. */
    function Kind(): string {
      match this
      case Connected => "connection"
      case Pong(_) => "pong"
      case MenuItemUpdated(_) => "menu-item-updated"
      case MenuItemDeleted(_) => "menu-item-deleted"
      case OrderCreated(_, _) => "order-created"
      case OrderUpdated(_) => "order-updated"
      case ReservationCreated(_) => "reservation-created"
      case ReservationUpdated(_) => "reservation-updated"
    }
  }

  /** One `send` on one connection. */
  datatype Frame = Frame(to: int, event: Event)

  /** `c => c.readyState === WebSocket.OPEN`, with the open connections given. */
  function IsOpenIn(open: set<int>): int -> bool {
    (c: int) => c in open
  }

  /** The frames `clients.forEach(c => { if (open) c.send(message) })` sends, in list order. */
  function Fanout(clients: seq<int>, open: set<int>, e: Event): seq<Frame> {
    if clients == [] then []
    else
      var last := clients[|clients| - 1];
      Fanout(clients[..|clients| - 1], open, e) + (if last in open then [Frame(last, e)] else [])
  }

  /** The connection each frame goes to, in sending order. */
  function Recipients(frames: seq<Frame>): (r: seq<int>)
    ensures |r| == |frames|
    ensures forall i :: 0 <= i < |frames| ==> r[i] == frames[i].to
  {
    if frames == [] then [] else Recipients(frames[..|frames| - 1]) + [frames[|frames| - 1].to]
  }

  /**
   * A broadcast reaches exactly the open connections of the list, in list order, once
   * per listing, and every frame carries the broadcast message.
   */
  lemma {:induction false} FanoutReachesOpenClients(clients: seq<int>, open: set<int>, e: Event)
    ensures Recipients(Fanout(clients, open, e)) == Seqs.Filter(clients, IsOpenIn(open))
    ensures forall i :: 0 <= i < |Fanout(clients, open, e)| ==> Fanout(clients, open, e)[i].event == e
  {
    if clients != [] {
      var front, last := clients[..|clients| - 1], clients[|clients| - 1];
      FanoutReachesOpenClients(front, open, e);
      assert clients == front + [last];
      Seqs.FilterConcat(front, [last], IsOpenIn(open));
      assert Seqs.Filter([last], IsOpenIn(open)) == if last in open then [last] else [] by {
        assert [last][1..] == [];
      }
      var tail := if last in open then [Frame(last, e)] else [];
      var frames := Fanout(front, open, e) + tail;
      assert Recipients(frames) == Recipients(Fanout(front, open, e)) + Recipients(tail) by {
        var a, b := Recipients(frames), Recipients(Fanout(front, open, e)) + Recipients(tail);
        assert |a| == |b|;
        forall i | 0 <= i < |a| ensures a[i] == b[i] {
        }
      }
    }
  }

  /** Closing a connection takes one listing of it out of the list and keeps the others in order. */
  lemma CloseRemovesOneListing(clients: seq<int>, ws: int)
    ensures ws !in clients ==> Seqs.RemoveFirst(clients, ws) == clients
    ensures ws in clients ==>
      var i := Seqs.IndexOf(clients, ws);
      Seqs.RemoveFirst(clients, ws) == clients[..i] + clients[i + 1..] && ws !in clients[..i]
    ensures multiset(Seqs.RemoveFirst(clients, ws)) == multiset(clients) - multiset{ws}
  {
    Seqs.RemoveFirstMultiset(clients, ws);
  }

  /** The live `clients` list and the frames sent so far. */
  class ClientRegistry {
    var clients: seq<int>
    var sent: seq<Frame>

    /** `const clients: WebSocket[] = []` */
    constructor ()
      ensures clients == [] && sent == []
    {
      clients := [];
      sent := [];
    }

    /** `connection`: the socket joins the end of the list and is greeted if it is already open. */
    method Connect(ws: int, isOpen: bool)
      modifies this
      ensures clients == old(clients) + [ws]
      ensures sent == old(sent) + (if isOpen then [Frame(ws, Connected)] else [])
    {
      clients := clients + [ws];
      if isOpen {
        sent := sent + [Frame(ws, Connected)];
      }
    }

    /** `close`: `indexOf` then `splice(index, 1)` when found. */
    method Close(ws: int)
      modifies this`clients
      ensures clients == Seqs.RemoveFirst(old(clients), ws)
    {
      var index := Seqs.IndexOf(clients, ws);
      if index != -1 {
        clients := clients[..index] + clients[index + 1..];
      }
    }

    /** `broadcastToAdmins`: a frame to every open connection in list order. */
    method Broadcast(e: Event, open: set<int>)
      modifies this`sent
      ensures sent == old(sent) + Fanout(clients, open, e)
    {
      for i := 0 to |clients|
        invariant sent == old(sent) + Fanout(clients[..i], open, e)
      {
        assert clients[..i + 1][..i] == clients[..i];
        if clients[i] in open {
          sent := sent + [Frame(clients[i], e)];
        }
      }
      assert clients[..|clients|] == clients;
    }

    /** `handleWebSocketMessage`: "ping" is answered with "pong" to its sender alone; anything else sends nothing. */
    method HandleMessage(kind: string, sender: int, now: int)
      modifies this`sent
      ensures kind == "ping" ==> sent == old(sent) + [Frame(sender, Pong(now))]
      ensures kind != "ping" ==> sent == old(sent)
    {
      if kind == "ping" {
        sent := sent + [Frame(sender, Pong(now))];
      }
    }
  }
}

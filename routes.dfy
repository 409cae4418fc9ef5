/**
 * The decision logic of the order, reservation and menu-item routes in
 * server/routes.ts: the two authorisation middlewares, 404 before the owner check,
 * list scoping by role, the session user's id forced into new records, the order-item
 * loop, and a broadcast only after a successful change. Request bodies are reduced to
 * which fields are present; the insert schemas' check is that the required columns
 * are there. Route ids are read with `parseInt`, whose NaN finds nothing.
 */
module Routes {
  import opened Wrappers
  import opened Schema
  import opened Storage
  import opened Hub
  import Text
  import Tables

  /** `req.user`: nobody, or the signed-in user. */
  datatype Session = Anonymous | SignedIn(user: User)

  predicate IsAdminUser(u: User) {
    u.role == Some(AdminRole)
  }

  /** A middleware either calls `next()` or answers with a status. */
  datatype Gate = Next | Reject(status: int)

  /** `isAuthenticated`: anyone signed in passes; everyone else gets 401. */
  function IsAuthenticated(session: Session): (r: Gate)
    ensures r.Next? <==> session.SignedIn?
    ensures r.Reject? ==> r.status == 401
  {
    if session.SignedIn? then Next else Reject(401)
  }

  /** `isAdmin`: only a signed-in admin passes; everyone else, signed in or not, gets 403. */
  function IsAdmin(session: Session): (r: Gate)
    ensures r.Next? <==> session.SignedIn? && IsAdminUser(session.user)
    ensures r.Reject? ==> r.status == 403
  {
    if session.SignedIn? && IsAdminUser(session.user) then Next else Reject(403)
  }

  /** `user.role === UserRole.ADMIN || record.userId === user.id` */
  predicate MayAccess(u: User, ownerId: int) {
    IsAdminUser(u) || ownerId == u.id
  }

  /** A response: a success status with its body, or an error status. */
  datatype Reply<T> = Ok(status: int, value: T) | Fail(status: int)

  /** `{ ...order, items }` */
  datatype OrderWithItems = OrderWithItems(order: Order, items: seq<OrderItem>)

  /** `parseInt(req.params.id)` looked up in a table: NaN or an unknown id finds nothing. */
  function FindId<T>(table: map<int, T>, rawId: string): (r: Option<int>)
    ensures r.Some? <==> Text.ParseInt(rawId).Some? && Text.ParseInt(rawId).value in table
    ensures r.Some? ==> r.value == Text.ParseInt(rawId).value
  {
    var id := Text.ParseInt(rawId);
    if id.Some? && id.value in table then id else None
  }

  // ------------------------------------------------------------ request bodies

  /** One element of `req.body.items`. */
  datatype ItemBody = ItemBody(menuItemId: Option<int>, quantity: Option<int>, price: Option<int>)

  /** The fields of a POST /api/orders body; a missing `items` is the empty list. */
  datatype OrderBody = OrderBody(userId: Option<int>, status: Option<string>, total: Option<real>,
                                 deliveryAddress: Option<string>, deliveryMethod: Option<string>,
                                 paymentMethod: Option<string>, paymentCompleted: Option<bool>,
                                 paymentId: Option<string>, items: seq<ItemBody>)

  /** The fields of a POST /api/reservations body; `date` is the parsed timestamp. */
  datatype ReservationBody = ReservationBody(userId: Option<int>, date: Option<int>, partySize: Option<int>,
                                             fullName: Option<string>, email: Option<string>, phone: Option<string>,
                                             specialRequests: Option<string>, status: Option<string>)

  /** `insertOrderSchema.parse({ ...req.body, userId: user.id })`: the body's own userId never survives. */
  function ParseOrder(body: OrderBody, userId: int): (r: Option<InsertOrder>)
    ensures r.Some? <==> body.status.Some? && body.total.Some? && body.deliveryMethod.Some? && body.paymentMethod.Some?
    ensures r.Some? ==> r.value.userId == userId && r.value.status == body.status.value && r.value.total == body.total.value
    ensures r.Some? ==> r.value.deliveryAddress == body.deliveryAddress && r.value.paymentCompleted == body.paymentCompleted
  {
    if body.status.Some? && body.total.Some? && body.deliveryMethod.Some? && body.paymentMethod.Some? then
      Some(InsertOrder(userId, body.status.value, body.total.value, body.deliveryAddress, body.deliveryMethod.value,
                       body.paymentMethod.value, body.paymentCompleted, body.paymentId))
    else None
  }

  /** `insertOrderItemSchema.parse({ orderId: newOrder.id, menuItemId, quantity, price })` */
  function ParseOrderItem(item: ItemBody, orderId: int): (r: Option<InsertOrderItem>)
    ensures r.Some? <==> item.menuItemId.Some? && item.quantity.Some? && item.price.Some?
    ensures r.Some? ==> r.value == InsertOrderItem(orderId, item.menuItemId.value, item.quantity.value, item.price.value)
  {
    if item.menuItemId.Some? && item.quantity.Some? && item.price.Some? then
      Some(InsertOrderItem(orderId, item.menuItemId.value, item.quantity.value, item.price.value))
    else None
  }

  /** `insertReservationSchema.parse({ ...req.body, userId: user.id, date })`: the body's own userId never survives. */
  function ParseReservation(body: ReservationBody, userId: int): (r: Option<InsertReservation>)
    ensures r.Some? <==> body.date.Some? && body.partySize.Some? && body.fullName.Some? && body.email.Some? && body.phone.Some?
    ensures r.Some? ==> r.value.userId == userId && r.value.date == body.date.value && r.value.status == body.status
  {
    if body.date.Some? && body.partySize.Some? && body.fullName.Some? && body.email.Some? && body.phone.Some? then
      Some(InsertReservation(userId, body.date.value, body.partySize.value, body.fullName.value, body.email.value,
                             body.phone.value, body.specialRequests, body.status))
    else None
  }

  // ------------------------------------------------------------ reads

  /** GET /api/orders: everything for an admin, the caller's own orders for anyone else. */
  function ListOrders(store: MemStorage, session: Session): (r: Reply<seq<Order>>)
    reads store
    requires store.Valid()
    ensures session.Anonymous? <==> r == Fail(401)
    ensures session.SignedIn? && IsAdminUser(session.user) ==> r == Ok(200, store.GetAllOrders())
    ensures session.SignedIn? && !IsAdminUser(session.user) ==>
      r.Ok? && r.status == 200 &&
      forall o :: o in r.value <==> o in store.GetAllOrders() && o.userId == session.user.id
  {
    match IsAuthenticated(session)
    case Reject(status) => Fail(status)
    case Next =>
      if IsAdminUser(session.user) then Ok(200, store.GetAllOrders())
      else Ok(200, store.GetOrdersByUser(session.user.id))
  }

  /** GET /api/orders/active: admins only. */
  function ListActiveOrders(store: MemStorage, session: Session): (r: Reply<seq<Order>>)
    reads store
    requires store.Valid()
    ensures r.Fail? <==> !(session.SignedIn? && IsAdminUser(session.user))
    ensures r.Fail? ==> r.status == 403
    ensures r.Ok? ==> forall o :: o in r.value <==> o in store.GetAllOrders() && IsActiveStatus(o.status)
  {
    match IsAdmin(session)
    case Reject(status) => Fail(status)
    case Next => Ok(200, store.GetActiveOrders())
  }

  /** GET /api/orders/:id: 401, then 404 for an unknown id, then 403 for someone else's order. */
  function FetchOrder(store: MemStorage, session: Session, rawId: string): (r: Reply<OrderWithItems>)
    reads store
    requires store.Valid()
    ensures session.Anonymous? ==> r == Fail(401)
    ensures session.SignedIn? && FindId(store.orders, rawId).None? ==> r == Fail(404)
    ensures session.SignedIn? && FindId(store.orders, rawId).Some? ==>
      var o := store.orders[FindId(store.orders, rawId).value];
      (r == Fail(403) <==> !MayAccess(session.user, o.userId)) &&
      (r.Ok? <==> MayAccess(session.user, o.userId)) &&
      (r.Ok? ==> r.status == 200 && r.value.order == o &&
                 forall x :: x in r.value.items <==> x in store.GetAllOrderItems() && x.orderId == o.id)
  {
    match IsAuthenticated(session)
    case Reject(status) => Fail(status)
    case Next =>
      var id := FindId(store.orders, rawId);
      if id.None? then Fail(404)
      else
        var order := store.orders[id.value];
        if !MayAccess(session.user, order.userId) then Fail(403)
        else Ok(200, OrderWithItems(order, store.GetOrderItems(id.value)))
  }

  /** GET /api/reservations: everything for an admin, the caller's own reservations for anyone else. */
  function ListReservations(store: MemStorage, session: Session): (r: Reply<seq<Reservation>>)
    reads store
    requires store.Valid()
    ensures session.Anonymous? <==> r == Fail(401)
    ensures session.SignedIn? && IsAdminUser(session.user) ==> r == Ok(200, store.GetAllReservations())
    ensures session.SignedIn? && !IsAdminUser(session.user) ==>
      r.Ok? && r.status == 200 &&
      forall x :: x in r.value <==> x in store.GetAllReservations() && x.userId == session.user.id
  {
    match IsAuthenticated(session)
    case Reject(status) => Fail(status)
    case Next =>
      if IsAdminUser(session.user) then Ok(200, store.GetAllReservations())
      else Ok(200, store.GetReservationsByUser(session.user.id))
  }

  /** GET /api/reservations/active: admins only. */
  function ListActiveReservations(store: MemStorage, session: Session): (r: Reply<seq<Reservation>>)
    reads store
    requires store.Valid()
    ensures r.Fail? <==> !(session.SignedIn? && IsAdminUser(session.user))
    ensures r.Fail? ==> r.status == 403
    ensures r.Ok? ==> forall x :: x in r.value <==> x in store.GetAllReservations() && IsActiveReservationStatus(x.status)
  {
    match IsAdmin(session)
    case Reject(status) => Fail(status)
    case Next => Ok(200, store.GetActiveReservations())
  }

  /** GET /api/reservations/:id: 401, then 404 for an unknown id, then 403 for someone else's reservation. */
  function FetchReservation(store: MemStorage, session: Session, rawId: string): (r: Reply<Reservation>)
    reads store
    requires store.Valid()
    ensures session.Anonymous? ==> r == Fail(401)
    ensures session.SignedIn? && FindId(store.reservations, rawId).None? ==> r == Fail(404)
    ensures session.SignedIn? && FindId(store.reservations, rawId).Some? ==>
      var x := store.reservations[FindId(store.reservations, rawId).value];
      (r == Fail(403) <==> !MayAccess(session.user, x.userId)) &&
      (r.Ok? <==> MayAccess(session.user, x.userId)) &&
      (r.Ok? ==> r == Ok(200, x))
  {
    match IsAuthenticated(session)
    case Reject(status) => Fail(status)
    case Next =>
      var id := FindId(store.reservations, rawId);
      if id.None? then Fail(404)
      else
        var x := store.reservations[id.value];
        if !MayAccess(session.user, x.userId) then Fail(403) else Ok(200, x)
  }

  // ------------------------------------------------------------ changes

  /**
   * Where the item loop of POST /api/orders stops: the index of the first item that
   * fails the insert schema, or the number of items when none does.
   */
  function FirstInvalid(items: seq<ItemBody>, orderId: int): (k: int)
    ensures 0 <= k <= |items|
    ensures forall j :: 0 <= j < k ==> ParseOrderItem(items[j], orderId).Some?
    ensures k < |items| ==> ParseOrderItem(items[k], orderId).None?
  {
    if items == [] || ParseOrderItem(items[0], orderId).None? then 0
    else 1 + FirstInvalid(items[1..], orderId)
  }

  /** The first invalid item is the one before which every item is valid. */
  lemma FirstInvalidIs(items: seq<ItemBody>, orderId: int, k: int)
    requires 0 <= k <= |items|
    requires forall j :: 0 <= j < k ==> ParseOrderItem(items[j], orderId).Some?
    requires k < |items| ==> ParseOrderItem(items[k], orderId).None?
    ensures FirstInvalid(items, orderId) == k
  {
  }

  /** The records `createOrderItem` makes from valid items, numbered on from `firstId`. */
  function CreatedItems(items: seq<ItemBody>, orderId: int, firstId: int): (r: seq<OrderItem>)
    requires forall j :: 0 <= j < |items| ==> ParseOrderItem(items[j], orderId).Some?
    ensures |r| == |items|
    ensures forall j :: 0 <= j < |items| ==> r[j] == ParseOrderItem(items[j], orderId).value.WithId(firstId + j)
  {
    if items == [] then []
    else
      var last := |items| - 1;
      CreatedItems(items[..last], orderId, firstId) + [ParseOrderItem(items[last], orderId).value.WithId(firstId + last)]
  }

  /**
   * The item loop of POST /api/orders: each item is validated against the new order's
   * id and stored in turn. The first invalid item stops the loop, and the items before
   * it stay stored; otherwise every item is stored, with consecutive ids.
   */
  method CreateOrderItems(store: MemStorage, orderId: int, items: seq<ItemBody>) returns (created: Option<seq<OrderItem>>)
    requires store.Valid()
    modifies store`orderItems, store`orderItemIdCounter
    ensures store.Valid()
    ensures created.Some? <==> forall j :: 0 <= j < |items| ==> ParseOrderItem(items[j], orderId).Some?
    ensures var k := FirstInvalid(items, orderId);
      store.orderItemIdCounter == old(store.orderItemIdCounter) + k &&
      store.GetAllOrderItems() == old(store.GetAllOrderItems()) + CreatedItems(items[..k], orderId, old(store.orderItemIdCounter))
    ensures created.Some? ==> created.value == CreatedItems(items, orderId, old(store.orderItemIdCounter))
    ensures created.Some? ==> forall x :: x in created.value ==> x.id in store.orderItems && store.orderItems[x.id] == x
  {
    var firstItemId := store.orderItemIdCounter;
    var done: seq<OrderItem> := [];
    var k := 0;
    while k < |items| && ParseOrderItem(items[k], orderId).Some?
      invariant 0 <= k <= |items|
      invariant forall j :: 0 <= j < k ==> ParseOrderItem(items[j], orderId).Some?
      invariant store.Valid() && store.orderItemIdCounter == firstItemId + k
      invariant done == CreatedItems(items[..k], orderId, firstItemId)
      invariant store.GetAllOrderItems() == old(store.GetAllOrderItems()) + done
    {
      var newItem := store.CreateOrderItem(ParseOrderItem(items[k], orderId).value);
      assert items[..k + 1][..k] == items[..k];
      done := done + [newItem];
      k := k + 1;
    }
    FirstInvalidIs(items, orderId, k);
    if k < |items| {
      return None;
    }
    assert items[..k] == items;
    Tables.ListedTailStored(store.orderItems, store.orderItemIdCounter, OrderItemId, old(store.GetAllOrderItems()), done);
    created := Some(done);
  }

  /**
   * POST /api/orders. The order is stored first and its items one by one after it; an
   * item that fails the insert schema ends the request with 400 and leaves the order
   * and the items before it stored. Only a request that gets through every item is
   * answered 201 and broadcast.
   */
  method CreateOrderRoute(store: MemStorage, hub: ClientRegistry, session: Session, body: OrderBody,
                          now: int, open: set<int>) returns (r: Reply<OrderWithItems>)
    requires store.Valid()
    modifies store`orders, store`orderIdCounter, store`orderItems, store`orderItemIdCounter, hub`sent
    ensures store.Valid()
    ensures r.Fail? ==> hub.sent == old(hub.sent)
    ensures session.Anonymous? ==> r == Fail(401) && store.orders == old(store.orders) && store.orderItems == old(store.orderItems)
    ensures session.SignedIn? && ParseOrder(body, session.user.id).None? ==>
      r == Fail(400) && store.orders == old(store.orders) && store.orderItems == old(store.orderItems)
    ensures session.SignedIn? && ParseOrder(body, session.user.id).Some? ==>
      var o := ParseOrder(body, session.user.id).value.WithId(old(store.orderIdCounter), now);
      store.orders == old(store.orders)[o.id := o] &&
      o.userId == session.user.id &&
      (r.Ok? <==> forall j :: 0 <= j < |body.items| ==> ParseOrderItem(body.items[j], o.id).Some?) &&
      (r.Fail? ==> r == Fail(400)) &&
      (var k := FirstInvalid(body.items, o.id);
       store.GetAllOrderItems() ==
         old(store.GetAllOrderItems()) + CreatedItems(body.items[..k], o.id, old(store.orderItemIdCounter))) &&
      (r.Ok? ==>
         r.status == 201 && r.value.order == o &&
         r.value.items == CreatedItems(body.items, o.id, old(store.orderItemIdCounter)) &&
         hub.sent == old(hub.sent) + Fanout(hub.clients, open, OrderCreated(o, r.value.items)))
  {
    if session.Anonymous? {
      return Fail(401);
    }
    var validated := ParseOrder(body, session.user.id);
    if validated.None? {
      return Fail(400);
    }
    var newOrder := store.CreateOrder(validated.value, now);
    var created := CreateOrderItems(store, newOrder.id, body.items);
    if created.None? {
      return Fail(400);
    }
    r := Ok(201, OrderWithItems(newOrder, created.value));
    hub.Broadcast(OrderCreated(newOrder, created.value), open);
  }

  /** PUT /api/orders/:id: 401, 404, 403 in that order, then any patch is merged and broadcast. */
  method UpdateOrderRoute(store: MemStorage, hub: ClientRegistry, session: Session, rawId: string,
                          patch: OrderPatch, open: set<int>) returns (r: Reply<Order>)
    requires store.Valid()
    modifies store`orders, hub`sent
    ensures store.Valid()
    ensures r.Fail? ==> hub.sent == old(hub.sent) && store.orders == old(store.orders)
    ensures session.Anonymous? ==> r == Fail(401)
    ensures session.SignedIn? && FindId(old(store.orders), rawId).None? ==> r == Fail(404)
    ensures session.SignedIn? && FindId(old(store.orders), rawId).Some? ==>
      var id := FindId(old(store.orders), rawId).value;
      (r == Fail(403) <==> !MayAccess(session.user, old(store.orders)[id].userId)) &&
      (r.Ok? <==> MayAccess(session.user, old(store.orders)[id].userId)) &&
      (r.Ok? ==>
         r == Ok(200, ApplyOrderPatch(old(store.orders)[id], patch)) &&
         store.orders == old(store.orders)[id := r.value] &&
         hub.sent == old(hub.sent) + Fanout(hub.clients, open, OrderUpdated(r.value)))
  {
    if session.Anonymous? {
      return Fail(401);
    }
    var id := FindId(store.orders, rawId);
    if id.None? {
      return Fail(404);
    }
    var order := store.GetOrder(id.value);
    if !MayAccess(session.user, order.value.userId) {
      return Fail(403);
    }
    var updated := store.UpdateOrder(id.value, patch);
    if updated.None? {
      return Fail(404);
    }
    r := Ok(200, updated.value);
    hub.Broadcast(OrderUpdated(updated.value), open);
  }

  /** POST /api/reservations: the caller's id replaces any in the body; broadcast once stored. */
  method CreateReservationRoute(store: MemStorage, hub: ClientRegistry, session: Session, body: ReservationBody,
                                open: set<int>) returns (r: Reply<Reservation>)
    requires store.Valid()
    modifies store`reservations, store`reservationIdCounter, hub`sent
    ensures store.Valid()
    ensures r.Fail? ==> hub.sent == old(hub.sent) && store.reservations == old(store.reservations)
    ensures session.Anonymous? ==> r == Fail(401)
    ensures session.SignedIn? && ParseReservation(body, session.user.id).None? ==> r == Fail(400)
    ensures session.SignedIn? && ParseReservation(body, session.user.id).Some? ==>
      var x := ParseReservation(body, session.user.id).value.WithId(old(store.reservationIdCounter));
      r == Ok(201, x) && x.userId == session.user.id &&
      store.reservations == old(store.reservations)[x.id := x] &&
      hub.sent == old(hub.sent) + Fanout(hub.clients, open, ReservationCreated(x))
  {
    if session.Anonymous? {
      return Fail(401);
    }
    var validated := ParseReservation(body, session.user.id);
    if validated.None? {
      return Fail(400);
    }
    var created := store.CreateReservation(validated.value);
    r := Ok(201, created);
    hub.Broadcast(ReservationCreated(created), open);
  }

  /** PUT /api/reservations/:id: 401, 404, 403 in that order, then the patch is merged and broadcast. */
  method UpdateReservationRoute(store: MemStorage, hub: ClientRegistry, session: Session, rawId: string,
                                patch: ReservationPatch, open: set<int>) returns (r: Reply<Reservation>)
    requires store.Valid()
    modifies store`reservations, hub`sent
    ensures store.Valid()
    ensures r.Fail? ==> hub.sent == old(hub.sent) && store.reservations == old(store.reservations)
    ensures session.Anonymous? ==> r == Fail(401)
    ensures session.SignedIn? && FindId(old(store.reservations), rawId).None? ==> r == Fail(404)
    ensures session.SignedIn? && FindId(old(store.reservations), rawId).Some? ==>
      var id := FindId(old(store.reservations), rawId).value;
      (r == Fail(403) <==> !MayAccess(session.user, old(store.reservations)[id].userId)) &&
      (r.Ok? <==> MayAccess(session.user, old(store.reservations)[id].userId)) &&
      (r.Ok? ==>
         r == Ok(200, ApplyReservationPatch(old(store.reservations)[id], patch)) &&
         store.reservations == old(store.reservations)[id := r.value] &&
         hub.sent == old(hub.sent) + Fanout(hub.clients, open, ReservationUpdated(r.value)))
  {
    if session.Anonymous? {
      return Fail(401);
    }
    var id := FindId(store.reservations, rawId);
    if id.None? {
      return Fail(404);
    }
    var reservation := store.GetReservation(id.value);
    if !MayAccess(session.user, reservation.value.userId) {
      return Fail(403);
    }
    var updated := store.UpdateReservation(id.value, patch);
    if updated.None? {
      return Fail(404);
    }
    r := Ok(200, updated.value);
    hub.Broadcast(ReservationUpdated(updated.value), open);
  }

  /** PUT /api/menu-items/:id: admins only; 404 for an unknown id; broadcast once merged. */
  method UpdateMenuItemRoute(store: MemStorage, hub: ClientRegistry, session: Session, rawId: string,
                             patch: MenuItemPatch, open: set<int>) returns (r: Reply<MenuItem>)
    requires store.Valid()
    modifies store`menuItems, hub`sent
    ensures store.Valid()
    ensures r.Fail? ==> hub.sent == old(hub.sent) && store.menuItems == old(store.menuItems)
    ensures !(session.SignedIn? && IsAdminUser(session.user)) ==> r == Fail(403)
    ensures session.SignedIn? && IsAdminUser(session.user) ==>
      (r == Fail(404) <==> FindId(old(store.menuItems), rawId).None?) &&
      (r.Ok? <==> FindId(old(store.menuItems), rawId).Some?) &&
      (r.Ok? ==>
         var id := FindId(old(store.menuItems), rawId).value;
         r == Ok(200, ApplyMenuItemPatch(old(store.menuItems)[id], patch)) &&
         store.menuItems == old(store.menuItems)[id := r.value] &&
         hub.sent == old(hub.sent) + Fanout(hub.clients, open, MenuItemUpdated(r.value)))
  {
    if IsAdmin(session).Reject? {
      return Fail(403);
    }
    var id := FindId(store.menuItems, rawId);
    if id.None? {
      return Fail(404);
    }
    var updated := store.UpdateMenuItem(id.value, patch);
    if updated.None? {
      return Fail(404);
    }
    r := Ok(200, updated.value);
    hub.Broadcast(MenuItemUpdated(updated.value), open);
  }

  /** DELETE /api/menu-items/:id: admins only; 404 when nothing was deleted; broadcast once deleted. */
  method DeleteMenuItemRoute(store: MemStorage, hub: ClientRegistry, session: Session, rawId: string,
                             open: set<int>) returns (r: Reply<int>)
    requires store.Valid()
    modifies store`menuItems, hub`sent
    ensures store.Valid()
    ensures r.Fail? ==> hub.sent == old(hub.sent) && store.menuItems == old(store.menuItems)
    ensures !(session.SignedIn? && IsAdminUser(session.user)) ==> r == Fail(403)
    ensures session.SignedIn? && IsAdminUser(session.user) ==>
      (r == Fail(404) <==> FindId(old(store.menuItems), rawId).None?) &&
      (r.Ok? <==> FindId(old(store.menuItems), rawId).Some?) &&
      (r.Ok? ==>
         var id := FindId(old(store.menuItems), rawId).value;
         r == Ok(200, id) && store.menuItems == old(store.menuItems) - {id} &&
         hub.sent == old(hub.sent) + Fanout(hub.clients, open, MenuItemDeleted(id)))
  {
    if IsAdmin(session).Reject? {
      return Fail(403);
    }
    var id := Text.ParseInt(rawId);
    var key := if id.Some? then id.value else 0;
    var success := false;
    if id.Some? {
      success := store.DeleteMenuItem(key);
    }
    if !success {
      return Fail(404);
    }
    r := Ok(200, key);
    hub.Broadcast(MenuItemDeleted(key), open);
  }
}

/**
 * Checkout on the order page (client/src/pages/Order.tsx): `handlePlaceOrder` checks
 * the session and the delivery address, then builds the order request from the cart;
 * the cart is cleared once the request succeeds.
 */
module OrderPage {
  import opened Wrappers
  import opened Cart

  /** One requested line: `{ menuItemId, quantity, price }`. */
  datatype PayloadItem = PayloadItem(menuItemId: int, quantity: int, price: int)

  /** The `orderData` object posted to `/api/orders`; `total` is in cents. */
  datatype OrderPayload = OrderPayload(status: string, total: real, deliveryMethod: DeliveryMethod,
                                       deliveryAddress: Option<string>, paymentMethod: PaymentMethod,
                                       paymentCompleted: bool, items: seq<PayloadItem>)

  /** What pressing "Place order" does: one of two refusals, or the request it sends. */
  datatype PlaceOrderOutcome =
    | AuthenticationRequired
    | AddressRequired
    | Submit(payload: OrderPayload)

  /** `items.map(item => ({ menuItemId: item.menuItem.id, quantity: item.quantity, price: item.menuItem.price }))` */
  function PayloadItems(items: seq<CartLine>): (r: seq<PayloadItem>)
    ensures |r| == |items|
    ensures forall i :: 0 <= i < |items| ==>
      r[i] == PayloadItem(items[i].menuItem.id, items[i].quantity, items[i].menuItem.price)
  {
    if items == [] then []
    else [PayloadItem(items[0].menuItem.id, items[0].quantity, items[0].menuItem.price)] + PayloadItems(items[1..])
  }

  /** `!deliveryAddress`: absent or the empty string. */
  predicate MissingAddress(address: Option<string>) {
    address.None? || address == Some("")
  }

  /** `handlePlaceOrder` */
  function PlaceOrder(isAuthenticated: bool, cart: CartState): (r: PlaceOrderOutcome)
    ensures !isAuthenticated <==> r == AuthenticationRequired
    ensures r == AddressRequired <==> isAuthenticated && cart.deliveryMethod == Delivery && MissingAddress(cart.deliveryAddress)
    ensures cart.deliveryMethod == Pickup && isAuthenticated ==> r.Submit?
  {
    if !isAuthenticated then AuthenticationRequired
    else if cart.deliveryMethod == Delivery && MissingAddress(cart.deliveryAddress) then AddressRequired
    else
      Submit(OrderPayload(
        "pending",
        Total(cart),
        cart.deliveryMethod,
        if cart.deliveryMethod == Delivery then cart.deliveryAddress else None,
        cart.paymentMethod,
        if cart.paymentMethod == Cash then false else true,
        PayloadItems(cart.items)))
  }

  /** `onSuccess` clears the cart; `onError` only reports, so the cart is kept. */
  function AfterOrder(cart: CartState, succeeded: bool): CartState {
    if succeeded then Reduce(cart, ClearCart) else cart
  }

  /** The payload a successful check sends: pending, the cart's own total, its method and lines. */
  lemma PayloadFromCart(isAuthenticated: bool, cart: CartState)
    requires PlaceOrder(isAuthenticated, cart).Submit?
    ensures var p := PlaceOrder(isAuthenticated, cart).payload;
      p.status == "pending" && p.total == Total(cart) &&
      p.deliveryMethod == cart.deliveryMethod && p.paymentMethod == cart.paymentMethod &&
      (p.deliveryAddress.None? <==> cart.deliveryMethod == Pickup) &&
      (cart.deliveryMethod == Delivery ==> p.deliveryAddress == cart.deliveryAddress && !MissingAddress(p.deliveryAddress)) &&
      (!p.paymentCompleted <==> cart.paymentMethod == Cash) &&
      |p.items| == |cart.items| &&
      (forall i :: 0 <= i < |cart.items| ==>
         p.items[i].menuItemId == cart.items[i].menuItem.id &&
         p.items[i].quantity == cart.items[i].quantity &&
         p.items[i].price == cart.items[i].menuItem.price)
  {
  }

  /** The cart survives a failed order and is emptied by a successful one. */
  lemma ClearOnlyOnSuccess(cart: CartState)
    ensures AfterOrder(cart, false) == cart
    ensures AfterOrder(cart, true).items == [] && AfterOrder(cart, true) == EmptyCart
  {
  }
}

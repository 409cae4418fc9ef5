/**
 * The shopping cart of client/src/context/CartContext.tsx: `cartReducer` over a cart
 * state, and the values the provider derives from it (item count, subtotal, delivery
 * fee, tax, total). Money is in integer cents; the 8.25% tax is exact (`real`) because
 * the code does not round it.
 */
module Cart {
  import opened Wrappers
  import opened Schema
  import Seqs

  /** One cart line: a menu item and how many of it. */
  datatype CartLine = CartLine(menuItem: MenuItem, quantity: int)

  datatype DeliveryMethod = Delivery | Pickup
  datatype PaymentMethod = Cash | PayPal

  /** `deliveryAddress?: string`: absent is `None`. */
  datatype CartState = CartState(items: seq<CartLine>, deliveryMethod: DeliveryMethod,
                                 paymentMethod: PaymentMethod, deliveryAddress: Option<string>)

  datatype CartAction =
    | AddItem(item: MenuItem)
    | RemoveItem(id: int)
    | UpdateQuantity(id: int, quantity: int)
    | SetDeliveryMethod(choice: DeliveryMethod)
    | SetPaymentMethod(payment: PaymentMethod)
    | SetDeliveryAddress(address: string)
    | ClearCart

  /** The state a new cart starts from and `CLEAR_CART` returns to. */
  const EmptyCart: CartState := CartState([], Delivery, Cash, Some(""))

  /** `item => item.menuItem.id === id` */
  function HasId(id: int): CartLine -> bool {
    (l: CartLine) => l.menuItem.id == id
  }

  /** `item => item.menuItem.id !== id` */
  function OtherId(id: int): CartLine -> bool {
    (l: CartLine) => l.menuItem.id != id
  }

  /** No two lines are for the same menu item. */
  ghost predicate UniqueIds(items: seq<CartLine>) {
    forall i, j :: 0 <= i < j < |items| ==> items[i].menuItem.id != items[j].menuItem.id
  }

  /** Every line holds at least one of its item. */
  ghost predicate PositiveQuantities(items: seq<CartLine>) {
    forall i :: 0 <= i < |items| ==> items[i].quantity > 0
  }

  /** `items.map(item => item.menuItem.id === id ? { ...item, quantity } : item)` */
  function SetQuantity(items: seq<CartLine>, id: int, quantity: int): (r: seq<CartLine>)
    ensures |r| == |items|
  {
    seq(|items|, i requires 0 <= i < |items| =>
      if items[i].menuItem.id == id then items[i].(quantity := quantity) else items[i])
  }

  /** `cartReducer(state, action)` */
  function Reduce(state: CartState, action: CartAction): CartState {
    match action
    case AddItem(m) =>
      var i := Seqs.FirstIndex(state.items, HasId(m.id));
      if i >= 0 then
        state.(items := state.items[i := state.items[i].(quantity := state.items[i].quantity + 1)])
      else
        state.(items := state.items + [CartLine(m, 1)])
    case RemoveItem(id) =>
      state.(items := Seqs.Filter(state.items, OtherId(id)))
    case UpdateQuantity(id, quantity) =>
      if quantity <= 0 then state.(items := Seqs.Filter(state.items, OtherId(id)))
      else state.(items := SetQuantity(state.items, id, quantity))
    case SetDeliveryMethod(choice) => state.(deliveryMethod := choice)
    case SetPaymentMethod(payment) => state.(paymentMethod := payment)
    case SetDeliveryAddress(address) => state.(deliveryAddress := Some(address))
    case ClearCart => EmptyCart
  }

  // ------------------------------------------------------------ derived values

  /** `items.reduce((total, item) => total + item.quantity, 0)`, folded from the left. */
  function CartCount(items: seq<CartLine>): int {
    if items == [] then 0 else CartCount(items[..|items| - 1]) + items[|items| - 1].quantity
  }

  /** `items.reduce((total, item) => total + item.menuItem.price * item.quantity, 0)`, in cents. */
  function Subtotal(items: seq<CartLine>): int {
    if items == [] then 0
    else Subtotal(items[..|items| - 1]) + items[|items| - 1].menuItem.price * items[|items| - 1].quantity
  }

  /** Orders of at least $35.00 are delivered free. */
  const FreeDeliveryThreshold: int := 3500
  /** The $3.99 delivery charge. */
  const DeliveryCharge: int := 399

  /** `deliveryMethod === "delivery" ? (subtotal >= 35 ? 0 : 3.99) : 0` */
  function DeliveryFee(choice: DeliveryMethod, subtotal: int): (r: int)
    ensures r == 0 || r == DeliveryCharge
    ensures r == DeliveryCharge <==> choice == Delivery && subtotal < FreeDeliveryThreshold
  {
    if choice == Delivery then (if subtotal >= FreeDeliveryThreshold then 0 else DeliveryCharge) else 0
  }

  /** `subtotal * 0.0825`, in cents, unrounded. */
  function Tax(subtotal: int): (r: real)
    ensures subtotal >= 0 ==> 0.0 <= r <= subtotal as real
    ensures r * 10000.0 == subtotal as real * 825.0
  {
    subtotal as real * 825.0 / 10000.0
  }

  /** `subtotal + deliveryFee + tax`, in cents. */
  function Total(state: CartState): real {
    var subtotal := Subtotal(state.items);
    subtotal as real + DeliveryFee(state.deliveryMethod, subtotal) as real + Tax(subtotal)
  }

  // ------------------------------------------------------------ properties

  /** `ADD_ITEM` for an item already in the cart adds one to the first line holding it and changes nothing else. */
  lemma AddExisting(state: CartState, m: MenuItem, i: int)
    requires 0 <= i < |state.items| && state.items[i].menuItem.id == m.id
    requires forall j :: 0 <= j < i ==> state.items[j].menuItem.id != m.id
    ensures var r := Reduce(state, AddItem(m));
      |r.items| == |state.items| &&
      r.items[i] == CartLine(state.items[i].menuItem, state.items[i].quantity + 1) &&
      (forall j :: 0 <= j < |r.items| && j != i ==> r.items[j] == state.items[j]) &&
      r.deliveryMethod == state.deliveryMethod && r.paymentMethod == state.paymentMethod &&
      r.deliveryAddress == state.deliveryAddress
  {
    var k := Seqs.FirstIndex(state.items, HasId(m.id));
    assert HasId(m.id)(state.items[i]);
  }

  /** `ADD_ITEM` for an item not in the cart appends one line with quantity 1. */
  lemma AddNew(state: CartState, m: MenuItem)
    requires forall j :: 0 <= j < |state.items| ==> state.items[j].menuItem.id != m.id
    ensures Reduce(state, AddItem(m)) == state.(items := state.items + [CartLine(m, 1)])
  {
    assert forall j :: 0 <= j < |state.items| ==> !HasId(m.id)(state.items[j]);
  }

  /** `REMOVE_ITEM` keeps exactly the lines for other items, in their order. */
  lemma RemoveKeepsOthers(state: CartState, id: int, l: CartLine)
    ensures var r := Reduce(state, RemoveItem(id));
      (l in r.items <==> l in state.items && l.menuItem.id != id) &&
      |r.items| <= |state.items| &&
      multiset(r.items) <= multiset(state.items) &&
      r.deliveryMethod == state.deliveryMethod && r.paymentMethod == state.paymentMethod &&
      r.deliveryAddress == state.deliveryAddress
  {
    Seqs.FilterMember(state.items, OtherId(id), l);
    Seqs.FilterMultiset(state.items, OtherId(id));
  }

  /** `REMOVE_ITEM` of an id no line has leaves the cart as it was. */
  lemma RemoveAbsent(state: CartState, id: int)
    requires forall j :: 0 <= j < |state.items| ==> state.items[j].menuItem.id != id
    ensures Reduce(state, RemoveItem(id)) == state
  {
    Seqs.FilterAll(state.items, OtherId(id));
  }

  /** `UPDATE_QUANTITY` with a quantity of zero or less is `REMOVE_ITEM`. */
  lemma UpdateNonPositiveRemoves(state: CartState, id: int, quantity: int)
    requires quantity <= 0
    ensures Reduce(state, UpdateQuantity(id, quantity)) == Reduce(state, RemoveItem(id))
  {
  }

  /** `UPDATE_QUANTITY` with a positive quantity sets it on the matching lines only. */
  lemma UpdatePositiveSets(state: CartState, id: int, quantity: int)
    requires quantity > 0
    ensures var r := Reduce(state, UpdateQuantity(id, quantity));
      |r.items| == |state.items| &&
      (forall j :: 0 <= j < |r.items| ==>
         r.items[j].menuItem == state.items[j].menuItem &&
         r.items[j].quantity == if state.items[j].menuItem.id == id then quantity else state.items[j].quantity) &&
      r.deliveryMethod == state.deliveryMethod && r.paymentMethod == state.paymentMethod &&
      r.deliveryAddress == state.deliveryAddress
  {
  }

  /** `UPDATE_QUANTITY` of an id no line has leaves the cart as it was. */
  lemma UpdateAbsent(state: CartState, id: int, quantity: int)
    requires forall j :: 0 <= j < |state.items| ==> state.items[j].menuItem.id != id
    ensures Reduce(state, UpdateQuantity(id, quantity)) == state
  {
    if quantity <= 0 {
      RemoveAbsent(state, id);
    } else {
      assert SetQuantity(state.items, id, quantity) == state.items;
    }
  }

  /** The three setters each change their own field and nothing else. */
  lemma SettersOnlyTheirField(state: CartState, choice: DeliveryMethod, payment: PaymentMethod, address: string)
    ensures Reduce(state, SetDeliveryMethod(choice)) == CartState(state.items, choice, state.paymentMethod, state.deliveryAddress)
    ensures Reduce(state, SetPaymentMethod(payment)) == CartState(state.items, state.deliveryMethod, payment, state.deliveryAddress)
    ensures Reduce(state, SetDeliveryAddress(address)) == CartState(state.items, state.deliveryMethod, state.paymentMethod, Some(address))
  {
  }

  /** `CLEAR_CART` forgets the whole prior state, so clearing twice is clearing once. */
  lemma ClearForgets(state: CartState, other: CartState)
    ensures Reduce(state, ClearCart) == Reduce(other, ClearCart)
    ensures Reduce(Reduce(state, ClearCart), ClearCart) == Reduce(state, ClearCart)
    ensures var r := Reduce(state, ClearCart);
      r.items == [] && r.deliveryMethod == Delivery && r.paymentMethod == Cash && r.deliveryAddress == Some("")
  {
  }

  /** Every action keeps the cart's lines unique by item and their quantities positive. */
  lemma {:induction false} ReducePreservesWellFormed(state: CartState, action: CartAction)
    requires UniqueIds(state.items) && PositiveQuantities(state.items)
    ensures UniqueIds(Reduce(state, action).items) && PositiveQuantities(Reduce(state, action).items)
  {
    var items := state.items;
    match action
    case AddItem(m) =>
      var k := Seqs.FirstIndex(items, HasId(m.id));
      if k < 0 {
        forall j | 0 <= j < |items| ensures items[j].menuItem.id != m.id {
          assert !HasId(m.id)(items[j]);
        }
      }
    case RemoveItem(id) =>
      FilterKeepsWellFormed(items, OtherId(id));
    case UpdateQuantity(id, quantity) =>
      if quantity <= 0 {
        FilterKeepsWellFormed(items, OtherId(id));
      }
    case SetDeliveryMethod(_) =>
    case SetPaymentMethod(_) =>
    case SetDeliveryAddress(_) =>
    case ClearCart =>
  }

  /** Dropping lines keeps the remaining lines unique and positive. */
  lemma {:induction false} FilterKeepsWellFormed(items: seq<CartLine>, p: CartLine -> bool)
    requires UniqueIds(items) && PositiveQuantities(items)
    ensures UniqueIds(Seqs.Filter(items, p)) && PositiveQuantities(Seqs.Filter(items, p))
  {
    if items != [] {
      var rest := items[1..];
      assert UniqueIds(rest) && PositiveQuantities(rest) by {
        assert forall j :: 0 <= j < |rest| ==> rest[j] == items[j + 1];
      }
      FilterKeepsWellFormed(rest, p);
      var fr := Seqs.Filter(rest, p);
      forall x | x in fr ensures x.menuItem.id != items[0].menuItem.id {
        Seqs.FilterMember(rest, p, x);
        var j :| 0 <= j < |rest| && rest[j] == x;
        assert items[j + 1] == x;
      }
      assert Seqs.Filter(items, p) == if p(items[0]) then [items[0]] + fr else fr;
    }
  }

  /** The item count adds up line by line over a concatenation. */
  lemma {:induction false} CartCountConcat(a: seq<CartLine>, b: seq<CartLine>)
    ensures CartCount(a + b) == CartCount(a) + CartCount(b)
    decreases |b|
  {
    if b == [] {
      assert a + b == a;
    } else {
      var b' := b[..|b| - 1];
      CartCountConcat(a, b');
      assert (a + b)[..|a + b| - 1] == a + b';
    }
  }

  /** The subtotal adds up line by line over a concatenation. */
  lemma {:induction false} SubtotalConcat(a: seq<CartLine>, b: seq<CartLine>)
    ensures Subtotal(a + b) == Subtotal(a) + Subtotal(b)
    decreases |b|
  {
    if b == [] {
      assert a + b == a;
    } else {
      var b' := b[..|b| - 1];
      SubtotalConcat(a, b');
      assert (a + b)[..|a + b| - 1] == a + b';
    }
  }

  /** Changing one line's quantity by `d` changes the item count by `d`. */
  lemma BumpCount(items: seq<CartLine>, i: int, d: int)
    requires 0 <= i < |items|
    ensures CartCount(items[i := items[i].(quantity := items[i].quantity + d)]) == CartCount(items) + d
  {
    var line := items[i].(quantity := items[i].quantity + d);
    var front, back := items[..i], items[i + 1..];
    assert items == (front + [items[i]]) + back;
    assert items[i := line] == (front + [line]) + back;
    CartCountConcat(front + [items[i]], back);
    CartCountConcat(front + [line], back);
    CartCountConcat(front, [items[i]]);
    CartCountConcat(front, [line]);
    assert [items[i]][..0] == [] && [line][..0] == [];
  }

  /** Changing one line's quantity by `d` changes the subtotal by `d` times that line's price. */
  lemma BumpSubtotal(items: seq<CartLine>, i: int, d: int)
    requires 0 <= i < |items|
    ensures Subtotal(items[i := items[i].(quantity := items[i].quantity + d)]) ==
      Subtotal(items) + d * items[i].menuItem.price
  {
    var line := items[i].(quantity := items[i].quantity + d);
    var front, back := items[..i], items[i + 1..];
    assert items == (front + [items[i]]) + back;
    assert items[i := line] == (front + [line]) + back;
    SubtotalConcat(front + [items[i]], back);
    SubtotalConcat(front + [line], back);
    SubtotalConcat(front, [items[i]]);
    SubtotalConcat(front, [line]);
    assert [items[i]][..0] == [] && [line][..0] == [];
    var price, q := items[i].menuItem.price, items[i].quantity;
    assert price * (q + d) == price * q + d * price;
  }

  /** Changing one line's quantity by `d` changes the item count by `d` and the subtotal by `d` times that line's price. */
  lemma BumpLine(items: seq<CartLine>, i: int, d: int)
    requires 0 <= i < |items|
    ensures var r := items[i := items[i].(quantity := items[i].quantity + d)];
      CartCount(r) == CartCount(items) + d &&
      Subtotal(r) == Subtotal(items) + d * items[i].menuItem.price
  {
    BumpCount(items, i, d);
    BumpSubtotal(items, i, d);
  }

  /**
   * `ADD_ITEM` adds exactly one to the item count. The subtotal grows by the price the
   * cart already holds for that item, or by the added item's price when it is new.
   */
  lemma AddItemTotals(state: CartState, m: MenuItem)
    ensures var r := Reduce(state, AddItem(m));
      CartCount(r.items) == CartCount(state.items) + 1 &&
      var k := Seqs.FirstIndex(state.items, HasId(m.id));
      Subtotal(r.items) == Subtotal(state.items) + (if k >= 0 then state.items[k].menuItem.price else m.price)
  {
    var k := Seqs.FirstIndex(state.items, HasId(m.id));
    if k >= 0 {
      BumpLine(state.items, k, 1);
    } else {
      CartCountConcat(state.items, [CartLine(m, 1)]);
      SubtotalConcat(state.items, [CartLine(m, 1)]);
      assert [CartLine(m, 1)][..0] == [];
    }
  }

  /** Free delivery from $35.00, pickup always free, so the total is never below the subtotal plus tax. */
  lemma TotalBounds(state: CartState)
    requires Subtotal(state.items) >= 0
    ensures var s := Subtotal(state.items) as real;
      s + Tax(Subtotal(state.items)) <= Total(state) <= s + Tax(Subtotal(state.items)) + DeliveryCharge as real
    ensures state.deliveryMethod == Pickup ==> Total(state) * 10000.0 == Subtotal(state.items) as real * 10825.0
  {
  }
}

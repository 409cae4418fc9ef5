/**
 * The + and - buttons of one cart line (client/src/components/CartItem.tsx). Both
 * dispatch to the cart reducer with the quantity the line shows.
 */
module CartButtons {
  import opened Cart
  import Seqs

  /** `handleIncrement`: `updateQuantity(menuItem.id, quantity + 1)`. */
  function Increment(state: CartState, line: CartLine): CartState {
    Reduce(state, UpdateQuantity(line.menuItem.id, line.quantity + 1))
  }

  /** `handleDecrement`: a line of one is removed, any other goes down by one. */
  function Decrement(state: CartState, line: CartLine): CartState {
    if line.quantity == 1 then Reduce(state, RemoveItem(line.menuItem.id))
    else Reduce(state, UpdateQuantity(line.menuItem.id, line.quantity - 1))
  }

  /** When no other line has line `i`'s item, dropping that item drops line `i` and nothing else. */
  lemma {:induction false} FilterDropsOnly(items: seq<CartLine>, i: int)
    requires 0 <= i < |items|
    requires forall j :: 0 <= j < |items| && j != i ==> items[j].menuItem.id != items[i].menuItem.id
    ensures Seqs.Filter(items, OtherId(items[i].menuItem.id)) == items[..i] + items[i + 1..]
  {
    var p := OtherId(items[i].menuItem.id);
    var rest := items[1..];
    if i == 0 {
      assert forall j :: 0 <= j < |rest| ==> p(rest[j]) by {
        forall j | 0 <= j < |rest| ensures p(rest[j]) {
          assert rest[j] == items[j + 1];
        }
      }
      Seqs.FilterAll(rest, p);
    } else {
      assert forall j :: 0 <= j < |rest| && j != i - 1 ==> rest[j].menuItem.id != rest[i - 1].menuItem.id by {
        forall j | 0 <= j < |rest| && j != i - 1 ensures rest[j].menuItem.id != rest[i - 1].menuItem.id {
          assert rest[j] == items[j + 1];
        }
      }
      FilterDropsOnly(rest, i - 1);
      assert items[..i] + items[i + 1..] == [items[0]] + (rest[..i - 1] + rest[i..]);
    }
  }

  /** + raises the clicked line by exactly one and leaves every other line and field alone. */
  lemma IncrementRaisesByOne(state: CartState, i: int)
    requires UniqueIds(state.items) && PositiveQuantities(state.items) && 0 <= i < |state.items|
    ensures var r := Increment(state, state.items[i]);
      |r.items| == |state.items| &&
      r.items[i] == state.items[i].(quantity := state.items[i].quantity + 1) &&
      (forall j :: 0 <= j < |r.items| && j != i ==> r.items[j] == state.items[j]) &&
      r.deliveryMethod == state.deliveryMethod && r.paymentMethod == state.paymentMethod &&
      r.deliveryAddress == state.deliveryAddress
  {
  }

  /** - on a line of one removes that line; the other lines stay, in order. */
  lemma DecrementOfOneRemoves(state: CartState, i: int)
    requires UniqueIds(state.items) && 0 <= i < |state.items| && state.items[i].quantity == 1
    ensures Decrement(state, state.items[i]) == state.(items := state.items[..i] + state.items[i + 1..])
  {
    assert forall j :: 0 <= j < |state.items| && j != i ==> state.items[j].menuItem.id != state.items[i].menuItem.id;
    FilterDropsOnly(state.items, i);
  }

  /** - on a line of more than one lowers it by one, to at least one, and leaves every other line alone. */
  lemma DecrementLowersByOne(state: CartState, i: int)
    requires UniqueIds(state.items) && 0 <= i < |state.items| && state.items[i].quantity > 1
    ensures var r := Decrement(state, state.items[i]);
      |r.items| == |state.items| &&
      r.items[i] == state.items[i].(quantity := state.items[i].quantity - 1) &&
      r.items[i].quantity >= 1 &&
      (forall j :: 0 <= j < |r.items| && j != i ==> r.items[j] == state.items[j]) &&
      r.deliveryMethod == state.deliveryMethod && r.paymentMethod == state.paymentMethod &&
      r.deliveryAddress == state.deliveryAddress
  {
  }

  /** Neither button can leave a line at zero or make two lines for one item. */
  lemma ButtonsKeepWellFormed(state: CartState, i: int)
    requires UniqueIds(state.items) && PositiveQuantities(state.items) && 0 <= i < |state.items|
    ensures var r := Increment(state, state.items[i]);
      UniqueIds(r.items) && PositiveQuantities(r.items)
    ensures var r := Decrement(state, state.items[i]);
      UniqueIds(r.items) && PositiveQuantities(r.items)
  {
    var line := state.items[i];
    ReducePreservesWellFormed(state, UpdateQuantity(line.menuItem.id, line.quantity + 1));
    if line.quantity == 1 {
      ReducePreservesWellFormed(state, RemoveItem(line.menuItem.id));
    } else {
      ReducePreservesWellFormed(state, UpdateQuantity(line.menuItem.id, line.quantity - 1));
    }
  }
}

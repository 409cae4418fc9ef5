/**
 * The two bottom bars: the customer bar (client/src/components/BottomNavigation.tsx)
 * and the admin bar (client/src/components/admin/AdminNavigation.tsx). Each marks an
 * item active by the same rule: the bar's home item only at exactly its own path,
 * every other item whenever the location starts with its path.
 */
module Navigation {
  import opened Wrappers
  import Text
  import Cart

  /** `isActive(navPath)` on a bar whose home item sits at `home`. */
  predicate IsActive(home: string, location: string, navPath: string) {
    (navPath == home && location == home) || (navPath != home && Text.StartsWith(location, navPath))
  }

  // ------------------------------------------------------------ customer bar

  const CustomerPaths: seq<string> := ["/", "/order", "/reservation", "/contact", "/profile"]

  /** The customer bar's rule. */
  predicate CustomerActive(location: string, navPath: string) {
    IsActive("/", location, navPath)
  }

  /** "/" is active only at exactly "/"; any other item exactly when the location starts with its path. */
  lemma CustomerActiveRule(location: string, navPath: string)
    ensures navPath == "/" ==> (CustomerActive(location, navPath) <==> location == "/")
    ensures navPath != "/" ==> (CustomerActive(location, navPath) <==> Text.StartsWith(location, navPath))
  {
  }

  /** However the location reads, at most one item of the customer bar is active. */
  lemma {:induction false} CustomerAtMostOneActive(location: string, i: int, j: int)
    requires 0 <= i < j < |CustomerPaths|
    ensures !(CustomerActive(location, CustomerPaths[i]) && CustomerActive(location, CustomerPaths[j]))
  {
    var p, q := CustomerPaths[i], CustomerPaths[j];
    if i == 0 {
      if location == "/" {
        assert !Text.StartsWith(location, q) by {
          assert |q| > 1;
        }
      }
    } else {
      assert p[1] != q[1];
      Text.PrefixesExclusive(location, p, q, 1);
    }
  }

  /** `badge: cartCount > 0 ? cartCount : null`, shown only when truthy. */
  function OrderBadge(cartCount: int): (r: Option<int>)
    ensures r.Some? <==> cartCount > 0
    ensures r.Some? ==> r.value == cartCount
  {
    if cartCount > 0 then Some(cartCount) else None
  }

  /** A cart whose lines all hold at least one item counts at least one item per line. */
  lemma {:induction false} CartCountPositive(items: seq<Cart.CartLine>)
    requires Cart.PositiveQuantities(items)
    ensures Cart.CartCount(items) >= |items|
  {
    if items != [] {
      CartCountPositive(items[..|items| - 1]);
    }
  }

  /** The Order item carries a badge exactly when the cart has a line, and it shows the number of items. */
  lemma BadgeShowsCart(items: seq<Cart.CartLine>)
    requires Cart.PositiveQuantities(items)
    ensures OrderBadge(Cart.CartCount(items)).Some? <==> items != []
    ensures items != [] ==> OrderBadge(Cart.CartCount(items)) == Some(Cart.CartCount(items))
  {
    CartCountPositive(items);
  }

  // ------------------------------------------------------------ admin bar

  const AdminPaths: seq<string> := ["/admin", "/admin/menu", "/admin/orders", "/admin/settings"]

  /** The admin bar's rule. */
  predicate AdminActive(location: string, navPath: string) {
    IsActive("/admin", location, navPath)
  }

  /** Dashboard only at exactly "/admin"; Menu, Orders and Settings whenever the location starts with their path. */
  lemma AdminActiveRule(location: string, navPath: string)
    ensures navPath == "/admin" ==> (AdminActive(location, navPath) <==> location == "/admin")
    ensures navPath != "/admin" ==> (AdminActive(location, navPath) <==> Text.StartsWith(location, navPath))
  {
  }

  /** A page under Orders lights Orders and not Dashboard. */
  lemma OrderPageLightsOrders()
    ensures AdminActive("/admin/orders/5", "/admin/orders")
    ensures !AdminActive("/admin/orders/5", "/admin")
    ensures !AdminActive("/admin/orders/5", "/admin/menu") && !AdminActive("/admin/orders/5", "/admin/settings")
  {
    assert "/admin/orders/5"[..|"/admin/orders"|] == "/admin/orders";
    assert "/admin/orders/5"[7] != "/admin/menu"[7];
    assert "/admin/orders/5"[7] != "/admin/settings"[7];
  }

  /** Wherever the location is, at most one admin item is active. */
  lemma {:induction false} AdminAtMostOneActive(location: string, i: int, j: int)
    requires 0 <= i < j < |AdminPaths|
    ensures !(AdminActive(location, AdminPaths[i]) && AdminActive(location, AdminPaths[j]))
  {
    var p, q := AdminPaths[i], AdminPaths[j];
    if i == 0 {
      if location == "/admin" {
        assert !Text.StartsWith(location, q) by {
          assert |q| > |location|;
        }
      }
    } else {
      assert p[7] != q[7];
      Text.PrefixesExclusive(location, p, q, 7);
    }
  }

  /** No admin item is active at a location outside "/admin". */
  lemma AdminInactiveElsewhere(location: string, k: int)
    requires 0 <= k < |AdminPaths| && !Text.StartsWith(location, "/admin")
    ensures !AdminActive(location, AdminPaths[k])
  {
    if k > 0 {
      var p := AdminPaths[k];
      assert p == "/admin" + p[6..];
      if Text.StartsWith(location, p) {
        Text.StartsWithLonger(location, "/admin", p[6..]);
      }
    }
  }
}

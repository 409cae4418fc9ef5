/**
 * The figures of the admin dashboard (client/src/pages/admin/Dashboard.tsx): the order
 * count, the revenue, the number of orders still open, and the three newest orders,
 * taken from a sorted copy of the fetched list.
 */
module Dashboard {
  import opened Schema
  import opened Recency
  import Seqs
  import Storage

  /** `orders.reduce((sum, order) => sum + order.total, 0)` */
  function Revenue(orders: seq<Order>): real {
    if orders == [] then 0.0 else Revenue(orders[..|orders| - 1]) + orders[|orders| - 1].total
  }

  /** The revenue of two lists one after the other is the sum of their revenues. */
  lemma {:induction false} RevenueConcat(a: seq<Order>, b: seq<Order>)
    ensures Revenue(a + b) == Revenue(a) + Revenue(b)
  {
    if b != [] {
      assert (a + b)[..|a + b| - 1] == a + b[..|b| - 1];
      RevenueConcat(a, b[..|b| - 1]);
    } else {
      assert a + b == a;
    }
  }

  /** Taking one order out of a list takes its total out of the revenue. */
  lemma RevenueWithout(b: seq<Order>, i: int)
    requires 0 <= i < |b|
    ensures Revenue(b) == Revenue(b[..i] + b[i + 1..]) + b[i].total
  {
    var front, x, back := b[..i], b[i], b[i + 1..];
    assert b == front + ([x] + back);
    assert b[..i] + b[i + 1..] == front + back;
    RevenueConcat(front, [x] + back);
    RevenueConcat([x], back);
    assert [x][..0] == [];
    RevenueConcat(front, back);
  }

  /** One listing of `x` taken out of `b` leaves the multiset of `b` less one `x`. */
  lemma MultisetWithout(b: seq<Order>, i: int)
    requires 0 <= i < |b|
    ensures multiset(b[..i] + b[i + 1..]) == multiset(b) - multiset{b[i]}
  {
    assert b == b[..i] + [b[i]] + b[i + 1..];
  }

  /** Revenue does not depend on the order the list is in. */
  lemma {:induction false} RevenuePermutation(a: seq<Order>, b: seq<Order>)
    requires multiset(a) == multiset(b)
    ensures Revenue(a) == Revenue(b)
    decreases |a|
  {
    if a != [] {
      var init, last := a[..|a| - 1], a[|a| - 1];
      assert a == init + [last];
      assert multiset(b) == multiset(init) + multiset{last};
      assert last in multiset(b);
      var i :| 0 <= i < |b| && b[i] == last;
      var rest := b[..i] + b[i + 1..];
      MultisetWithout(b, i);
      assert multiset(init) == multiset(rest);
      RevenuePermutation(init, rest);
      RevenueWithout(b, i);
    } else {
      assert b == [];
    }
  }

  /** With no negative totals, the revenue is at least the total of any one order. */
  lemma {:induction false} RevenueBounds(orders: seq<Order>, i: int)
    requires forall k :: 0 <= k < |orders| ==> orders[k].total >= 0.0
    requires 0 <= i < |orders|
    ensures Revenue(orders) >= orders[i].total >= 0.0
  {
    if i < |orders| - 1 {
      RevenueBounds(orders[..|orders| - 1], i);
      RevenueNonNegative(orders);
    } else {
      RevenueNonNegative(orders[..|orders| - 1]);
    }
  }

  lemma {:induction false} RevenueNonNegative(orders: seq<Order>)
    requires forall k :: 0 <= k < |orders| ==> orders[k].total >= 0.0
    ensures Revenue(orders) >= 0.0
  {
    if orders != [] {
      RevenueNonNegative(orders[..|orders| - 1]);
    }
  }

  /** `order.status !== "completed" && order.status !== "cancelled"` */
  function IsOpen(): Order -> bool {
    (o: Order) => Storage.IsActiveStatus(o.status)
  }

  /** The three figures at the top of the page. */
  datatype Stats = Stats(totalOrders: int, revenue: real, activeOrders: int)

  /** The dashboard's statistics over the fetched orders. */
  function ComputeStats(orders: seq<Order>): (r: Stats)
    ensures r.totalOrders == |orders|
    ensures r.revenue == Revenue(orders)
    ensures 0 <= r.activeOrders <= r.totalOrders
  {
    var open := IsOpen();
    Stats(|orders|, Revenue(orders), |Seqs.Filter(orders, open)|)
  }

  /** Open orders are counted exactly: each one that is neither completed nor cancelled, once per listing. */
  lemma ActiveOrdersCounted(orders: seq<Order>)
    ensures ComputeStats(orders).activeOrders == |Seqs.Filter(orders, IsOpen())|
    ensures ComputeStats(orders).activeOrders == ComputeStats(orders).totalOrders <==>
      forall k :: 0 <= k < |orders| ==> Storage.IsActiveStatus(orders[k].status)
  {
    var p := IsOpen();
    if forall k :: 0 <= k < |orders| ==> p(orders[k]) {
      Seqs.FilterAll(orders, p);
    } else {
      var k :| 0 <= k < |orders| && !p(orders[k]);
      Seqs.FilterMultiset(orders, p);
      Seqs.FilterMember(orders, p, orders[k]);
      assert orders[k] in multiset(orders);
      assert multiset(Seqs.Filter(orders, p))[orders[k]] == 0;
      assert multiset(Seqs.Filter(orders, p)) != multiset(orders);
      assert |multiset(Seqs.Filter(orders, p))| < |multiset(orders)| by {
        SubMultisetSmaller(multiset(Seqs.Filter(orders, p)), multiset(orders));
      }
    }
  }

  lemma SubMultisetSmaller<T>(a: multiset<T>, b: multiset<T>)
    requires a <= b && a != b
    ensures |a| < |b|
  {
    assert b == a + (b - a);
    assert b - a != multiset{};
  }

  /** The dashboard's open count is the length of the store's active-order list when it shows the whole store. */
  lemma ActiveOrdersMatchStore(store: Storage.MemStorage)
    requires store.Valid()
    ensures ComputeStats(store.GetAllOrders()).activeOrders == |store.GetActiveOrders()|
  {
    var all := store.GetAllOrders();
    var p := IsOpen();
    forall o | o in all ensures o in store.GetActiveOrders() <==> p(o) {
    }
    assert forall k :: 0 <= k < |all| ==> all[k] in all;
    Seqs.FilterCongruent(all, p, (o: Order) => Storage.IsActiveStatus(o.status));
  }

  /** `[...orders].sort(newest first).slice(0, 3)` */
  function RecentOrders(orders: seq<Order>): seq<Order> {
    var sorted := SortNewestFirst(orders);
    if |sorted| <= 3 then sorted else sorted[..3]
  }

  /** Cutting a list at `n` splits its multiset into the front's and the back's. */
  lemma SplitMultiset(s: seq<Order>, n: int)
    requires 0 <= n <= |s|
    ensures multiset(s[..n]) <= multiset(s)
    ensures multiset(s) - multiset(s[..n]) == multiset(s[n..])
  {
    assert s == s[..n] + s[n..];
  }

  /** The first `n` orders of a newest-first list are newest first too. */
  lemma PrefixNewestFirst(s: seq<Order>, n: int)
    requires NewestFirst(s) && 0 <= n <= |s|
    ensures NewestFirst(s[..n])
  {
    assert forall k :: 0 <= k < n ==> s[..n][k] == s[k];
  }

  /** In a newest-first list, nothing left out of the first `n` is newer than anything among them. */
  lemma PrefixIsNewest(s: seq<Order>, n: int)
    requires NewestFirst(s) && 0 <= n <= |s|
    ensures forall o, i :: o in multiset(s) - multiset(s[..n]) && 0 <= i < n ==> o.createdAt <= s[..n][i].createdAt
  {
    SplitMultiset(s, n);
    forall o, i | o in multiset(s[n..]) && 0 <= i < n
      ensures o.createdAt <= s[..n][i].createdAt
    {
      var l :| 0 <= l < |s[n..]| && s[n..][l] == o;
      assert s[n + l] == o && s[..n][i] == s[i];
    }
  }

  /**
   * The recent list holds min(3, n) of the fetched orders, newest first, and no order
   * left out of it is newer than any order in it.
   */
  lemma RecentAreNewest(orders: seq<Order>)
    ensures |RecentOrders(orders)| == if |orders| < 3 then |orders| else 3
    ensures NewestFirst(RecentOrders(orders))
    ensures multiset(RecentOrders(orders)) <= multiset(orders)
    ensures forall o, i :: o in multiset(orders) - multiset(RecentOrders(orders)) && 0 <= i < |RecentOrders(orders)| ==>
      o.createdAt <= RecentOrders(orders)[i].createdAt
  {
    var sorted := SortNewestFirst(orders);
    var n := if |sorted| <= 3 then |sorted| else 3;
    assert RecentOrders(orders) == sorted[..n];
    PrefixNewestFirst(sorted, n);
    SplitMultiset(sorted, n);
    PrefixIsNewest(sorted, n);
  }
}

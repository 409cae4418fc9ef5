/**
 * The admin order list (client/src/pages/admin/OrderManagement.tsx): the orders each
 * tab shows, the newest-first sort of the shown array (done in place, so on the "all"
 * tab the fetched array itself is reordered), and what an incoming order event does.
 */
module OrderManagement {
  import opened Schema
  import opened Recency
  import Seqs
  import Storage
  import OrderCard

  /** The tabs that show a selection of the orders; every other tab shows them all. */
  predicate IsSelectingTab(tab: string) {
    tab == "new" || tab == "processing" || tab == "delivery" || tab == "completed" || tab == "cancelled" || tab == "active"
  }

  /** The one status a single-status tab shows. */
  function TabStatus(tab: string): string {
    match tab
    case "new" => "pending"
    case "delivery" => "out_for_delivery"
    case _ => tab
  }

  /** The test each selecting tab's `filter` applies. */
  function TabTest(tab: string): Order -> bool {
    if tab == "active" then
      (o: Order) => o.status == "pending" || o.status == "processing" || o.status == "out_for_delivery"
    else
      (o: Order) => o.status == TabStatus(tab)
  }

  /** `getFilteredOrders`: the orders the tab shows, in fetched order. */
  function FilteredOrders(allOrders: seq<Order>, tab: string): (r: seq<Order>)
    ensures |r| <= |allOrders|
    ensures IsSelectingTab(tab) ==> forall i :: 0 <= i < |r| ==> TabTest(tab)(r[i])
    ensures !IsSelectingTab(tab) ==> r == allOrders
  {
    if IsSelectingTab(tab) then
      var p := TabTest(tab);
      Seqs.Filter(allOrders, p)
    else allOrders
  }

  /** Membership of a tab's list, whichever tab it is. */
  lemma ShownOrders(allOrders: seq<Order>, tab: string, o: Order)
    ensures tab == "new" ==> (o in FilteredOrders(allOrders, tab) <==> o in allOrders && o.status == "pending")
    ensures tab == "processing" ==> (o in FilteredOrders(allOrders, tab) <==> o in allOrders && o.status == "processing")
    ensures tab == "delivery" ==> (o in FilteredOrders(allOrders, tab) <==> o in allOrders && o.status == "out_for_delivery")
    ensures tab == "completed" ==> (o in FilteredOrders(allOrders, tab) <==> o in allOrders && o.status == "completed")
    ensures tab == "cancelled" ==> (o in FilteredOrders(allOrders, tab) <==> o in allOrders && o.status == "cancelled")
    ensures tab == "active" ==> (o in FilteredOrders(allOrders, tab) <==>
      o in allOrders && (o.status == "pending" || o.status == "processing" || o.status == "out_for_delivery"))
    ensures !IsSelectingTab(tab) ==> (o in FilteredOrders(allOrders, tab) <==> o in allOrders)
  {
    if IsSelectingTab(tab) {
      Seqs.FilterMember(allOrders, TabTest(tab), o);
    }
  }

  /** Every tab shows a part of the fetched orders, never an order twice more often than it was fetched. */
  lemma TabShowsSubMultiset(allOrders: seq<Order>, tab: string)
    ensures multiset(FilteredOrders(allOrders, tab)) <= multiset(allOrders)
  {
    if IsSelectingTab(tab) {
      Seqs.FilterMultiset(allOrders, TabTest(tab));
    }
  }

  /**
   * Over the five known statuses the "active" tab shows exactly the orders the store's
   * active query returns (neither completed nor cancelled).
   */
  lemma ActiveTabAgreesWithStore(o: Order)
    requires OrderCard.IsKnownStatus(o.status)
    ensures TabTest("active")(o) <==> Storage.IsActiveStatus(o.status)
  {
  }

  /** Off the vocabulary they part: the store counts any unknown status as active, the tab does not. */
  lemma ActiveTabDisagreesOffVocabulary(o: Order)
    requires !OrderCard.IsKnownStatus(o.status)
    ensures !TabTest("active")(o) && Storage.IsActiveStatus(o.status)
  {
  }

  /** Within `s[..hi + 1]`, every pair not involving position `j` is newest first. */
  ghost predicate SortedBut(s: seq<Order>, hi: int, j: int)
    requires hi < |s|
  {
    forall k, l :: 0 <= k < l <= hi && k != j && l != j ==> s[k].createdAt >= s[l].createdAt
  }

  /** The order at `j`, being moved forward, is newer than every order it has passed. */
  ghost predicate NewerThanPassed(s: seq<Order>, hi: int, j: int)
    requires 0 <= j <= hi < |s|
  {
    forall l :: j < l <= hi ==> s[l].createdAt < s[j].createdAt
  }

  /** Insertion starts with the sorted prefix `s[..hi]` and the new order at `hi`. */
  lemma InsertionStarts(s: seq<Order>, hi: int)
    requires 0 <= hi < |s| && NewestFirst(s[..hi])
    ensures SortedBut(s, hi, hi) && NewerThanPassed(s, hi, hi)
  {
    assert forall k :: 0 <= k < hi ==> s[..hi][k] == s[k];
  }

  /** Swapping the moving order with an older predecessor keeps the insertion invariant one step further on. */
  lemma {:induction false} InsertionSwaps(s: seq<Order>, hi: int, j: int)
    requires 0 < j <= hi < |s| && SortedBut(s, hi, j) && NewerThanPassed(s, hi, j)
    requires s[j - 1].createdAt < s[j].createdAt
    ensures var t := s[j - 1 := s[j]][j := s[j - 1]];
      SortedBut(t, hi, j - 1) && NewerThanPassed(t, hi, j - 1) && multiset(t) == multiset(s)
  {
    var t := s[j - 1 := s[j]][j := s[j - 1]];
    forall k, l | 0 <= k < l <= hi && k != j - 1 && l != j - 1
      ensures t[k].createdAt >= t[l].createdAt
    {
      if l == j {
        assert t[l] == s[j - 1];
        assert k < j - 1;
      } else if k == j {
        assert t[k] == s[j - 1] && l > j;
        assert s[l].createdAt < s[j].createdAt;
      }
    }
  }

  /** Insertion stops once the moving order is not newer than its predecessor: the prefix is sorted. */
  lemma InsertionEnds(s: seq<Order>, hi: int, j: int)
    requires 0 <= j <= hi < |s| && SortedBut(s, hi, j) && NewerThanPassed(s, hi, j)
    requires j == 0 || s[j - 1].createdAt >= s[j].createdAt
    ensures NewestFirst(s[..hi + 1])
  {
    forall k, l | 0 <= k < l <= hi ensures s[k].createdAt >= s[l].createdAt {
      if k == j || l == j {
        if l == j {
          assert s[k].createdAt >= s[j - 1].createdAt || k == j - 1;
        }
      }
    }
  }

  /**
   * `.sort((a, b) => b.createdAt - a.createdAt)` on an array: afterwards it holds the
   * same orders, newest first.
   */
  method SortInPlace(a: array<Order>)
    modifies a
    ensures NewestFirst(a[..])
    ensures multiset(a[..]) == multiset(old(a[..]))
  {
    for i := 0 to a.Length
      invariant NewestFirst(a[..i])
      invariant multiset(a[..]) == multiset(old(a[..]))
    {
      InsertAt(a, i);
    }
    assert a[..] == a[..a.Length];
  }

  /** One insertion step: the order at `i` moves forward past every older order before it. */
  method InsertAt(a: array<Order>, i: int)
    requires 0 <= i < a.Length && NewestFirst(a[..i])
    modifies a
    ensures NewestFirst(a[..i + 1])
    ensures multiset(a[..]) == multiset(old(a[..]))
  {
    InsertionStarts(a[..], i);
    var j := i;
    while j > 0 && a[j - 1].createdAt < a[j].createdAt
      invariant 0 <= j <= i
      invariant multiset(a[..]) == multiset(old(a[..]))
      invariant SortedBut(a[..], i, j) && NewerThanPassed(a[..], i, j)
    {
      InsertionSwaps(a[..], i, j);
      a[j - 1], a[j] := a[j], a[j - 1];
      j := j - 1;
    }
    InsertionEnds(a[..], i, j);
  }

  /**
   * `sortedOrders`: a selecting tab's list is a new array, sorted while the fetched one
   * stays as it was; any other tab's list is the fetched array itself, sorted in place.
   */
  method SortedOrders(allOrders: array<Order>, tab: string) returns (shown: array<Order>)
    modifies allOrders
    ensures IsSelectingTab(tab) ==> fresh(shown) && allOrders[..] == old(allOrders[..])
    ensures !IsSelectingTab(tab) ==> shown == allOrders
    ensures NewestFirst(shown[..])
    ensures multiset(shown[..]) == multiset(FilteredOrders(old(allOrders[..]), tab))
  {
    var filtered := FilteredOrders(allOrders[..], tab);
    if IsSelectingTab(tab) {
      shown := new Order[|filtered|](k requires 0 <= k < |filtered| => filtered[k]);
      assert shown[..] == filtered;
    } else {
      shown := allOrders;
    }
    SortInPlace(shown);
  }

  /** What the page does when an event arrives: refetch the list, and perhaps show a toast. */
  datatype Reaction = Reaction(refetch: bool, toast: bool)

  /** `order-created` always refetches, and announces the order unless the "active" tab is open. */
  function OnOrderCreated(activeTab: string): (r: Reaction)
    ensures r.refetch
    ensures r.toast <==> activeTab != "active"
  {
    Reaction(true, activeTab != "active")
  }

  /** `order-updated` refetches silently. */
  function OnOrderUpdated(): (r: Reaction)
    ensures r.refetch && !r.toast
  {
    Reaction(true, false)
  }
}

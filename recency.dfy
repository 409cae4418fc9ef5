/**
 * Newest-first order on orders, as both admin pages sort them with the comparator
 * `(a, b) => b.createdAt - a.createdAt`. Timestamps are integers.
 */
module Recency {
  import opened Schema

  /** No order comes before a newer one. */
  predicate NewestFirst(s: seq<Order>) {
    forall k, l :: 0 <= k < l < |s| ==> s[k].createdAt >= s[l].createdAt
  }

  /** `o` placed into a newest-first list ahead of every order that is not newer than it. */
  function Insert(o: Order, s: seq<Order>): (r: seq<Order>)
    requires NewestFirst(s)
    ensures NewestFirst(r)
    ensures multiset(r) == multiset(s) + multiset{o}
  {
    if s == [] || o.createdAt >= s[0].createdAt then
      ConsNewestFirst(o, s);
      [o] + s
    else
      TailNewestFirst(s);
      var rest := Insert(o, s[1..]);
      InsertBehindHead(o, s, rest);
      [s[0]] + rest
  }

  /** An order no older than the head of a newest-first list can go in front of it. */
  lemma ConsNewestFirst(o: Order, s: seq<Order>)
    requires NewestFirst(s) && (s == [] || o.createdAt >= s[0].createdAt)
    ensures NewestFirst([o] + s)
  {
    var r := [o] + s;
    forall k, l | 0 <= k < l < |r| ensures r[k].createdAt >= r[l].createdAt {
      if k == 0 {
        assert r[l] == s[l - 1];
      } else {
        assert r[k] == s[k - 1] && r[l] == s[l - 1];
      }
    }
  }

  /** The tail of a newest-first list is newest first. */
  lemma TailNewestFirst(s: seq<Order>)
    requires NewestFirst(s) && s != []
    ensures NewestFirst(s[1..])
  {
    assert forall k :: 0 <= k < |s| - 1 ==> s[1..][k] == s[k + 1];
  }

  /**
   * When `o` is older than the head of `s`, the head stays in front of `o` inserted into
   * the tail.
   */
  lemma InsertBehindHead(o: Order, s: seq<Order>, rest: seq<Order>)
    requires NewestFirst(s) && s != [] && o.createdAt < s[0].createdAt
    requires NewestFirst(rest) && multiset(rest) == multiset(s[1..]) + multiset{o}
    ensures NewestFirst([s[0]] + rest)
    ensures multiset([s[0]] + rest) == multiset(s) + multiset{o}
  {
    if rest != [] {
      assert rest[0] in multiset(s[1..]) + multiset{o};
      if rest[0] != o {
        assert rest[0] in s[1..];
      }
    }
    ConsNewestFirst(s[0], rest);
    assert s == [s[0]] + s[1..];
  }

  /**
   * The orders newest first. Equal timestamps keep their input order, as the stable
   * `Array.prototype.sort` keeps them.
   */
  function SortNewestFirst(s: seq<Order>): (r: seq<Order>)
    ensures NewestFirst(r)
    ensures multiset(r) == multiset(s)
    ensures |r| == |s|
  {
    if s == [] then []
    else
      assert s == [s[0]] + s[1..];
      Insert(s[0], SortNewestFirst(s[1..]))
  }
}

/**
 * A MemStorage table: a JavaScript `Map<number, T>` keyed by id, filled from an id
 * counter. `Array.from(map.values())` lists a `Map` in insertion order; here every key
 * enters the map as the current counter value, which only grows, and a `set` on a
 * key already present keeps its place, so insertion order is ascending id order.
 * `ValuesIn` lists the records in that order.
 */
module Tables {
  import Seqs

  /** Every key lies in [1, counter) and every record carries its own key as its id. */
  ghost predicate TableOk<T>(m: map<int, T>, counter: int, idOf: T -> int) {
    1 <= counter && forall k :: k in m ==> 1 <= k < counter && idOf(m[k]) == k
  }

  /** The records whose keys lie in [lo, hi), in ascending key order. */
  function ValuesIn<T>(m: map<int, T>, lo: int, hi: int): (r: seq<T>)
    ensures |r| <= if lo <= hi then hi - lo else 0
    decreases hi - lo
  {
    if hi <= lo then []
    else ValuesIn(m, lo, hi - 1) + (if hi - 1 in m then [m[hi - 1]] else [])
  }

  /** A record is listed exactly when it is stored under a key in the range. */
  lemma {:induction false} ValuesInMember<T>(m: map<int, T>, lo: int, hi: int, x: T)
    ensures x in ValuesIn(m, lo, hi) <==> exists k :: lo <= k < hi && k in m && m[k] == x
    decreases hi - lo
  {
    if lo < hi {
      ValuesInMember(m, lo, hi - 1, x);
      if x in ValuesIn(m, lo, hi) && x !in ValuesIn(m, lo, hi - 1) {
        assert hi - 1 in m && m[hi - 1] == x;
      }
      if exists k :: lo <= k < hi && k in m && m[k] == x {
        var k :| lo <= k < hi && k in m && m[k] == x;
        if k == hi - 1 {
          assert x in ValuesIn(m, lo, hi);
        }
      }
    }
  }

  /** In a well-formed table, a record is listed exactly when it is stored under its own id. */
  lemma ListedIsStored<T>(m: map<int, T>, counter: int, idOf: T -> int, x: T)
    requires TableOk(m, counter, idOf)
    ensures x in ValuesIn(m, 1, counter) <==> idOf(x) in m && m[idOf(x)] == x
  {
    ValuesInMember(m, 1, counter, x);
    if idOf(x) in m && m[idOf(x)] == x {
      assert 1 <= idOf(x) < counter;
    }
  }

  /** Every record at the end of a well-formed table's listing is stored under its own id. */
  lemma ListedTailStored<T>(m: map<int, T>, counter: int, idOf: T -> int, front: seq<T>, tail: seq<T>)
    requires TableOk(m, counter, idOf) && ValuesIn(m, 1, counter) == front + tail
    ensures forall x :: x in tail ==> idOf(x) in m && m[idOf(x)] == x
  {
    forall x | x in tail
      ensures idOf(x) in m && m[idOf(x)] == x
    {
      ListedIsStored(m, counter, idOf, x);
    }
  }

  /** Ids of `r` all lie in [lo, hi) and strictly increase along `r`. */
  ghost predicate IdsAscend<T>(r: seq<T>, idOf: T -> int, lo: int, hi: int) {
    (forall i :: 0 <= i < |r| ==> lo <= idOf(r[i]) < hi) &&
    (forall i, j :: 0 <= i < j < |r| ==> idOf(r[i]) < idOf(r[j]))
  }

  /** The listed records have strictly increasing ids, all inside the range. */
  lemma {:induction false} ValuesInAscending<T>(m: map<int, T>, counter: int, idOf: T -> int, lo: int, hi: int)
    requires TableOk(m, counter, idOf)
    ensures IdsAscend(ValuesIn(m, lo, hi), idOf, lo, hi)
    decreases hi - lo
  {
    if lo < hi {
      ValuesInAscending(m, counter, idOf, lo, hi - 1);
      var front := ValuesIn(m, lo, hi - 1);
      if hi - 1 in m {
        var r := front + [m[hi - 1]];
        assert ValuesIn(m, lo, hi) == r;
        assert forall i :: 0 <= i < |front| ==> r[i] == front[i];
        assert idOf(r[|front|]) == hi - 1;
      } else {
        assert ValuesIn(m, lo, hi) == front;
      }
    }
  }

  /** Two maps that agree on [lo, hi) list the same records there. */
  lemma {:induction false} ValuesInAgree<T>(m: map<int, T>, n: map<int, T>, lo: int, hi: int)
    requires forall k :: lo <= k < hi ==> (k in m <==> k in n)
    requires forall k :: lo <= k < hi && k in m ==> m[k] == n[k]
    ensures ValuesIn(m, lo, hi) == ValuesIn(n, lo, hi)
    decreases hi - lo
  {
    if lo < hi {
      ValuesInAgree(m, n, lo, hi - 1);
    }
  }

  /** A create: the counter is a fresh key, the new record is listed last, and the table stays well formed under the next counter. */
  lemma TableInsert<T>(m: map<int, T>, counter: int, idOf: T -> int, v: T)
    requires TableOk(m, counter, idOf) && idOf(v) == counter
    ensures counter !in m
    ensures TableOk(m[counter := v], counter + 1, idOf)
    ensures ValuesIn(m[counter := v], 1, counter + 1) == ValuesIn(m, 1, counter) + [v]
  {
    ValuesInAgree(m[counter := v], m, 1, counter);
  }

  /** `s.map(x => x.id === k ? v : x)`: the record with id `k` replaced by `v` where it stands. */
  function ReplaceId<T>(s: seq<T>, idOf: T -> int, k: int, v: T): (r: seq<T>)
    ensures |r| == |s|
  {
    seq(|s|, i requires 0 <= i < |s| => if idOf(s[i]) == k then v else s[i])
  }

  /** `s.filter(x => x.id !== k)`, taken from the back so that it follows `ValuesIn`. */
  function WithoutId<T>(s: seq<T>, idOf: T -> int, k: int): (r: seq<T>)
    ensures |r| <= |s|
  {
    if s == [] then []
    else WithoutId(s[..|s| - 1], idOf, k) + (if idOf(s[|s| - 1]) == k then [] else [s[|s| - 1]])
  }

  /** What `WithoutId` keeps: every element whose id is not `k`, and nothing else. */
  lemma {:induction false} WithoutIdMember<T>(s: seq<T>, idOf: T -> int, k: int, x: T)
    ensures x in WithoutId(s, idOf, k) <==> x in s && idOf(x) != k
  {
    if s != [] {
      var front := s[..|s| - 1];
      WithoutIdMember(front, idOf, k, x);
      assert s == front + [s[|s| - 1]];
    }
  }

  /** An update of a present key keeps the table well formed and replaces that record where it stands. */
  lemma {:induction false} TableReplace<T>(m: map<int, T>, counter: int, idOf: T -> int, k: int, v: T, lo: int, hi: int)
    requires TableOk(m, counter, idOf) && k in m && idOf(v) == k
    ensures TableOk(m[k := v], counter, idOf)
    ensures ValuesIn(m[k := v], lo, hi) == ReplaceId(ValuesIn(m, lo, hi), idOf, k, v)
    decreases hi - lo
  {
    if lo < hi {
      TableReplace(m, counter, idOf, k, v, lo, hi - 1);
    }
  }

  /** A delete keeps the table well formed. */
  lemma TableRemoveOk<T>(m: map<int, T>, counter: int, idOf: T -> int, k: int)
    requires TableOk(m, counter, idOf)
    ensures TableOk(m - {k}, counter, idOf)
  {
  }

  /** A delete drops exactly the record with id `k`; the rest keep their order. */
  lemma {:induction false} TableRemove<T>(m: map<int, T>, counter: int, idOf: T -> int, k: int, lo: int, hi: int)
    requires TableOk(m, counter, idOf)
    ensures ValuesIn(m - {k}, lo, hi) == WithoutId(ValuesIn(m, lo, hi), idOf, k)
    decreases hi - lo
  {
    if lo < hi {
      TableRemove(m, counter, idOf, k, lo, hi - 1);
      var front := ValuesIn(m, lo, hi - 1);
      if hi - 1 in m {
        var r := front + [m[hi - 1]];
        assert ValuesIn(m, lo, hi) == r && r[..|r| - 1] == front;
      } else {
        assert ValuesIn(m, lo, hi) == front;
      }
    }
  }
}

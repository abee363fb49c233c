/** Python's `sorted(s, key=key, reverse=True)`: a stable sort into descending key order.
    Keys are compared with a strict total order `lt`; Python compares integers
    numerically and tuples and strings lexicographically. */
module Sorting {

  ghost predicate StrictTotalOrder<K(!new)>(lt: (K, K) -> bool) {
    (forall a :: !lt(a, a)) &&
    (forall a, b, c :: lt(a, b) && lt(b, c) ==> lt(a, c)) &&
    (forall a, b :: a == b || lt(a, b) || lt(b, a))
  }

  /** No element has a strictly greater key than an element before it. */
  ghost predicate SortedDesc<T, K>(r: seq<T>, key: T -> K, lt: (K, K) -> bool) {
    forall i, j :: 0 <= i < j < |r| ==> !lt(key(r[i]), key(r[j]))
  }

  /** The elements of `s` whose key is `k`, in their order in `s`. */
  ghost function WithKey<T, K>(s: seq<T>, key: T -> K, k: K): seq<T> {
    if s == [] then [] else (if key(s[0]) == k then [s[0]] else []) + WithKey(s[1..], key, k)
  }

  /** Puts `x` in front of the first element whose key is not greater than its own. */
  function Insert<T, K>(x: T, r: seq<T>, key: T -> K, lt: (K, K) -> bool): (s: seq<T>)
    ensures |s| == |r| + 1 && multiset(s) == multiset(r) + multiset{x}
  {
    if r == [] || !lt(key(x), key(r[0])) then [x] + r
    else assert r == [r[0]] + r[1..]; [r[0]] + Insert(x, r[1..], key, lt)
  }

  function SortDesc<T, K>(s: seq<T>, key: T -> K, lt: (K, K) -> bool): (r: seq<T>)
    ensures |r| == |s| && multiset(r) == multiset(s)
  {
    if s == [] then []
    else assert s == [s[0]] + s[1..]; Insert(s[0], SortDesc(s[1..], key, lt), key, lt)
  }

  lemma {:induction false} InsertSorted<T, K(!new)>(x: T, r: seq<T>, key: T -> K, lt: (K, K) -> bool)
    requires StrictTotalOrder(lt) && SortedDesc(r, key, lt)
    ensures SortedDesc(Insert(x, r, key, lt), key, lt)
  {
    var s := Insert(x, r, key, lt);
    if r == [] || !lt(key(x), key(r[0])) {
      forall j | 0 < j < |s|
        ensures !lt(key(x), key(s[j]))
      {
        assert s[j] == r[j - 1];
        if j > 1 {
          assert !lt(key(r[0]), key(r[j - 1]));
        }
      }
    } else {
      var tail := Insert(x, r[1..], key, lt);
      assert SortedDesc(r[1..], key, lt) by {
        forall i, j | 0 <= i < j < |r[1..]|
          ensures !lt(key(r[1..][i]), key(r[1..][j]))
        {
          assert r[1..][i] == r[i + 1] && r[1..][j] == r[j + 1];
        }
      }
      InsertSorted(x, r[1..], key, lt);
      forall j | 0 <= j < |tail|
        ensures !lt(key(r[0]), key(tail[j]))
      {
        assert tail[j] in multiset(tail);
        if tail[j] != x {
          assert tail[j] in multiset(r[1..]);
          var m :| 0 <= m < |r[1..]| && r[1..][m] == tail[j];
          assert r[1..][m] == r[m + 1];
        }
      }
      assert s == [r[0]] + tail;
    }
  }

  /** The result is in descending key order. */
  lemma {:induction false} SortDescSorted<T, K(!new)>(s: seq<T>, key: T -> K, lt: (K, K) -> bool)
    requires StrictTotalOrder(lt)
    ensures SortedDesc(SortDesc(s, key, lt), key, lt)
  {
    if s != [] {
      SortDescSorted(s[1..], key, lt);
      InsertSorted(s[0], SortDesc(s[1..], key, lt), key, lt);
    }
  }

  lemma {:induction false} InsertWithKey<T, K(!new)>(x: T, r: seq<T>, key: T -> K, lt: (K, K) -> bool, k: K)
    requires forall a :: !lt(a, a)
    ensures WithKey(Insert(x, r, key, lt), key, k)
         == (if key(x) == k then [x] else []) + WithKey(r, key, k)
  {
    var s := Insert(x, r, key, lt);
    if r == [] || !lt(key(x), key(r[0])) {
      assert s == [x] + r;
      WithKeyCons(x, r, key, k);
    } else {
      var t := Insert(x, r[1..], key, lt);
      assert s == [r[0]] + t;
      assert r == [r[0]] + r[1..];
      assert key(r[0]) != key(x);
      InsertWithKey(x, r[1..], key, lt, k);
      WithKeyCons(r[0], t, key, k);
      WithKeyCons(r[0], r[1..], key, k);
    }
  }

  lemma WithKeyCons<T, K>(x: T, t: seq<T>, key: T -> K, k: K)
    ensures WithKey([x] + t, key, k) == (if key(x) == k then [x] else []) + WithKey(t, key, k)
  {
    assert ([x] + t)[1..] == t;
  }

  /** Stability: elements with equal keys keep their relative order. */
  lemma {:induction false} SortDescStable<T, K(!new)>(s: seq<T>, key: T -> K, lt: (K, K) -> bool, k: K)
    requires forall a :: !lt(a, a)
    ensures WithKey(SortDesc(s, key, lt), key, k) == WithKey(s, key, k)
  {
    if s != [] {
      SortDescStable(s[1..], key, lt, k);
      InsertWithKey(s[0], SortDesc(s[1..], key, lt), key, lt, k);
    }
  }
}

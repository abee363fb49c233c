/** The optional value used for regex searches and missing dictionary keys. */
module Options {
  datatype Option<+T> = None | Some(value: T)
}

/** Python dictionaries and `collections.Counter`s as association lists: keys in
    first-insertion order (the order Python iterates them), each with its value. */
module Tables {
  import opened Options
  import opened Sorting

  function Keys<V>(d: seq<(string, V)>): seq<string> {
    seq(|d|, i requires 0 <= i < |d| => d[i].0)
  }

  predicate Distinct(s: seq<string>) {
    forall i, j :: 0 <= i < j < |s| ==> s[i] != s[j]
  }

  predicate DistinctKeys<V>(d: seq<(string, V)>) {
    Distinct(Keys(d))
  }

  /** `d.get(k)`: the value stored under `k`, if any. */
  function Get<V>(d: seq<(string, V)>, k: string): (r: Option<V>)
    ensures r.None? <==> k !in Keys(d)
  {
    if d == [] then None
    else
      assert Keys(d) == [d[0].0] + Keys(d[1..]);
      if d[0].0 == k then Some(d[0].1) else Get(d[1..], k)
  }

  /** `d[k] = v`: replaces the value in place when `k` is present, appends otherwise. */
  function Put<V>(d: seq<(string, V)>, k: string, v: V): (r: seq<(string, V)>)
    ensures Get(r, k) == Some(v)
    ensures forall j :: j != k ==> Get(r, j) == Get(d, j)
  {
    if d == [] then [(k, v)]
    else if d[0].0 == k then [(k, v)] + d[1..]
    else [d[0]] + Put(d[1..], k, v)
  }

  /** `d[k] = v` keeps the key order: an existing key stays where it is, a new key
      goes last. */
  lemma {:induction false} PutKeys<V>(d: seq<(string, V)>, k: string, v: V)
    ensures k in Keys(d) ==> Keys(Put(d, k, v)) == Keys(d)
    ensures k !in Keys(d) ==> Keys(Put(d, k, v)) == Keys(d) + [k]
  {
    if d != [] {
      var rest := d[1..];
      assert d == [d[0]] + rest;
      KeysCons(d[0], rest);
      if d[0].0 == k {
        assert Put(d, k, v) == [(k, v)] + rest;
        KeysCons((k, v), rest);
      } else {
        var t := Put(rest, k, v);
        assert Put(d, k, v) == [d[0]] + t;
        PutKeys(rest, k, v);
        KeysCons(d[0], t);
        assert k in Keys(d) <==> k in Keys(rest);
      }
    }
  }

  lemma KeysCons<V>(x: (string, V), t: seq<(string, V)>)
    ensures Keys([x] + t) == [x.0] + Keys(t)
  {
  }

  lemma PutDistinct<V>(d: seq<(string, V)>, k: string, v: V)
    requires DistinctKeys(d)
    ensures DistinctKeys(Put(d, k, v))
  {
    PutKeys(d, k, v);
  }

  /** With distinct keys, looking up an entry's key finds that entry. */
  lemma {:induction false} GetAt<V>(d: seq<(string, V)>, i: nat)
    requires DistinctKeys(d) && i < |d|
    ensures Get(d, d[i].0) == Some(d[i].1)
  {
    if i > 0 {
      assert Keys(d)[0] != Keys(d)[i];
      assert DistinctKeys(d[1..]) by {
        forall a, b | 0 <= a < b < |d[1..]| ensures Keys(d[1..])[a] != Keys(d[1..])[b] {
          assert Keys(d[1..])[a] == Keys(d)[a + 1] && Keys(d[1..])[b] == Keys(d)[b + 1];
        }
      }
      GetAt(d[1..], i - 1);
    }
  }

  /** A `Counter` (or `defaultdict(int)`): counts per key. */
  type Counter = seq<(string, nat)>

  /** `c[k]`: the count recorded for `k`, 0 when absent. */
  function Count(c: Counter, k: string): nat {
    if c == [] then 0 else (if c[0].0 == k then c[0].1 else 0) + Count(c[1..], k)
  }

  predicate Positive(c: Counter) {
    forall i :: 0 <= i < |c| ==> c[i].1 >= 1
  }

  lemma {:induction false} CountAppend(a: Counter, b: Counter, k: string)
    ensures Count(a + b, k) == Count(a, k) + Count(b, k)
  {
    if a == [] {
      assert a + b == b;
    } else {
      assert (a + b)[0] == a[0] && (a + b)[1..] == a[1..] + b;
      CountAppend(a[1..], b, k);
    }
  }

  /** In a counter whose keys are distinct and whose counts are positive (every
      dictionary built by `+= 1` is), an entry `(k, n)` is exactly `c[k] == n` with `n >= 1`. */
  lemma {:induction false} CounterEntry(c: Counter, k: string, n: nat)
    requires DistinctKeys(c) && Positive(c)
    ensures (k, n) in c <==> n >= 1 && Count(c, k) == n
  {
    if c != [] {
      assert DistinctKeys(c[1..]) && Positive(c[1..]) by {
        forall i, j | 0 <= i < j < |c[1..]| ensures Keys(c[1..])[i] != Keys(c[1..])[j] {
          assert Keys(c[1..])[i] == Keys(c)[i + 1] && Keys(c[1..])[j] == Keys(c)[j + 1];
        }
      }
      CounterEntry(c[1..], k, n);
      if c[0].0 == k {
        forall i | 0 <= i < |c[1..]| ensures c[1..][i].0 != k {
          assert c[1..][i].0 == Keys(c)[i + 1] && Keys(c)[0] == k;
        }
        CountAbsent(c[1..], k);
      }
      assert c == [c[0]] + c[1..];
    }
  }

  lemma {:induction false} CountAbsent(c: Counter, k: string)
    requires forall i :: 0 <= i < |c| ==> c[i].0 != k
    ensures Count(c, k) == 0
  {
    if c != [] {
      CountAbsent(c[1..], k);
    }
  }

  /** `c[k] += n`. */
  function Add(c: Counter, k: string, n: nat): (r: Counter)
    ensures forall j :: Count(r, j) == Count(c, j) + (if j == k then n else 0)
    ensures Positive(c) && n >= 1 ==> Positive(r)
  {
    if c == [] then [(k, n)]
    else if c[0].0 == k then [(k, c[0].1 + n)] + c[1..]
    else
      var t := Add(c[1..], k, n);
      assert ([c[0]] + t)[1..] == t;
      [c[0]] + t
  }

  /** `c[k] += n` keeps the key order: an existing key stays where it is, a new key
      goes last. */
  lemma {:induction false} AddKeys(c: Counter, k: string, n: nat)
    ensures k in Keys(c) ==> Keys(Add(c, k, n)) == Keys(c)
    ensures k !in Keys(c) ==> Keys(Add(c, k, n)) == Keys(c) + [k]
  {
    if c != [] {
      var rest := c[1..];
      assert c == [c[0]] + rest;
      KeysCons(c[0], rest);
      if c[0].0 == k {
        assert Add(c, k, n) == [(k, c[0].1 + n)] + rest;
        KeysCons((k, c[0].1 + n), rest);
      } else {
        var t := Add(rest, k, n);
        assert Add(c, k, n) == [c[0]] + t;
        AddKeys(rest, k, n);
        KeysCons(c[0], t);
        assert k in Keys(c) <==> k in Keys(rest);
      }
    }
  }

  lemma AddDistinct(c: Counter, k: string, n: nat)
    requires DistinctKeys(c)
    ensures DistinctKeys(Add(c, k, n))
  {
    AddKeys(c, k, n);
  }

  /** `c.update(xs)` for a list `xs`: one more for each occurrence;
      `Counter(xs)` is `Tally([], xs)`. */
  function Tally(c: Counter, xs: seq<string>): (r: Counter)
    ensures DistinctKeys(c) ==> DistinctKeys(r)
    ensures Positive(c) ==> Positive(r)
  {
    if xs == [] then c
    else
      var prev := Tally(c, xs[..|xs| - 1]);
      if DistinctKeys(prev) then AddDistinct(prev, xs[|xs| - 1], 1); Add(prev, xs[|xs| - 1], 1)
      else Add(prev, xs[|xs| - 1], 1)
  }

  /** A tally counts occurrences: `Counter(xs)[k] == xs.count(k)`. */
  lemma {:induction false} TallyCounts(c: Counter, xs: seq<string>, k: string)
    ensures Count(Tally(c, xs), k) == Count(c, k) + multiset(xs)[k]
  {
    if xs != [] {
      var init := xs[..|xs| - 1];
      assert xs == init + [xs[|xs| - 1]];
      TallyCounts(c, init, k);
    }
  }

  /** A key is tallied exactly when it was already there or occurs in `xs`. */
  lemma {:induction false} TallyKeys(c: Counter, xs: seq<string>, k: string)
    ensures k in Keys(Tally(c, xs)) <==> k in Keys(c) || k in xs
  {
    if xs != [] {
      var init := xs[..|xs| - 1];
      assert xs == init + [xs[|xs| - 1]];
      TallyKeys(c, init, k);
      AddKeys(Tally(c, init), xs[|xs| - 1], 1);
    }
  }

  lemma {:induction false} TallyAppend(c: Counter, xs: seq<string>, ys: seq<string>)
    ensures Tally(c, xs + ys) == Tally(Tally(c, xs), ys)
  {
    if ys != [] {
      var init := ys[..|ys| - 1];
      assert xs + ys == (xs + init) + [ys[|ys| - 1]];
      assert (xs + ys)[..|xs + ys| - 1] == xs + init;
      TallyAppend(c, xs, init);
    } else {
      assert xs + ys == xs;
    }
  }

  /** `c.update(d)` for another counter `d`: adds each of its counts. */
  function Update(c: Counter, d: Counter): (r: Counter)
    ensures DistinctKeys(c) ==> DistinctKeys(r)
    ensures Positive(c) && Positive(d) ==> Positive(r)
  {
    if d == [] then c
    else
      assert Positive(d) ==> Positive(d[..|d| - 1]);
      var prev := Update(c, d[..|d| - 1]);
      if DistinctKeys(prev) then AddDistinct(prev, d[|d| - 1].0, d[|d| - 1].1); Add(prev, d[|d| - 1].0, d[|d| - 1].1)
      else Add(prev, d[|d| - 1].0, d[|d| - 1].1)
  }

  /** Updating adds the counts key by key. */
  lemma {:induction false} UpdateCounts(c: Counter, d: Counter, k: string)
    ensures Count(Update(c, d), k) == Count(c, k) + Count(d, k)
  {
    if d != [] {
      var init := d[..|d| - 1];
      assert d == init + [d[|d| - 1]];
      CountAppend(init, [d[|d| - 1]], k);
      UpdateCounts(c, init, k);
    }
  }

  function ByCount(e: (string, nat)): nat { e.1 }

  function Below(a: nat, b: nat): bool { a < b }

  lemma BelowIsStrictTotalOrder()
    ensures StrictTotalOrder(Below)
  {
  }

  /** The entries of `c` sorted by count, descending, ties in insertion order. */
  function ByCountDesc(c: Counter): seq<(string, nat)> {
    SortDesc(c, ByCount, Below)
  }

  /** `c.most_common(n)`. */
  function MostCommon(c: Counter, n: nat): seq<(string, nat)> {
    var s := ByCountDesc(c);
    if |s| <= n then s else s[..n]
  }

  /** `most_common(n)` keeps the `n` largest counts: at most `n` entries (all of them
      when there are fewer), every one from `c`, counts non-increasing, every entry
      left out no larger than any entry kept, and equal counts in insertion order. */
  lemma MostCommonSpec(c: Counter, n: nat)
    ensures |MostCommon(c, n)| == if |c| <= n then |c| else n
    ensures multiset(MostCommon(c, n)) <= multiset(c)
    ensures forall i, j :: 0 <= i < j < |MostCommon(c, n)| ==> MostCommon(c, n)[i].1 >= MostCommon(c, n)[j].1
    ensures forall i, j :: 0 <= i < |MostCommon(c, n)| <= j < |c| ==> ByCountDesc(c)[j].1 <= MostCommon(c, n)[i].1
    ensures MostCommon(c, n) <= ByCountDesc(c)
    ensures forall v :: WithKey(ByCountDesc(c), ByCount, v) == WithKey(c, ByCount, v)
  {
    var s := ByCountDesc(c);
    BelowIsStrictTotalOrder();
    SortDescSorted(c, ByCount, Below);
    forall v ensures WithKey(s, ByCount, v) == WithKey(c, ByCount, v) {
      SortDescStable(c, ByCount, Below, v);
    }
    var r := MostCommon(c, n);
    assert s == r + s[|r|..];
    assert multiset(s) == multiset(r) + multiset(s[|r|..]);
    forall i, j | 0 <= i < |r| <= j < |c|
      ensures s[j].1 <= r[i].1
    {
      assert !Below(ByCount(s[i]), ByCount(s[j]));
    }
    forall i, j | 0 <= i < j < |r|
      ensures r[i].1 >= r[j].1
    {
      assert !Below(ByCount(s[i]), ByCount(s[j]));
    }
  }
}

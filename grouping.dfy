/**
  Group-by aggregation and ordering, as the analyses use them: the distinct
  non-missing keys of a column (groups with a missing key are dropped), the
  per-key sums and counts of a value column, sorting of summary rows by a
  value in descending order, and the top-k prefix sums of a sorted column.
 */
module Grouping {
  import opened Table

  /** The distinct non-missing keys of a key column, in order of first appearance. */
  function GroupKeys(keys: seq<Cell>): (ks: seq<Cell>)
    ensures forall k :: k in ks <==> k != Null && k in keys
    ensures forall i, j :: 0 <= i < j < |ks| ==> ks[i] != ks[j]
  {
    if keys == [] then []
    else
      var n := |keys| - 1;
      assert keys == keys[..n] + [keys[n]];
      var prev := GroupKeys(keys[..n]);
      if keys[n] == Null || keys[n] in prev then prev else prev + [keys[n]]
  }

  /** The mask of the rows whose key is not missing (the rows that reach a group). */
  function KeyedMask(keys: seq<Cell>): seq<bool> {
    seq(|keys|, i requires 0 <= i < |keys| => keys[i] != Null)
  }

  /** Sum of `vals` over the rows of group `k`; 0 for a key that does not occur. */
  function GroupSum(keys: seq<Cell>, vals: seq<real>, k: Cell): (s: real)
    requires |keys| == |vals|
    ensures k !in keys ==> s == 0.0
  {
    CountZeroOfKey(keys, k);
    Sum(Select(vals, EqualsMask(keys, k)))
  }

  /** Number of rows of group `k`: 0 exactly for a key that does not occur. */
  function GroupCount(keys: seq<Cell>, k: Cell): (n: nat)
    ensures n == 0 <==> k !in keys
  {
    CountZeroOfKey(keys, k);
    Count(EqualsMask(keys, k))
  }

  lemma {:induction false} CountZeroOfKey(keys: seq<Cell>, k: Cell)
    ensures Count(EqualsMask(keys, k)) == 0 <==> k !in keys
  {
    var m := EqualsMask(keys, k);
    CountZeroIff(m);
    if k in keys {
      var i :| 0 <= i < |keys| && keys[i] == k;
      assert m[i];
    }
  }

  /** A mask counts no row exactly when none of its entries is true. */
  lemma {:induction false} CountZeroIff(m: seq<bool>)
    ensures Count(m) == 0 <==> forall i :: 0 <= i < |m| ==> !m[i]
  {
    if m != [] {
      CountZeroIff(m[..|m| - 1]);
    }
  }

  /** Total of the group sums of the keys `ks`. */
  function SumOverKeys(ks: seq<Cell>, keys: seq<Cell>, vals: seq<real>): real
    requires |keys| == |vals|
  {
    if ks == [] then 0.0 else GroupSum(keys, vals, ks[0]) + SumOverKeys(ks[1..], keys, vals)
  }

  lemma {:induction false} CountPositive(m: seq<bool>, i: int)
    requires 0 <= i < |m| && m[i]
    ensures Count(m) >= 1
  {
    if i < |m| - 1 {
      CountPositive(m[..|m| - 1], i);
    }
  }

  /** Every group that is reported has at least one row. */
  lemma {:induction false} GroupCountPositive(keys: seq<Cell>, k: Cell)
    requires k in GroupKeys(keys)
    ensures GroupCount(keys, k) >= 1
  {
    var i :| 0 <= i < |keys| && keys[i] == k;
    CountPositive(EqualsMask(keys, k), i);
  }

  lemma {:induction false} CountNone(m: seq<bool>)
    requires forall i :: 0 <= i < |m| ==> !m[i]
    ensures Count(m) == 0
  {
    if m != [] {
      CountNone(m[..|m| - 1]);
    }
  }

  lemma {:induction false} GroupSumAbsent(keys: seq<Cell>, vals: seq<real>, k: Cell)
    requires |keys| == |vals| && k !in keys
    ensures GroupSum(keys, vals, k) == 0.0
  {
    CountNone(EqualsMask(keys, k));
  }

  /** Adding one row adds its value to its own group only. */
  lemma {:induction false} GroupSumSnoc(keys: seq<Cell>, vals: seq<real>, k: Cell)
    requires |keys| == |vals| > 0
    ensures var n := |keys| - 1;
            GroupSum(keys, vals, k) == GroupSum(keys[..n], vals[..n], k) + (if keys[n] == k then vals[n] else 0.0)
  {
    var n := |keys| - 1;
    assert EqualsMask(keys, k)[..n] == EqualsMask(keys[..n], k);
    SumSelectSnoc(vals, EqualsMask(keys, k));
  }

  lemma {:induction false} SumOverKeysSnoc(ks: seq<Cell>, keys: seq<Cell>, vals: seq<real>)
    requires |keys| == |vals| > 0
    requires forall i, j :: 0 <= i < j < |ks| ==> ks[i] != ks[j]
    ensures var n := |keys| - 1;
            SumOverKeys(ks, keys, vals) == SumOverKeys(ks, keys[..n], vals[..n]) + (if keys[n] in ks then vals[n] else 0.0)
  {
    if ks != [] {
      var n := |keys| - 1;
      GroupSumSnoc(keys, vals, ks[0]);
      SumOverKeysSnoc(ks[1..], keys, vals);
      assert ks == [ks[0]] + ks[1..];
      if ks[0] == keys[n] {
        assert keys[n] !in ks[1..];
      }
    }
  }

  lemma {:induction false} SumOverKeysAppend(ks: seq<Cell>, k: Cell, keys: seq<Cell>, vals: seq<real>)
    requires |keys| == |vals|
    ensures SumOverKeys(ks + [k], keys, vals) == SumOverKeys(ks, keys, vals) + GroupSum(keys, vals, k)
  {
    if ks != [] {
      assert (ks + [k])[1..] == ks[1..] + [k];
      SumOverKeysAppend(ks[1..], k, keys, vals);
    } else {
      assert ([] + [k])[1..] == [];
    }
  }

  /** Grouping loses and duplicates nothing: the group sums add up to the
      sum over all rows whose key is not missing. */
  lemma {:induction false} GroupTotalsConserved(keys: seq<Cell>, vals: seq<real>)
    requires |keys| == |vals|
    ensures SumOverKeys(GroupKeys(keys), keys, vals) == Sum(Select(vals, KeyedMask(keys)))
  {
    if keys != [] {
      var n := |keys| - 1;
      var prev := GroupKeys(keys[..n]);
      var before := Sum(Select(vals[..n], KeyedMask(keys[..n])));
      assert SumOverKeys(prev, keys[..n], vals[..n]) == before by {
        GroupTotalsConserved(keys[..n], vals[..n]);
      }
      assert Sum(Select(vals, KeyedMask(keys))) == before + (if keys[n] != Null then vals[n] else 0.0) by {
        assert KeyedMask(keys)[..n] == KeyedMask(keys[..n]);
        SumSelectSnoc(vals, KeyedMask(keys));
      }
      assert SumOverKeys(prev, keys, vals) == before + (if keys[n] in prev then vals[n] else 0.0) by {
        SumOverKeysSnoc(prev, keys, vals);
      }
      if !(keys[n] == Null || keys[n] in prev) {
        assert GroupKeys(keys) == prev + [keys[n]];
        SumOverKeysAppend(prev, keys[n], keys, vals);
        assert GroupSum(keys, vals, keys[n]) == vals[n] by {
          GroupSumSnoc(keys, vals, keys[n]);
          assert keys[n] !in keys[..n];
          GroupSumAbsent(keys[..n], vals[..n], keys[n]);
        }
      }
    }
  }

  /** The scores of `xs` never increase from left to right. */
  ghost predicate SortedBy<T>(xs: seq<T>, score: T -> real) {
    forall i, j :: 0 <= i < j < |xs| ==> score(xs[i]) >= score(xs[j])
  }

  function Insert<T(==)>(x: T, xs: seq<T>, score: T -> real): (r: seq<T>)
    ensures multiset(r) == multiset(xs) + multiset{x}
  {
    if xs == [] || score(x) >= score(xs[0]) then [x] + xs
    else
      assert xs == [xs[0]] + xs[1..];
      [xs[0]] + Insert(x, xs[1..], score)
  }

  lemma {:induction false} InsertSorted<T>(x: T, xs: seq<T>, score: T -> real)
    requires SortedBy(xs, score)
    ensures SortedBy(Insert(x, xs, score), score)
  {
    if !(xs == [] || score(x) >= score(xs[0])) {
      var rest := Insert(x, xs[1..], score);
      InsertSorted(x, xs[1..], score);
      forall j | 0 <= j < |rest|
        ensures score(rest[j]) <= score(xs[0])
      {
        assert rest[j] in multiset(rest);
        if rest[j] != x {
          assert rest[j] in multiset(xs[1..]);
          var t :| 0 <= t < |xs[1..]| && xs[1..][t] == rest[j];
          assert xs[1 + t] == rest[j];
        }
      }
      var r := [xs[0]] + rest;
      forall i, j | 0 <= i < j < |r|
        ensures score(r[i]) >= score(r[j])
      {
        if i > 0 {
          assert r[i] == rest[i - 1] && r[j] == rest[j - 1];
        } else {
          assert r[j] == rest[j - 1];
        }
      }
    }
  }

  /** Rows ordered by `score`, largest first: a sorted permutation of the input. */
  function SortDescending<T(==)>(xs: seq<T>, score: T -> real): (r: seq<T>)
    ensures multiset(r) == multiset(xs)
    ensures SortedBy(r, score)
  {
    if xs == [] then []
    else
      assert xs == [xs[0]] + xs[1..];
      var rest := SortDescending(xs[1..], score);
      InsertSorted(xs[0], rest, score);
      Insert(xs[0], rest, score)
  }

  /** Sum of `g` over a sequence of rows. */
  function SumBy<T>(xs: seq<T>, g: T -> real): real {
    if xs == [] then 0.0 else g(xs[0]) + SumBy(xs[1..], g)
  }

  lemma {:induction false} SumByAppend<T>(a: seq<T>, b: seq<T>, g: T -> real)
    ensures SumBy(a + b, g) == SumBy(a, g) + SumBy(b, g)
  {
    if a != [] {
      assert (a + b)[1..] == a[1..] + b;
      SumByAppend(a[1..], b, g);
    } else {
      assert a + b == b;
    }
  }

  /** Taking one row out of a sequence takes its value out of the total. */
  lemma {:induction false} SumByRemove<T>(b: seq<T>, i: int, g: T -> real)
    requires 0 <= i < |b|
    ensures SumBy(b, g) == g(b[i]) + SumBy(b[..i] + b[i + 1..], g)
  {
    assert b == b[..i] + ([b[i]] + b[i + 1..]);
    SumByAppend(b[..i], [b[i]] + b[i + 1..], g);
    SumByAppend([b[i]], b[i + 1..], g);
    SumByAppend(b[..i], b[i + 1..], g);
  }

  /** A position of `x` in `b`. */
  lemma {:induction false} IndexOf<T>(x: T, b: seq<T>) returns (i: int)
    requires x in multiset(b)
    ensures 0 <= i < |b| && b[i] == x
  {
    assert x in b;
    i :| 0 <= i < |b| && b[i] == x;
  }

  /** Removing the same row from two permutations of each other leaves two
      permutations of each other. */
  lemma {:induction false} MultisetRemove<T>(a: seq<T>, b: seq<T>, i: int)
    requires multiset(a) == multiset(b) && a != [] && 0 <= i < |b| && b[i] == a[0]
    ensures multiset(b[..i] + b[i + 1..]) == multiset(a[1..])
  {
    assert b == b[..i] + [a[0]] + b[i + 1..];
    assert a == [a[0]] + a[1..];
    assert multiset(b[..i] + b[i + 1..]) == multiset(b) - multiset{a[0]};
    assert multiset(a[1..]) == multiset(a) - multiset{a[0]};
  }

  /** Reordering rows does not change any column total. */
  lemma {:induction false} SumByPermutation<T>(a: seq<T>, b: seq<T>, g: T -> real)
    requires multiset(a) == multiset(b)
    ensures SumBy(a, g) == SumBy(b, g)
    decreases |a|
  {
    if a == [] {
      assert |b| == |multiset(b)| == 0;
    } else {
      var i := IndexOf(a[0], b);
      MultisetRemove(a, b, i);
      SumByPermutation(a[1..], b[..i] + b[i + 1..], g);
      SumByRemove(b, i, g);
    }
  }

  /** `head(k)`: the first `k` entries, or all of them when there are fewer. */
  function Take<T>(xs: seq<T>, k: nat): (r: seq<T>)
    ensures |r| == if k <= |xs| then k else |xs|
  {
    if k <= |xs| then xs[..k] else xs
  }

  predicate SortedDesc(xs: seq<real>) {
    forall i, j :: 0 <= i < j < |xs| ==> xs[i] >= xs[j]
  }

  /** With non-negative entries, a longer prefix never sums to less, and no
      prefix sums to more than the whole. */
  lemma {:induction false} TakeSumMonotone(xs: seq<real>, k1: nat, k2: nat)
    requires AllNonNegative(xs) && k1 <= k2
    ensures Sum(Take(xs, k1)) <= Sum(Take(xs, k2)) <= Sum(xs)
  {
    var a := Take(xs, k1);
    var b := Take(xs, k2);
    assert b == a + b[|a|..];
    assert xs == b + xs[|b|..];
    SumAppend(a, b[|a|..]);
    SumAppend(b, xs[|b|..]);
    SumNonNegative(b[|a|..]);
    SumNonNegative(xs[|b|..]);
  }

  lemma {:induction false} SumAtLeast(xs: seq<real>, t: real)
    requires forall i :: 0 <= i < |xs| ==> xs[i] >= t
    ensures Sum(xs) >= (|xs| as real) * t
  {
    if xs != [] {
      var n := |xs| - 1;
      SumAtLeast(xs[..n], t);
      assert (n as real + 1.0) * t == (n as real) * t + t;
    }
  }

  /** The first `k` entries of `xs` hold at least their proportional share
      `k / |xs|` of the total. */
  predicate HoldsShare(xs: seq<real>, k: nat)
    requires k <= |xs|
  {
    (|xs| as real) * Sum(xs[..k]) >= (k as real) * Sum(xs)
  }

  /** In a descending column the first `k` entries hold at least their
      proportional share `k / n` of the total. */
  lemma {:induction false} TopShareOfWhole(xs: seq<real>, k: nat)
    requires SortedDesc(xs) && 0 < k <= |xs|
    ensures (|xs| as real) * Sum(xs[..k]) >= (k as real) * Sum(xs)
  {
    TopShare(xs, k);
  }

  lemma {:induction false} TopShare(xs: seq<real>, k: nat)
    requires SortedDesc(xs) && 0 < k <= |xs|
    ensures HoldsShare(xs, k)
    decreases |xs|
  {
    if |xs| == k {
      assert xs[..k] == xs;
    } else {
      SortedPrefix(xs, |xs| - 1);
      TopShare(xs[..|xs| - 1], k);
      PrefixAtLeastLast(xs, k);
      TopShareExtend(xs, k);
    }
  }

  lemma {:induction false} SortedPrefix(xs: seq<real>, n: nat)
    requires SortedDesc(xs) && n <= |xs|
    ensures SortedDesc(xs[..n])
  {
  }

  lemma {:induction false} PrefixOfPrefix<T>(xs: seq<T>, n: nat, k: nat)
    requires k <= n <= |xs|
    ensures xs[..n][..k] == xs[..k]
  {
  }

  /** The inductive step of `TopShareOfWhole`: the share held by the top `k`
      of the first `|xs| - 1` entries, together with the top `k` being each
      at least the last entry, carries over to all of `xs`. */
  lemma {:induction false} TopShareExtend(xs: seq<real>, k: nat)
    requires 0 < k < |xs|
    requires HoldsShare(xs[..|xs| - 1], k)
    requires Sum(xs[..k]) >= (k as real) * xs[|xs| - 1]
    ensures HoldsShare(xs, k)
  {
    var n := |xs| - 1;
    var ys := xs[..n];
    PrefixOfPrefix(xs, n, k);
    assert Sum(xs) == Sum(ys) + xs[n];
    assert |xs| as real == |ys| as real + 1.0;
    assert Sum(ys[..k]) >= (k as real) * xs[n];
    assert HoldsShare(ys, k);
    assert (|ys| as real) * Sum(ys[..k]) >= (k as real) * Sum(ys);
    ShareStep(|xs| as real, |ys| as real, k as real, Sum(ys[..k]), Sum(ys), xs[n]);
  }

  /** In a descending column, each of the first `k` entries is at least the last. */
  lemma {:induction false} PrefixAtLeastLast(xs: seq<real>, k: nat)
    requires SortedDesc(xs) && 0 < k < |xs|
    ensures Sum(xs[..k]) >= (k as real) * xs[|xs| - 1]
  {
    var x := xs[|xs| - 1];
    assert forall i :: 0 <= i < |xs[..k]| ==> xs[..k][i] >= x;
    SumAtLeast(xs[..k], x);
  }

  /** The arithmetic of one step of `TopShareOfWhole`: the `k` top entries
      hold their share of the first `m - 1` entries, and at least `k` times
      the last entry. */
  lemma ShareStep(m: real, n: real, k: real, p: real, s: real, x: real)
    requires m == n + 1.0 && p >= k * x && n * p >= k * s
    ensures m * p >= k * (s + x)
  {
    assert m * p == n * p + p;
    assert k * (s + x) == k * s + k * x;
  }
}

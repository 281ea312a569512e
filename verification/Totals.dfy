/** Sums over a list, and the same sums taken bucket by bucket. */
module Totals {
  import opened Seqs

  function SumOf<T>(xs: seq<T>, weight: T -> int): int {
    if xs == [] then 0 else weight(xs[0]) + SumOf(xs[1..], weight)
  }

  /** The sum over those elements whose key is `b`. */
  function SumAt<T, K(==)>(xs: seq<T>, key: T -> K, weight: T -> int, b: K): int {
    if xs == [] then 0
    else (if key(xs[0]) == b then weight(xs[0]) else 0) + SumAt(xs[1..], key, weight, b)
  }

  /** The sums of all the buckets together. */
  function SumOver<T, K(==)>(buckets: seq<K>, xs: seq<T>, key: T -> K, weight: T -> int): int {
    if buckets == [] then 0 else SumAt(xs, key, weight, buckets[0]) + SumOver(buckets[1..], xs, key, weight)
  }

  lemma {:induction false} SumOverCons<T, K>(buckets: seq<K>, xs: seq<T>, key: T -> K, weight: T -> int)
    requires xs != [] && forall i, j :: 0 <= i < j < |buckets| ==> buckets[i] != buckets[j]
    ensures SumOver(buckets, xs, key, weight)
            == SumOver(buckets, xs[1..], key, weight) + (if key(xs[0]) in buckets then weight(xs[0]) else 0)
  {
    if buckets != [] {
      SumOverCons(buckets[1..], xs, key, weight);
      assert buckets == [buckets[0]] + buckets[1..];
      assert buckets[0] !in buckets[1..];
    }
  }

  /** When every key is one of the distinct buckets, nothing is lost and nothing counted twice. */
  lemma {:induction false} Regroup<T, K>(buckets: seq<K>, xs: seq<T>, key: T -> K, weight: T -> int)
    requires forall i, j :: 0 <= i < j < |buckets| ==> buckets[i] != buckets[j]
    requires forall x :: x in xs ==> key(x) in buckets
    ensures SumOver(buckets, xs, key, weight) == SumOf(xs, weight)
  {
    if xs == [] {
      NothingOver(buckets, xs, key, weight);
    } else {
      SumOverCons(buckets, xs, key, weight);
      Regroup(buckets, xs[1..], key, weight);
    }
  }

  lemma {:induction false} NothingOver<T, K>(buckets: seq<K>, xs: seq<T>, key: T -> K, weight: T -> int)
    requires xs == []
    ensures SumOver(buckets, xs, key, weight) == 0
  {
    if buckets != [] {
      NothingOver(buckets[1..], xs, key, weight);
    }
  }

  lemma {:induction false} SumAtNone<T, K>(xs: seq<T>, key: T -> K, weight: T -> int, b: K)
    requires forall x :: x in xs ==> key(x) != b
    ensures SumAt(xs, key, weight, b) == 0
  {
    if xs != [] {
      SumAtNone(xs[1..], key, weight, b);
    }
  }

  /** One step of a sum over a filtered list. */
  lemma SumOfFilter<T(!new)>(keep: T -> bool, xs: seq<T>, weight: T -> int)
    requires xs != []
    ensures SumOf(Filter(keep, xs), weight)
            == SumOf(Filter(keep, xs[1..]), weight) + (if keep(xs[0]) then weight(xs[0]) else 0)
  {
    var rest := Filter(keep, xs[1..]);
    if keep(xs[0]) {
      assert Filter(keep, xs) == [xs[0]] + rest;
      assert ([xs[0]] + rest)[1..] == rest;
    } else {
      assert Filter(keep, xs) == [] + rest == rest;
    }
  }

  /** Filters that agree on the elements of a bucket give it the same sum. */
  lemma {:induction false} SumAtAgrees<T(!new), K>(
      keep: T -> bool, other: T -> bool, xs: seq<T>, key: T -> K, weight: T -> int, b: K)
    requires forall x :: x in xs && key(x) == b ==> keep(x) == other(x)
    ensures SumAt(Filter(keep, xs), key, weight, b) == SumAt(Filter(other, xs), key, weight, b)
  {
    if xs != [] {
      SumAtAgrees(keep, other, xs[1..], key, weight, b);
      SumAtFilter(keep, xs, key, weight, b);
      SumAtFilter(other, xs, key, weight, b);
    }
  }

  lemma SumAtFilter<T(!new), K>(keep: T -> bool, xs: seq<T>, key: T -> K, weight: T -> int, b: K)
    requires xs != []
    ensures SumAt(Filter(keep, xs), key, weight, b)
            == SumAt(Filter(keep, xs[1..]), key, weight, b)
               + (if keep(xs[0]) && key(xs[0]) == b then weight(xs[0]) else 0)
  {
    var rest := Filter(keep, xs[1..]);
    if keep(xs[0]) {
      assert Filter(keep, xs) == [xs[0]] + rest;
      assert ([xs[0]] + rest)[1..] == rest;
    } else {
      assert Filter(keep, xs) == [] + rest == rest;
    }
  }

  /** `GROUP BY`: rows that hold the sum of one group each add up to the whole. */
  lemma {:induction false} GroupedRowsAddUp<T, K, R>(
      rows: seq<R>, keys: seq<K>, xs: seq<T>, key: T -> K, weight: T -> int, amount: R -> int)
    requires |rows| == |keys| && forall i :: 0 <= i < |rows| ==> amount(rows[i]) == SumAt(xs, key, weight, keys[i])
    ensures SumOf(rows, amount) == SumOver(keys, xs, key, weight)
  {
    if rows != [] {
      GroupedRowsAddUp(rows[1..], keys[1..], xs, key, weight, amount);
    }
  }

  lemma {:induction false} SumAtJoin<T, K>(xs: seq<T>, ys: seq<T>, key: T -> K, weight: T -> int, b: K)
    ensures SumAt(xs + ys, key, weight, b) == SumAt(xs, key, weight, b) + SumAt(ys, key, weight, b)
  {
    if xs == [] {
      assert xs + ys == ys;
    } else {
      SumAtJoin(xs[1..], ys, key, weight, b);
      assert (xs + ys)[1..] == xs[1..] + ys;
    }
  }

  /** Replacing one element changes the sum of its group by the difference. */
  lemma {:induction false} SumAtReplace<T, K>(xs: seq<T>, i: nat, y: T, key: T -> K, weight: T -> int, b: K)
    requires i < |xs| && key(y) == key(xs[i])
    ensures SumAt(xs[i := y], key, weight, b)
            == SumAt(xs, key, weight, b) + (if key(y) == b then weight(y) - weight(xs[i]) else 0)
  {
    if i == 0 {
      assert xs[0 := y][1..] == xs[1..];
    } else {
      SumAtReplace(xs[1..], i - 1, y, key, weight, b);
      assert xs[i := y][1..] == xs[1..][i - 1 := y];
    }
  }

  lemma SumAtPush<T, K>(xs: seq<T>, y: T, key: T -> K, weight: T -> int, b: K)
    ensures SumAt(xs + [y], key, weight, b) == SumAt(xs, key, weight, b) + (if key(y) == b then weight(y) else 0)
  {
    SumAtJoin(xs, [y], key, weight, b);
  }

  lemma {:induction false} SumOfJoin<T>(xs: seq<T>, ys: seq<T>, weight: T -> int)
    ensures SumOf(xs + ys, weight) == SumOf(xs, weight) + SumOf(ys, weight)
  {
    if xs == [] {
      assert xs + ys == ys;
    } else {
      SumOfJoin(xs[1..], ys, weight);
      assert (xs + ys)[1..] == xs[1..] + ys;
    }
  }

  /** A sum does not depend on the order. */
  lemma {:induction false} SumOfPermutation<T>(xs: seq<T>, ys: seq<T>, weight: T -> int)
    requires multiset(xs) == multiset(ys)
    ensures SumOf(xs, weight) == SumOf(ys, weight)
  {
    if xs == [] {
      assert |multiset(ys)| == 0;
    } else {
      var x, i := xs[0], PositionIn(xs[0], xs, ys);
      WithoutOne(xs, 0);
      WithoutOne(ys, i);
      SumOfPermutation(xs[1..], ys[..i] + ys[i + 1..], weight);
      SumWithoutOne(ys, i, weight);
    }
  }

  function PositionIn<T(==)>(x: T, xs: seq<T>, ys: seq<T>): (i: nat)
    requires multiset(xs) == multiset(ys) && x in xs
    ensures i < |ys| && ys[i] == x
  {
    assert x in multiset(ys);
    FirstPosition(x, ys)
  }

  function FirstPosition<T(==)>(x: T, ys: seq<T>): (i: nat)
    requires x in ys
    ensures i < |ys| && ys[i] == x
  {
    if ys[0] == x then 0 else 1 + FirstPosition(x, ys[1..])
  }

  lemma WithoutOne<T>(ys: seq<T>, i: nat)
    requires i < |ys|
    ensures multiset(ys[..i] + ys[i + 1..]) == multiset(ys) - multiset{ys[i]}
  {
    assert ys == ys[..i] + ([ys[i]] + ys[i + 1..]);
  }

  lemma SumWithoutOne<T>(ys: seq<T>, i: nat, weight: T -> int)
    requires i < |ys|
    ensures SumOf(ys, weight) == weight(ys[i]) + SumOf(ys[..i] + ys[i + 1..], weight)
  {
    var before, after := ys[..i], ys[i + 1..];
    assert ys == before + ([ys[i]] + after);
    SumOfJoin(before, after, weight);
    SumOfJoin(before, [ys[i]] + after, weight);
    assert ([ys[i]] + after)[1..] == after;
  }
}

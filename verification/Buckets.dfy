/**
 * Charts cut time into buckets. A bucket size is given by the dates its buckets start on, in order:
 * `starts(k)` is the start of bucket number `k`. What is proved here holds for days, weeks and months alike.
 */
module Buckets {

  ghost predicate Grows(starts: int -> int, k: int) {
    starts(k) < starts(k + 1)
  }

  ghost predicate Increasing(starts: int -> int) {
    forall k :: Grows(starts, k)
  }

  lemma {:induction false} Apart(starts: int -> int, a: int, b: int)
    requires Increasing(starts) && a <= b
    ensures starts(a) + (b - a) <= starts(b)
    decreases b - a
  {
    if a < b {
      Apart(starts, a, b - 1);
      assert Grows(starts, b - 1);
    }
  }

  /** Looks for the bucket of a date from bucket `k`, one bucket at a time. */
  function Search(starts: int -> int, date: int, k: int): (r: int)
    requires Increasing(starts)
    ensures starts(r) <= date < starts(r + 1)
    decreases if date < starts(k) then starts(k) - date else if starts(k + 1) <= date then date - starts(k) else 0
  {
    assert Grows(starts, k) && Grows(starts, k - 1) && Grows(starts, k + 1);
    if date < starts(k) then Search(starts, date, k - 1)
    else if starts(k + 1) <= date then Search(starts, date, k + 1)
    else k
  }

  /** The number of the bucket a date falls in. */
  function Index(starts: int -> int, date: int): (r: int)
    requires Increasing(starts)
    ensures starts(r) <= date < starts(r + 1)
  {
    Search(starts, date, 0)
  }

  lemma IndexIs(starts: int -> int, date: int, k: int)
    requires Increasing(starts) && starts(k) <= date < starts(k + 1)
    ensures Index(starts, date) == k
  {
    var r := Index(starts, date);
    if r < k {
      Apart(starts, r + 1, k);
    } else if k < r {
      Apart(starts, k + 1, r);
    }
  }

  /** A start is in the bucket it starts. */
  lemma IndexOfStart(starts: int -> int, k: int)
    requires Increasing(starts)
    ensures Index(starts, starts(k)) == k
  {
    assert Grows(starts, k);
    IndexIs(starts, starts(k), k);
  }

  /** The start of the bucket a date falls in: `date_trunc`. */
  function BucketStart(starts: int -> int, date: int): int
    requires Increasing(starts)
  {
    starts(Index(starts, date))
  }

  /** The start of the bucket after that. */
  function NextStart(starts: int -> int, date: int): int
    requires Increasing(starts)
  {
    starts(Index(starts, date) + 1)
  }

  /** A bucket is the stretch of dates from its start up to the next start. */
  lemma BucketIsInterval(starts: int -> int, date: int, other: int)
    requires Increasing(starts)
    ensures BucketStart(starts, date) <= date < NextStart(starts, date)
    ensures BucketStart(starts, other) == BucketStart(starts, date)
            <==> BucketStart(starts, date) <= other < NextStart(starts, date)
    ensures BucketStart(starts, BucketStart(starts, date)) == BucketStart(starts, date)
    ensures BucketStart(starts, NextStart(starts, date)) == NextStart(starts, date)
  {
    var k, m := Index(starts, date), Index(starts, other);
    IndexOfStart(starts, k);
    IndexOfStart(starts, k + 1);
    IndexOfStart(starts, m);
    if starts(k) <= other < starts(k + 1) {
      IndexIs(starts, other, k);
    }
  }

  /** The buckets are exactly the starts from `first` to `last`, oldest first: none is missing, none repeated. */
  ghost predicate Lists(buckets: seq<int>, starts: int -> int, first: int, last: int)
    requires Increasing(starts)
  {
    && (forall i, j :: 0 <= i < j < |buckets| ==> buckets[i] < buckets[j])
    && (forall b :: b in buckets <==> first <= b <= last && BucketStart(starts, b) == b)
  }

  /** Each date from `first` to `last` falls in exactly one of the listed buckets. */
  lemma InOneBucket(buckets: seq<int>, starts: int -> int, first: int, last: int, date: int)
    requires Increasing(starts) && Lists(buckets, starts, first, last)
    requires BucketStart(starts, first) == first && first <= date <= last
    ensures BucketStart(starts, date) in buckets
    ensures forall i, j ::
              (0 <= i < |buckets| && 0 <= j < |buckets| && buckets[i] == buckets[j]) ==> i == j
  {
    BucketIsInterval(starts, date, first);
    BucketIsInterval(starts, first, date);
  }

  /** The list is determined by its bounds. */
  lemma ListIsUnique(xs: seq<int>, ys: seq<int>, starts: int -> int, first: int, last: int)
    requires Increasing(starts) && Lists(xs, starts, first, last) && Lists(ys, starts, first, last)
    ensures xs == ys
  {
    SortedListsAreEqual(xs, ys);
  }

  lemma {:induction false} SortedListsAreEqual(xs: seq<int>, ys: seq<int>)
    requires forall i, j :: 0 <= i < j < |xs| ==> xs[i] < xs[j]
    requires forall i, j :: 0 <= i < j < |ys| ==> ys[i] < ys[j]
    requires forall b :: b in xs <==> b in ys
    ensures xs == ys
  {
    assert xs == [] || xs[0] in xs;
    assert ys == [] || ys[0] in ys;
    if xs != [] && ys != [] {
      assert xs[0] == ys[0];
      assert xs == [xs[0]] + xs[1..] && ys == [ys[0]] + ys[1..];
      assert xs[0] !in xs[1..] && ys[0] !in ys[1..];
      forall b ensures b in xs[1..] <==> b in ys[1..] {
        assert b in xs <==> b == xs[0] || b in xs[1..];
        assert b in ys <==> b == ys[0] || b in ys[1..];
      }
      SortedListsAreEqual(xs[1..], ys[1..]);
    }
  }

  /** Pushing the next start extends the list up to the start after it. */
  lemma ListGrows(buckets: seq<int>, starts: int -> int, first: int, b: int)
    requires Increasing(starts) && Lists(buckets, starts, first, b - 1) && BucketStart(starts, b) == b && first <= b
    ensures Lists(buckets + [b], starts, first, NextStart(starts, b) - 1)
  {
    var longer := buckets + [b];
    BucketIsInterval(starts, b, b);
    forall x ensures x in longer <==> first <= x <= NextStart(starts, b) - 1 && BucketStart(starts, x) == x {
      BucketIsInterval(starts, b, x);
    }
    forall i, j | 0 <= i < j < |longer| ensures longer[i] < longer[j] {
      assert longer[i] == buckets[i] && buckets[i] in buckets;
    }
  }

  /** A list that reached the start `b` lists all up to `last`, when `last` falls in the bucket before `b`. */
  lemma ListEnds(buckets: seq<int>, starts: int -> int, first: int, b: int, last: int)
    requires Increasing(starts) && Lists(buckets, starts, first, b - 1) && last < b
    requires forall x :: x in buckets ==> x <= last
    ensures Lists(buckets, starts, first, last)
  {
  }

  /** The starts of `n` buckets in a row. */
  function Run(starts: int -> int, k: int, n: nat): (run: seq<int>)
    ensures |run| == n && forall i :: 0 <= i < n ==> run[i] == starts(k + i)
  {
    seq(n, i requires 0 <= i < n => starts(k + i))
  }

  /** Consecutive starts are a list, up to any date of the last bucket. */
  lemma ConsecutiveStarts(starts: int -> int, k: int, n: nat, last: int)
    requires Increasing(starts) && n > 0 && starts(k + n - 1) <= last < starts(k + n)
    ensures Lists(Run(starts, k, n), starts, starts(k), last)
  {
    var run := Run(starts, k, n);
    forall i, j | 0 <= i < j < n ensures run[i] < run[j] {
      Apart(starts, k + i, k + j);
    }
    forall b ensures b in run <==> starts(k) <= b <= last && BucketStart(starts, b) == b {
      if b in run {
        var i :| 0 <= i < n && run[i] == b;
        StartInRun(starts, k, n, i);
      }
      if starts(k) <= b <= last && BucketStart(starts, b) == b {
        StartBetween(starts, k, n, b);
        assert run[Index(starts, b) - k] == b;
      }
    }
  }

  lemma StartInRun(starts: int -> int, k: int, n: nat, i: nat)
    requires Increasing(starts) && i < n
    ensures starts(k) <= starts(k + i) <= starts(k + n - 1) && BucketStart(starts, starts(k + i)) == starts(k + i)
  {
    IndexOfStart(starts, k + i);
    Apart(starts, k, k + i);
    Apart(starts, k + i, k + n - 1);
  }

  lemma StartBetween(starts: int -> int, k: int, n: nat, b: int)
    requires Increasing(starts) && starts(k) <= b < starts(k + n)
    ensures k <= Index(starts, b) < k + n
  {
    var m := Index(starts, b);
    if m < k {
      Apart(starts, m + 1, k);
    } else if m >= k + n {
      Apart(starts, k + n, m);
    }
  }

  /** The start of the bucket so many before the one a date falls in. */
  function StartBack(starts: int -> int, date: int, back: int): int
    requires Increasing(starts)
  {
    starts(Index(starts, date) - back)
  }

  /** The last `n` buckets up to that of `date`, oldest first. */
  ghost predicate AreLast(buckets: seq<int>, starts: int -> int, date: int, n: nat)
    requires Increasing(starts)
  {
    && |buckets| == n
    && forall i :: 0 <= i < n ==> buckets[i] == StartBack(starts, date, n - 1 - i)
  }

  lemma LastOnes(buckets: seq<int>, starts: int -> int, date: int, n: nat)
    requires Increasing(starts) && n > 0
    requires Lists(buckets, starts, BucketStart(starts, StartBack(starts, date, n - 1)), date)
    ensures BucketStart(starts, StartBack(starts, date, n - 1)) == StartBack(starts, date, n - 1) <= date
    ensures AreLast(buckets, starts, date, n)
  {
    hide Lists, Increasing;
    var k := Index(starts, date) - (n - 1);
    IndexOfStart(starts, k);
    Apart(starts, k, k + n - 1);
    ConsecutiveStarts(starts, k, n, date);
    ListIsUnique(buckets, Run(starts, k, n), starts, starts(k), date);
  }

  /** Every start from that of the bucket of `first` to that of the bucket of `last`. */
  method BucketsBetween(starts: int -> int, first: int, last: int) returns (out: seq<int>)
    requires Increasing(starts)
    ensures Lists(out, starts, BucketStart(starts, first), last)
  {
    out := [];
    var cursor := BucketStart(starts, first);
    var end := BucketStart(starts, last);
    BucketIsInterval(starts, first, first);
    BucketIsInterval(starts, last, last);
    while cursor <= end
      invariant BucketStart(starts, cursor) == cursor && BucketStart(starts, first) <= cursor
      invariant Lists(out, starts, BucketStart(starts, first), cursor - 1)
      invariant forall b :: b in out ==> b <= end
      decreases end - cursor
    {
      ListGrows(out, starts, BucketStart(starts, first), cursor);
      BucketIsInterval(starts, cursor, cursor);
      out := out + [cursor];
      cursor := NextStart(starts, cursor);
    }
    BucketIsInterval(starts, last, cursor);
    BucketIsInterval(starts, cursor, last);
    ListEnds(out, starts, BucketStart(starts, first), cursor, last);
  }
}

/** `filter` and the stable `sort` of a list, as the source's array methods compute them. */
module Seqs {

  function Filter<T(!new)>(keep: T -> bool, xs: seq<T>): (ys: seq<T>)
    ensures forall x :: x in ys <==> x in xs && keep(x)
    ensures |ys| <= |xs|
  {
    if xs == [] then []
    else
      assert xs == [xs[0]] + xs[1..];
      (if keep(xs[0]) then [xs[0]] else []) + Filter(keep, xs[1..])
  }

  ghost predicate TotalPreorder<T(!new)>(leq: (T, T) -> bool) {
    && (forall x, y :: leq(x, y) || leq(y, x))
    && (forall x, y, z :: leq(x, y) && leq(y, z) ==> leq(x, z))
  }

  ghost predicate SortedBy<T>(leq: (T, T) -> bool, xs: seq<T>) {
    forall i, j :: 0 <= i < j < |xs| ==> leq(xs[i], xs[j])
  }

  /** Puts `x` in front of the first element it may precede. */
  function Insert<T>(leq: (T, T) -> bool, x: T, ys: seq<T>): seq<T> {
    if ys == [] || leq(x, ys[0]) then [x] + ys else [ys[0]] + Insert(leq, x, ys[1..])
  }

  lemma {:induction false} InsertElements<T>(leq: (T, T) -> bool, x: T, ys: seq<T>)
    ensures multiset(Insert(leq, x, ys)) == multiset{x} + multiset(ys)
  {
    if ys != [] {
      InsertElements(leq, x, ys[1..]);
      assert ys == [ys[0]] + ys[1..];
    }
  }

  lemma {:induction false} InsertSorts<T(!new)>(leq: (T, T) -> bool, x: T, ys: seq<T>)
    requires TotalPreorder(leq) && SortedBy(leq, ys)
    ensures SortedBy(leq, Insert(leq, x, ys))
  {
    if ys != [] && !leq(x, ys[0]) {
      var zs := Insert(leq, x, ys[1..]);
      InsertSorts(leq, x, ys[1..]);
      InsertElements(leq, x, ys[1..]);
      forall z | z in zs ensures leq(ys[0], z) {
        assert z in multiset(zs);
        assert z == x || z in ys[1..];
      }
      assert Insert(leq, x, ys) == [ys[0]] + zs;
    }
  }

  function Sort<T(!new)>(leq: (T, T) -> bool, xs: seq<T>): (ys: seq<T>)
    requires TotalPreorder(leq)
    ensures multiset(ys) == multiset(xs)
    ensures SortedBy(leq, ys)
  {
    if xs == [] then []
    else
      assert xs == [xs[0]] + xs[1..];
      InsertElements(leq, xs[0], Sort(leq, xs[1..]));
      InsertSorts(leq, xs[0], Sort(leq, xs[1..]));
      Insert(leq, xs[0], Sort(leq, xs[1..]))
  }

  lemma SortKeepsElements<T(!new)>(leq: (T, T) -> bool, xs: seq<T>)
    requires TotalPreorder(leq)
    ensures forall x :: x in Sort(leq, xs) <==> x in xs
    ensures |Sort(leq, xs)| == |xs|
  {
    var ys := Sort(leq, xs);
    forall x ensures x in ys <==> x in xs {
      assert x in ys <==> x in multiset(ys);
      assert x in xs <==> x in multiset(xs);
    }
    assert |multiset(ys)| == |multiset(xs)|;
  }
}

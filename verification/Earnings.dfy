/** The zero-filled earnings chart: `fillEarningsSeries` of src/analytics/artisan-analytics.service.ts. */
module Earnings {
  import opened Wrappers
  import opened Totals
  import opened Buckets
  import opened Calendar
  import opened CustomerRange
  import opened Money

  /** A row of the query: a bucket start and what was paid out in it, in pesewas. */
  datatype EarningsPoint = EarningsPoint(bucket: int, earnings: int, payouts: int)

  datatype Filled = Filled(bucketStart: int, net: string, payouts: int)

  function BucketOf(p: EarningsPoint): int {
    p.bucket
  }

  function EarningsOf(p: EarningsPoint): int {
    p.earnings
  }

  function PayoutsOf(p: EarningsPoint): int {
    p.payouts
  }

  function FilledCents(f: Filled): int {
    ToCents(f.net)
  }

  function FilledPayouts(f: Filled): int {
    f.payouts
  }

  /** The map by start: the last point of a start wins. */
  function ByStart(points: seq<EarningsPoint>): (found: map<int, EarningsPoint>)
    ensures forall b :: b in found <==> exists p :: p in points && p.bucket == b
    ensures forall b :: b in found ==> found[b] in points && found[b].bucket == b
  {
    if points == [] then map[]
    else
      var last := points[|points| - 1];
      var found := ByStart(points[..|points| - 1])[last.bucket := last];
      assert points == points[..|points| - 1] + [last];
      found
  }

  /** The least key of the map: the first of the sorted keys. */
  function EarliestBucket(points: seq<EarningsPoint>): (first: int)
    requires points != []
    ensures forall p :: p in points ==> first <= p.bucket
    ensures exists p :: p in points && p.bucket == first
  {
    assert points == [points[0]] + points[1..];
    if |points| == 1 then
      assert points[0] in points;
      points[0].bucket
    else
      var rest := EarliestBucket(points[1..]);
      assert points[0] in points;
      assert exists p :: p in points && p.bucket == rest by {
        var p :| p in points[1..] && p.bucket == rest;
        assert p in points;
      }
      if points[0].bucket <= rest then points[0].bucket else rest
  }

  function Fill(starts: seq<int>, found: map<int, EarningsPoint>): (out: seq<Filled>)
    ensures |out| == |starts|
    ensures forall i :: 0 <= i < |starts| ==>
              && out[i].bucketStart == starts[i]
              && out[i].net == CentsToMoney(if starts[i] in found then found[starts[i]].earnings else 0)
              && out[i].payouts == (if starts[i] in found then found[starts[i]].payouts else 0)
  {
    if starts == [] then []
    else
      var b := starts[0];
      var hit := if b in found then Filled(b, CentsToMoney(found[b].earnings), found[b].payouts) else Filled(b, CentsToMoney(0), 0);
      [hit] + Fill(starts[1..], found)
  }

  ghost predicate Distinct(points: seq<EarningsPoint>) {
    forall i, j :: 0 <= i < j < |points| ==> points[i].bucket != points[j].bucket
  }

  /** With one point a start, what is looked up for a start is the sum over that start. */
  lemma {:induction false} LookupIsSum(points: seq<EarningsPoint>, b: int)
    requires Distinct(points)
    ensures var found := ByStart(points);
            && SumAt(points, BucketOf, EarningsOf, b) == (if b in found then found[b].earnings else 0)
            && SumAt(points, BucketOf, PayoutsOf, b) == (if b in found then found[b].payouts else 0)
  {
    if points != [] {
      var before, last := points[..|points| - 1], points[|points| - 1];
      assert points == before + [last];
      LookupIsSum(before, b);
      SumAtPush(before, last, BucketOf, EarningsOf, b);
      SumAtPush(before, last, BucketOf, PayoutsOf, b);
      if b == last.bucket {
        assert b !in ByStart(before) by {
          assert forall p :: p in before ==> exists i :: 0 <= i < |points| - 1 && points[i] == p;
        }
      }
    }
  }

  lemma {:induction false} FillSums(starts: seq<int>, points: seq<EarningsPoint>)
    requires Distinct(points)
    ensures SumOf(Fill(starts, ByStart(points)), FilledCents) == SumOver(starts, points, BucketOf, EarningsOf)
    ensures SumOf(Fill(starts, ByStart(points)), FilledPayouts) == SumOver(starts, points, BucketOf, PayoutsOf)
  {
    if starts != [] {
      FillSums(starts[1..], points);
      LookupIsSum(points, starts[0]);
      var found := ByStart(points);
      MoneyRoundTrip(if starts[0] in found then found[starts[0]].earnings else 0);
      assert Fill(starts, found)[1..] == Fill(starts[1..], found);
    }
  }

  /** Points that are starts of the listed buckets are all shown. */
  lemma FillConserves(buckets: seq<int>, points: seq<EarningsPoint>, starts: int -> int, first: int, last: int)
    requires Increasing(starts) && Distinct(points)
    requires Lists(buckets, starts, first, last)
    requires forall p :: p in points ==> BucketStart(starts, p.bucket) == p.bucket && first <= p.bucket <= last
    ensures SumOf(Fill(buckets, ByStart(points)), FilledCents) == SumOf(points, EarningsOf)
    ensures SumOf(Fill(buckets, ByStart(points)), FilledPayouts) == SumOf(points, PayoutsOf)
  {
    FillSums(buckets, points);
    Regroup(buckets, points, BucketOf, EarningsOf);
    Regroup(buckets, points, BucketOf, PayoutsOf);
  }

  /** The days of the chart: a cursor that steps by one day. */
  method DayBuckets(first: int, last: int) returns (buckets: seq<int>)
    ensures Increasing(Same) && Lists(buckets, Same, BucketStart(Same, first), last)
  {
    buckets := [];
    var t := first;
    DayIsBucket(first);
    while t <= last
      invariant first <= t && Lists(buckets, Same, first, t - 1)
      invariant forall b :: b in buckets ==> b <= last
    {
      DayIsBucket(t);
      ListGrows(buckets, Same, first, t);
      buckets := buckets + [t];
      t := t + 1;
    }
    ListEnds(buckets, Same, first, t, last);
  }

  method BucketsFrom(unit: Unit, first: int, last: int) returns (buckets: seq<int>)
    ensures Increasing(Starts(unit)) && Lists(buckets, Starts(unit), BucketStart(Starts(unit), first), last)
  {
    match unit {
      case MonthUnit => buckets := MonthBucketsBetween(first, last);
      case WeekUnit =>
        IsoWeekIsBucket(first);
        buckets := WeekBuckets(first, last);
      case DayUnit => buckets := DayBuckets(first, last);
    }
  }

  /** The date the chart starts at: of the window, or for all time of the earliest point. */
  function FirstShown(points: seq<EarningsPoint>, from: Option<int>): int
    requires from.Some? || points != []
  {
    if from.Some? then DayOf(from.value) else EarliestBucket(points)
  }

  /**
   * `fillEarningsSeries`: each bucket from the first to that of today once, in order; and when the
   * points are starts of distinct buckets of the window, all that was paid out.
   */
  method FillEarningsSeries(points: seq<EarningsPoint>, unit: Unit, from: Option<int>, to: int) returns (out: seq<Filled>)
    ensures from.None? && points == [] ==> out == []
    ensures Increasing(Starts(unit))
    ensures from.Some? || points != [] ==>
              exists buckets ::
                && Lists(buckets, Starts(unit), BucketStart(Starts(unit), FirstShown(points, from)), DayOf(to))
                && out == Fill(buckets, ByStart(points))
    ensures (Distinct(points)
             && forall p :: p in points ==>
                  && BucketStart(Starts(unit), p.bucket) == p.bucket <= DayOf(to)
                  && (from.Some? ==> BucketStart(Starts(unit), DayOf(from.value)) <= p.bucket)) ==>
              && SumOf(out, FilledCents) == SumOf(points, EarningsOf)
              && SumOf(out, FilledPayouts) == SumOf(points, PayoutsOf)
  {
    StartsIncrease(unit);
    if from.None? && points == [] {
      return [];
    }
    var first := FirstShown(points, from);
    var buckets := BucketsFrom(unit, first, DayOf(to));
    out := Fill(buckets, ByStart(points));
    ghost var starts := Starts(unit);
    if (Distinct(points)
        && forall p :: p in points ==>
             && BucketStart(starts, p.bucket) == p.bucket <= DayOf(to)
             && (from.Some? ==> BucketStart(starts, DayOf(from.value)) <= p.bucket))
    {
      FillConserves(buckets, points, starts, BucketStart(starts, first), DayOf(to));
    }
  }
}

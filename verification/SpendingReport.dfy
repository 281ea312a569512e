/**
 * The spending report and the spending rail of the overview, two pages that must agree:
 * `build` of src/customer-insights/customer-analytics.service.ts and `buildSpend` of
 * src/customer-insights/customer-overview.service.ts.
 */
module SpendingReport {
  import opened Wrappers
  import opened Totals
  import opened Buckets
  import opened Calendar
  import opened CustomerRange
  import opened Money
  import opened SpendService

  datatype Point = Point(bucketStart: int, netSpent: string, count: int)

  function PointCents(p: Point): int {
    ToCents(p.netSpent)
  }

  function PointCount(p: Point): int {
    p.count
  }

  function StartsOf(series: seq<Point>): (buckets: seq<int>)
    ensures |buckets| == |series| && forall i :: 0 <= i < |series| ==> buckets[i] == series[i].bucketStart
  {
    seq(|series|, i requires 0 <= i < |series| => series[i].bucketStart)
  }

  /** A point for each bucket, zero where there was no payment. */
  function Series(buckets: seq<int>, found: map<int, BucketNet>): (series: seq<Point>)
    ensures |series| == |buckets|
    ensures forall i :: 0 <= i < |buckets| ==>
              series[i] == Point(buckets[i], CentsToMoney(Hit(found, buckets[i]).cents), Hit(found, buckets[i]).count)
  {
    if buckets == [] then []
    else
      var hit := Hit(found, buckets[0]);
      [Point(buckets[0], CentsToMoney(hit.cents), hit.count)] + Series(buckets[1..], found)
  }

  datatype Report = Report(
    unit: Unit, from: Option<int>, to: int, hasPaymentsEver: bool,
    netSpent: string, grossPaid: string, refunded: string, held: string, released: string,
    paymentsCount: int, avgPayment: string, previousNetSpent: Option<string>,
    series: seq<Point>)

  // ─── The series conserves the total ──────────────────────────────────────────────

  lemma {:induction false} SeriesSums(buckets: seq<int>, payments: seq<Payment>, me: nat, starts: int -> int, span: Span)
    requires Increasing(starts)
    ensures var paid, key := Counted(payments, me, span), KeyOf(starts);
            var series := Series(buckets, NetByBucket(payments, me, starts, span));
            && SumOf(series, PointCents) == SumOver(buckets, paid, key, Net)
            && SumOf(series, PointCount) == SumOver(buckets, paid, key, One)
  {
    if buckets != [] {
      SeriesSums(buckets[1..], payments, me, starts, span);
      HitIsSum(payments, me, starts, span, buckets[0]);
      MoneyRoundTrip(Hit(NetByBucket(payments, me, starts, span), buckets[0]).cents);
      var found := NetByBucket(payments, me, starts, span);
      assert Series(buckets, found)[1..] == Series(buckets[1..], found);
    }
  }

  /** Buckets that list all dates of the counted payments put each payment in exactly one point. */
  lemma SeriesConserves(buckets: seq<int>, payments: seq<Payment>, me: nat, starts: int -> int, span: Span, first: int, last: int)
    requires Increasing(starts) && Lists(buckets, starts, BucketStart(starts, first), last)
    requires forall p :: p in Counted(payments, me, span) ==> first <= DayOf(p.at) <= last
    ensures var series := Series(buckets, NetByBucket(payments, me, starts, span));
            && SumOf(series, PointCents) == SumOf(Counted(payments, me, span), Net)
            && SumOf(series, PointCount) == |Counted(payments, me, span)|
  {
    var paid, key := Counted(payments, me, span), KeyOf(starts);
    BucketIsInterval(starts, first, first);
    forall p | p in paid ensures key(p) in buckets {
      InOneBucket(buckets, starts, BucketStart(starts, first), last, DayOf(p.at));
    }
    SeriesSums(buckets, payments, me, starts, span);
    Regroup(buckets, paid, key, Net);
    Regroup(buckets, paid, key, One);
    NetIsDifference(paid);
  }

  /** Every counted payment of the window lies on a date from the window's first to today. */
  lemma DatesOfWindow(payments: seq<Payment>, me: nat, range: Range, now: int, w: Window)
    requires IsWindow(w, range, now) && !range.AllTime?
    ensures forall p :: p in Counted(payments, me, Within(w.from, now)) ==>
              FirstDate(range, DayOf(now)) <= DayOf(p.at) <= DayOf(now)
  {
    forall p | p in Counted(payments, me, Within(w.from, now))
      ensures FirstDate(range, DayOf(now)) <= DayOf(p.at) <= DayOf(now)
    {
      LaterInstant(FirstDate(range, DayOf(now)), p.at);
      LaterInstant(DayOf(p.at), now);
    }
  }

  lemma LaterInstant(date: int, t: int)
    ensures date * DAY_MS <= t <==> date <= DayOf(t)
  {
  }

  /** The period before is at least as long ago, so the two spans meet. */
  lemma PreviousMeets(payments: seq<Payment>, me: nat, range: Range, now: int, w: Window)
    requires IsWindow(w, range, now) && !range.AllTime?
    ensures w.previous.value.0 <= w.previous.value.1 == w.from.value <= now
    ensures SumOf(Counted(payments, me, Within(Some(w.previous.value.0), now)), Net)
            == NetCentsBetween(payments, me, w.previous.value.0, w.previous.value.1)
               + SumOf(Counted(payments, me, Within(w.from, now)), Net)
  {
    EarlierPeriod(range, DayOf(now));
    LaterInstant(FirstDate(range, DayOf(now)), now);
    SpansJoin(payments, me, w.previous.value.0, w.from.value, now, Net);
  }

  lemma EarlierPeriod(range: Range, today: int)
    requires !range.AllTime?
    ensures PreviousDate(range, today) < FirstDate(range, today)
  {
    MonthsIncrease();
    Apart(FirstOfMonth, MonthOf(today) - 23, MonthOf(today) - 11);
  }

  // ─── The report ────────────────────────────────────────────────────────────────

  /** The buckets of the report: for all time, the months from the first payment's. */
  method ReportBuckets(payments: seq<Payment>, me: nat, range: Range, now: int, w: Window) returns (buckets: seq<int>)
    requires IsWindow(w, range, now) && Increasing(Starts(w.unit))
    ensures !range.AllTime? ==> buckets == w.buckets
    ensures var first := FirstPaymentDate(payments, me);
            range.AllTime? ==>
              if first.None? then buckets == []
              else Lists(buckets, FirstOfMonth, BucketStart(FirstOfMonth, DayOf(first.value)), DayOf(now))
  {
    if range.AllTime? {
      var first := FirstPaymentDate(payments, me);
      if first.Some? {
        buckets := MonthBucketsBetween(DayOf(first.value), DayOf(now));
      } else {
        buckets := [];
      }
    } else {
      buckets := w.buckets;
    }
  }

  lemma ReportConserves(payments: seq<Payment>, me: nat, range: Range, now: int, w: Window, buckets: seq<int>)
    requires IsWindow(w, range, now) && Increasing(Starts(w.unit))
    requires !range.AllTime? ==> buckets == w.buckets
    requires var first := FirstPaymentDate(payments, me);
             range.AllTime? ==>
               if first.None? then buckets == []
               else Lists(buckets, FirstOfMonth, BucketStart(FirstOfMonth, DayOf(first.value)), DayOf(now))
    ensures var span := Within(w.from, now);
            var series := Series(buckets, NetByBucket(payments, me, Starts(w.unit), span));
            && SumOf(series, PointCents) == TotalsOf(payments, me, span).net
            && SumOf(series, PointCount) == TotalsOf(payments, me, span).count
  {
    hide NetByBucket, FirstOfMonth, DayOf, Index;
    var span := Within(w.from, now);
    var paid := Counted(payments, me, span);
    NetIsDifference(paid);
    if !range.AllTime? {
      DatesOfWindow(payments, me, range, now, w);
      SeriesConserves(buckets, payments, me, Starts(w.unit), span, FirstDate(range, DayOf(now)), DayOf(now));
    } else {
      var first := FirstPaymentDate(payments, me);
      assert forall p :: p in paid ==> p in Counted(payments, me, Ever());
      if first.None? {
        assert paid == [];
      } else {
        forall p | p in paid ensures DayOf(first.value) <= DayOf(p.at) <= DayOf(now) {
          LaterInstant(DayOf(first.value), p.at);
          LaterInstant(DayOf(first.value), first.value);
          LaterInstant(DayOf(p.at), now);
          LaterInstant(DayOf(p.at), p.at);
        }
        SeriesConserves(buckets, payments, me, FirstOfMonth, span, DayOf(first.value), DayOf(now));
      }
    }
  }

  /** `build`. */
  method Build(payments: seq<Payment>, me: nat, range: Range, now: int) returns (r: Report)
    ensures range.AllTime? <==> r.from.None?
    ensures !range.AllTime? ==> r.from == Some(FirstDate(range, DayOf(now)) * DAY_MS)
    ensures r.unit == UnitOf(range) && r.to == now && r.hasPaymentsEver == HasPaymentsEver(payments, me)
    ensures var totals := TotalsOf(payments, me, Within(r.from, now));
            && ToCents(r.netSpent) == totals.net == ToCents(r.grossPaid) - ToCents(r.refunded)
            && ToCents(r.grossPaid) == totals.gross && ToCents(r.released) == totals.released
            && r.paymentsCount == totals.count
    ensures r.held == CentsToMoney(HeldCents(payments, me)) && ToCents(r.held) == HeldCents(payments, me)
    ensures r.paymentsCount > 0 ==>
              -r.paymentsCount <= 2 * (r.paymentsCount * ToCents(r.avgPayment) - ToCents(r.netSpent)) <= r.paymentsCount
    ensures SumOf(r.series, PointCents) == ToCents(r.netSpent)
    ensures SumOf(r.series, PointCount) == r.paymentsCount
    ensures r.previousNetSpent.Some? <==> !range.AllTime?
    ensures !range.AllTime? ==>
              ToCents(r.previousNetSpent.value) + ToCents(r.netSpent)
              == SumOf(Counted(payments, me, Within(Some(PreviousDate(range, DayOf(now)) * DAY_MS), now)), Net)
    ensures Increasing(Starts(r.unit))
    ensures r.series == Series(StartsOf(r.series), NetByBucket(payments, me, Starts(r.unit), Within(r.from, now)))
    ensures range.Last12Months? ==> AreLast(StartsOf(r.series), Starts(r.unit), DayOf(now), 12)
  {
    hide NetByBucket, FirstOfMonth, DayOf, Index, Counted, SumOf, ToCents, CentsToMoney, Round, HeldCents;
    var w := ResolveCustomerWindow(range, now);
    StartsIncrease(w.unit);
    var span := Within(w.from, now);
    var totals := TotalsOf(payments, me, span);
    var previous := None;
    if w.previous.Some? {
      var cents := NetCentsBetween(payments, me, w.previous.value.0, w.previous.value.1);
      previous := Some(CentsToMoney(cents));
      PreviousMeets(payments, me, range, now, w);
      MoneyRoundTrip(cents);
      NetIsDifference(Counted(payments, me, span));
    }
    var buckets := ReportBuckets(payments, me, range, now, w);
    ReportConserves(payments, me, range, now, w, buckets);
    var average := if totals.count > 0 then Round(totals.net, totals.count) else 0;
    var series := Series(buckets, NetByBucket(payments, me, Starts(w.unit), span));
    assert StartsOf(series) == buckets;
    PrintedTotals(totals, HeldCents(payments, me), average);
    r := Report(w.unit, w.from, now, HasPaymentsEver(payments, me),
                CentsToMoney(totals.net), CentsToMoney(totals.gross), CentsToMoney(totals.refunded),
                CentsToMoney(HeldCents(payments, me)), CentsToMoney(totals.released),
                totals.count, CentsToMoney(average), previous, series);
  }

  lemma PrintedTotals(totals: SpendTotals, held: int, average: int)
    ensures ToCents(CentsToMoney(totals.net)) == totals.net
    ensures ToCents(CentsToMoney(totals.gross)) == totals.gross
    ensures ToCents(CentsToMoney(totals.refunded)) == totals.refunded
    ensures ToCents(CentsToMoney(totals.released)) == totals.released
    ensures ToCents(CentsToMoney(held)) == held && ToCents(CentsToMoney(average)) == average
    ensures totals.count > 0 && average == Round(totals.net, totals.count) ==>
              -totals.count <= 2 * (totals.count * average - totals.net) <= totals.count
  {
    MoneyRoundTrip(totals.net);
    MoneyRoundTrip(totals.gross);
    MoneyRoundTrip(totals.refunded);
    MoneyRoundTrip(totals.released);
    MoneyRoundTrip(held);
    MoneyRoundTrip(average);
    if totals.count > 0 {
      RoundIsNearest(totals.net, totals.count);
    }
  }

  // ─── The overview ──────────────────────────────────────────────────────────────

  datatype MonthSpend = MonthSpend(month: int, netSpent: string)

  datatype OverviewSpend = OverviewSpend(
    hasPaymentsEver: bool, thisMonth: string, lastMonth: string, held: string, last6Months: seq<MonthSpend>)

  function LastSix(payments: seq<Payment>, me: nat, starts: int -> int, now: int): (months: seq<MonthSpend>)
    requires Increasing(starts)
    ensures |months| == 6
  {
    var today := DayOf(now);
    var found := NetByBucket(payments, me, starts, Within(Some(StartBack(starts, today, 5) * DAY_MS), now));
    seq(6, i requires 0 <= i < 6 =>
      var month := StartBack(starts, today, 5 - i);
      MonthSpend(month, CentsToMoney(Hit(found, month).cents)))
  }

  /** `buildSpend`, whatever a month is. */
  function SpendBy(payments: seq<Payment>, me: nat, starts: int -> int, now: int): OverviewSpend
    requires Increasing(starts)
  {
    var months := LastSix(payments, me, starts, now);
    OverviewSpend(HasPaymentsEver(payments, me), months[5].netSpent, months[4].netSpent,
                  CentsToMoney(HeldCents(payments, me)), months)
  }

  function BuildSpend(payments: seq<Payment>, me: nat, now: int): OverviewSpend {
    MonthsIncrease();
    SpendBy(payments, me, FirstOfMonth, now)
  }

  /** A longer window changes nothing in a bucket that starts inside the shorter one. */
  lemma SameHit(payments: seq<Payment>, me: nat, starts: int -> int, now: int, longer: int, shorter: int, b: int)
    requires Increasing(starts) && longer <= shorter <= b
    ensures var near := Within(Some(shorter * DAY_MS), now);
            var far := Within(Some(longer * DAY_MS), now);
            Hit(NetByBucket(payments, me, starts, near), b) == Hit(NetByBucket(payments, me, starts, far), b)
  {
    var near, far := Within(Some(shorter * DAY_MS), now), Within(Some(longer * DAY_MS), now);
    var key := KeyOf(starts);
    forall p | p in payments && key(p) == b ensures Selected(me, near)(p) == Selected(me, far)(p) {
      LaterInstant(shorter, p.at);
      LaterInstant(longer, p.at);
    }
    SumAtAgrees(Selected(me, near), Selected(me, far), payments, key, Net, b);
    SumAtAgrees(Selected(me, near), Selected(me, far), payments, key, One, b);
    HitIsSum(payments, me, starts, near, b);
    HitIsSum(payments, me, starts, far, b);
  }

  /** The six months of the overview are the tail of the report's twelve. */
  lemma LastSixIsTail(payments: seq<Payment>, me: nat, starts: int -> int, now: int, series: seq<Point>)
    requires Increasing(starts) && AreLast(StartsOf(series), starts, DayOf(now), 12)
    requires var from := Some(StartBack(starts, DayOf(now), 11) * DAY_MS);
             series == Series(StartsOf(series), NetByBucket(payments, me, starts, Within(from, now)))
    ensures forall i :: 0 <= i < 6 ==>
              LastSix(payments, me, starts, now)[i] == MonthSpend(series[6 + i].bucketStart, series[6 + i].netSpent)
  {
    forall i | 0 <= i < 6
      ensures LastSix(payments, me, starts, now)[i] == MonthSpend(series[6 + i].bucketStart, series[6 + i].netSpent)
    {
      SameMonth(payments, me, starts, now, i);
      assert StartsOf(series)[6 + i] == StartBack(starts, DayOf(now), 5 - i);
    }
  }

  lemma SameMonth(payments: seq<Payment>, me: nat, starts: int -> int, now: int, i: nat)
    requires Increasing(starts) && i < 6
    ensures var today := DayOf(now);
            var month := StartBack(starts, today, 5 - i);
            var year := NetByBucket(payments, me, starts, Within(Some(StartBack(starts, today, 11) * DAY_MS), now));
            LastSix(payments, me, starts, now)[i] == MonthSpend(month, CentsToMoney(Hit(year, month).cents))
  {
    hide NetByBucket, DayOf, Index;
    var today := DayOf(now);
    var k := Index(starts, today);
    Apart(starts, k - 11, k - 5);
    Apart(starts, k - 5, k - (5 - i));
    SameHit(payments, me, starts, now, StartBack(starts, today, 11), StartBack(starts, today, 5), StartBack(starts, today, 5 - i));
  }

  /** The overview shows the last months of the yearly report, and the same amount held. */
  lemma PagesAgree(payments: seq<Payment>, me: nat, starts: int -> int, now: int, report: Report)
    requires Increasing(starts) && AreLast(StartsOf(report.series), starts, DayOf(now), 12)
    requires report.from == Some(StartBack(starts, DayOf(now), 11) * DAY_MS)
    requires report.series == Series(StartsOf(report.series), NetByBucket(payments, me, starts, Within(report.from, now)))
    requires report.held == CentsToMoney(HeldCents(payments, me))
    ensures |report.series| == 12
    ensures var overview := SpendBy(payments, me, starts, now);
            && (forall i :: 0 <= i < 6 ==>
                  overview.last6Months[i] == MonthSpend(report.series[6 + i].bucketStart, report.series[6 + i].netSpent))
            && overview.thisMonth == report.series[11].netSpent && overview.lastMonth == report.series[10].netSpent
            && overview.held == report.held && overview.hasPaymentsEver == HasPaymentsEver(payments, me)
  {
    LastSixIsTail(payments, me, starts, now, report.series);
    var months := LastSix(payments, me, starts, now);
    assert months[5].netSpent == report.series[11].netSpent && months[4].netSpent == report.series[10].netSpent;
  }

  /** So `buildSpend` agrees with what `Build` returns for the twelve months. */
  lemma OverviewIsTail(payments: seq<Payment>, me: nat, now: int, report: Report)
    requires Increasing(FirstOfMonth) && AreLast(StartsOf(report.series), FirstOfMonth, DayOf(now), 12)
    requires report.from == Some(FirstDate(Last12Months, DayOf(now)) * DAY_MS)
    requires report.series
             == Series(StartsOf(report.series), NetByBucket(payments, me, FirstOfMonth, Within(report.from, now)))
    requires report.held == CentsToMoney(HeldCents(payments, me))
    ensures |report.series| == 12
    ensures var overview := BuildSpend(payments, me, now);
            && (forall i :: 0 <= i < 6 ==>
                  overview.last6Months[i] == MonthSpend(report.series[6 + i].bucketStart, report.series[6 + i].netSpent))
            && overview.thisMonth == report.series[11].netSpent && overview.lastMonth == report.series[10].netSpent
            && overview.held == report.held && overview.hasPaymentsEver == HasPaymentsEver(payments, me)
  {
    PagesAgree(payments, me, FirstOfMonth, now, report);
  }

  /** The two pages, computed from the same payments, for any customer at any time. */
  method BothPages(payments: seq<Payment>, me: nat, now: int) returns (report: Report, overview: OverviewSpend)
    ensures overview == BuildSpend(payments, me, now) && |report.series| == 12
    ensures forall i :: 0 <= i < 6 ==>
              overview.last6Months[i] == MonthSpend(report.series[6 + i].bucketStart, report.series[6 + i].netSpent)
    ensures overview.thisMonth == report.series[11].netSpent && overview.lastMonth == report.series[10].netSpent
    ensures overview.held == report.held && overview.hasPaymentsEver == report.hasPaymentsEver
    ensures SumOf(report.series, PointCents) == ToCents(report.netSpent)
  {
    hide FirstOfMonth, NetByBucket, Series, FirstDate, SpendBy, BuildSpend, SumOf, HeldCents, HasPaymentsEver, Counted;
    hide AreLast, ToCents, CentsToMoney, DayOf, TotalsOf;
    report := Build(payments, me, Last12Months, now);
    overview := BuildSpend(payments, me, now);
    OverviewIsTail(payments, me, now, report);
  }
}

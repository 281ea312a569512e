/** The periods of the customer's spending report: src/customer-insights/customer-range.ts. */
module CustomerRange {
  import opened Wrappers
  import opened Buckets
  import opened Calendar

  datatype Range = Last30Days | Last90Days | Last12Months | AllTime

  /** Instants are in milliseconds; `from` is inclusive, and absent for all time. */
  datatype Window = Window(unit: Unit, from: Option<int>, to: int, buckets: seq<int>, previous: Option<(int, int)>)

  function UnitOf(range: Range): Unit {
    match range
    case Last30Days => DayUnit
    case Last90Days => WeekUnit
    case Last12Months => MonthUnit
    case AllTime => MonthUnit
  }

  /** The first date of the period. */
  function FirstDate(range: Range, today: int): int
    requires !range.AllTime?
  {
    match range
    case Last30Days => today - 29
    case Last90Days => today - 89
    case Last12Months => StartOfMonth(today, 11)
  }

  /** The first date of the period before it. */
  function PreviousDate(range: Range, today: int): int
    requires !range.AllTime?
  {
    match range
    case Last30Days => today - 59
    case Last90Days => today - 179
    case Last12Months => StartOfMonth(today, 23)
  }

  /** What a window must say about its range. */
  ghost predicate IsWindow(w: Window, range: Range, now: int) {
    && w.unit == UnitOf(range)
    && w.to == now
    && if range.AllTime? then
         w.from.None? && w.buckets == [] && w.previous.None?
       else
         var today, starts := DayOf(now), Starts(w.unit);
         && w.from == Some(FirstDate(range, today) * DAY_MS)
         && w.previous == Some((PreviousDate(range, today) * DAY_MS, w.from.value))
         && FirstDate(range, today) <= today
         && Increasing(starts)
         && Lists(w.buckets, starts, BucketStart(starts, FirstDate(range, today)), today)
  }

  /** `monthBucketsBetween`, on dates. */
  method MonthBucketsBetween(first: int, last: int) returns (out: seq<int>)
    ensures Increasing(FirstOfMonth) && Lists(out, FirstOfMonth, BucketStart(FirstOfMonth, first), last)
  {
    MonthsIncrease();
    out := BucketsBetween(FirstOfMonth, first, last);
  }

  /** The weeks of the 90-day range: a cursor that steps by seven days. */
  method WeekBuckets(from: int, today: int) returns (buckets: seq<int>)
    ensures Increasing(Monday) && Lists(buckets, Monday, StartOfIsoWeek(from), today)
  {
    buckets := [];
    var w := StartOfIsoWeek(from);
    IsoWeekIsBucket(from);
    BucketIsInterval(Monday, from, from);
    while w <= today
      invariant BucketStart(Monday, w) == w && StartOfIsoWeek(from) <= w
      invariant Lists(buckets, Monday, StartOfIsoWeek(from), w - 1)
      invariant forall b :: b in buckets ==> b <= today
      decreases today - w
    {
      ListGrows(buckets, Monday, StartOfIsoWeek(from), w);
      IsoWeekIsBucket(w);
      BucketIsInterval(Monday, w, w);
      buckets := buckets + [w];
      w := w + 7;
    }
    ListEnds(buckets, Monday, StartOfIsoWeek(from), w, today);
  }

  method LastThirtyDays(now: int) returns (w: Window)
    ensures IsWindow(w, Last30Days, now) && |w.buckets| == 30
  {
    var today := DayOf(now);
    var from := today - 29;
    var buckets := seq(30, i requires 0 <= i < 30 => from + i);
    DayIsBucket(from);
    ConsecutiveStarts(Same, from, 30, today);
    assert buckets == Run(Same, from, 30);
    w := Window(DayUnit, Some(from * DAY_MS), now, buckets, Some((from * DAY_MS - 30 * DAY_MS, from * DAY_MS)));
  }

  method LastNinetyDays(now: int) returns (w: Window)
    ensures IsWindow(w, Last90Days, now)
  {
    var today := DayOf(now);
    var from := today - 89;
    IsoWeekIsBucket(from);
    var buckets := WeekBuckets(from, today);
    w := Window(WeekUnit, Some(from * DAY_MS), now, buckets, Some((from * DAY_MS - 90 * DAY_MS, from * DAY_MS)));
  }

  lemma TwelveMonths(today: int, buckets: seq<int>)
    requires Increasing(FirstOfMonth)
    requires Lists(buckets, FirstOfMonth, BucketStart(FirstOfMonth, StartOfMonth(today, 11)), today)
    ensures StartOfMonth(today, 11) <= today && AreLast(buckets, FirstOfMonth, today, 12)
  {
    hide FirstOfMonth;
    LastOnes(buckets, FirstOfMonth, today, 12);
  }

  method LastTwelveMonths(now: int) returns (w: Window)
    ensures IsWindow(w, Last12Months, now)
    ensures AreLast(w.buckets, FirstOfMonth, DayOf(now), 12)
  {
    var today := DayOf(now);
    var from := StartOfMonth(today, 11);
    var buckets := MonthBucketsBetween(from, today);
    TwelveMonths(today, buckets);
    w := Window(MonthUnit, Some(from * DAY_MS), now, buckets, Some((StartOfMonth(today, 23) * DAY_MS, from * DAY_MS)));
  }

  /** The window of a range. */
  method ResolveCustomerWindow(range: Range, now: int) returns (w: Window)
    ensures IsWindow(w, range, now)
    ensures range.Last30Days? ==> |w.buckets| == 30
    ensures Increasing(FirstOfMonth) && (range.Last12Months? ==> AreLast(w.buckets, FirstOfMonth, DayOf(now), 12))
  {
    MonthsIncrease();
    match range {
      case Last30Days => w := LastThirtyDays(now);
      case Last90Days => w := LastNinetyDays(now);
      case Last12Months => w := LastTwelveMonths(now);
      case AllTime => w := Window(MonthUnit, None, now, [], None);
    }
  }
}

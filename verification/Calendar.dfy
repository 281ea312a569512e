/**
 * The calendar arithmetic of src/customer-insights/customer-range.ts, in Accra time, which is UTC.
 * An instant is a number of milliseconds since 1 January 1970, a date is a day number since then,
 * and a month is counted as 12 * year + (month - 1), in the Gregorian calendar (section 3.2.1 of
 * ISO 8601:2004). Weeks start on Monday (section 3.2.2).
 */
module Calendar {
  import opened Buckets

  const DAY_MS := 86_400_000

  /** The date an instant falls on. */
  function DayOf(t: int): int {
    t / DAY_MS
  }

  // ─── Months ────────────────────────────────────────────────────────────────────

  predicate IsLeap(year: int) {
    year % 4 == 0 && (year % 100 != 0 || year % 400 == 0)
  }

  /** The number of days of a month; January is month 0 of its year. */
  function DaysIn(month: int): (days: int)
    ensures 28 <= days <= 31
  {
    var m := month % 12;
    if m == 1 then (if IsLeap(month / 12) then 29 else 28)
    else if m == 3 || m == 5 || m == 8 || m == 10 then 30
    else 31
  }

  const JANUARY_1970 := 12 * 1970

  /** The date of the first of a month, whatever its year: `Date.UTC` with any month number. */
  function FirstOfMonth(month: int): int
    decreases if month >= JANUARY_1970 then month - JANUARY_1970 else JANUARY_1970 - month
  {
    if month == JANUARY_1970 then 0
    else if month > JANUARY_1970 then FirstOfMonth(month - 1) + DaysIn(month - 1)
    else FirstOfMonth(month + 1) - DaysIn(month)
  }

  lemma MonthsIncrease()
    ensures Increasing(FirstOfMonth)
  {
    forall k ensures Grows(FirstOfMonth, k) {
      assert FirstOfMonth(k + 1) == FirstOfMonth(k) + DaysIn(k);
    }
  }

  /** The month a date falls in: `getUTCFullYear` and `getUTCMonth`. */
  function MonthOf(date: int): int {
    MonthsIncrease();
    Index(FirstOfMonth, date)
  }

  /** `startOfMonth`: the first of the month so many months before the date's month. */
  function StartOfMonth(date: int, monthsBack: int): int {
    MonthsIncrease();
    StartBack(FirstOfMonth, date, monthsBack)
  }

  // ─── Weeks ─────────────────────────────────────────────────────────────────────

  /** 0 = Sunday; 1 January 1970 was a Thursday. */
  function DayOfWeek(date: int): int {
    (date + 4) % 7
  }

  /** `startOfIsoWeek`. */
  function StartOfIsoWeek(date: int): int {
    date - (DayOfWeek(date) + 6) % 7
  }

  /** The Mondays, counted from the one three days before the epoch. */
  function Monday(week: int): int {
    7 * week - 3
  }

  lemma MondaysIncrease()
    ensures Increasing(Monday)
  {
  }

  /** `startOfIsoWeek` gives the Monday that starts the week of the date. */
  lemma IsoWeekIsBucket(date: int)
    ensures Increasing(Monday)
    ensures StartOfIsoWeek(date) == BucketStart(Monday, date)
    ensures NextStart(Monday, date) == StartOfIsoWeek(date) + 7
    ensures DayOfWeek(StartOfIsoWeek(date)) == 1
  {
    MondaysIncrease();
    var q, r := (date + 3) / 7, (date + 3) % 7;
    assert date + 3 == 7 * q + r;
    assert (DayOfWeek(date) + 6) % 7 == r;
    assert (7 * q + 1) % 7 == 1;
    IndexIs(Monday, date, q);
  }

  // ─── Bucket sizes ──────────────────────────────────────────────────────────────

  datatype Unit = DayUnit | WeekUnit | MonthUnit

  function Same(date: int): int {
    date
  }

  function Starts(unit: Unit): int -> int {
    match unit
    case DayUnit => Same
    case WeekUnit => Monday
    case MonthUnit => FirstOfMonth
  }

  lemma StartsIncrease(unit: Unit)
    ensures Increasing(Starts(unit))
  {
    MonthsIncrease();
    MondaysIncrease();
  }

  lemma DayIsBucket(date: int)
    ensures Increasing(Same) && BucketStart(Same, date) == date && NextStart(Same, date) == date + 1
  {
    assert Increasing(Same);
    IndexIs(Same, date, date);
  }

  lemma MonthIsBucket(date: int)
    ensures Increasing(FirstOfMonth)
    ensures StartOfMonth(date, 0) == BucketStart(FirstOfMonth, date)
  {
    MonthsIncrease();
  }

  // ─── The same dates in closed form ───────────────────────────────────────────────

  /** Days from 1 January of year 0 to 1 January of `year`. */
  function DaysBeforeYear(year: int): int {
    365 * year + (year + 3) / 4 - (year + 99) / 100 + (year + 399) / 400
  }

  /** Days of the year before the month. */
  function DaysBeforeMonth(year: int, month: int): int
    requires 0 <= month < 12
  {
    (if month == 0 then 0 else if month == 1 then 31 else if month == 2 then 59 else if month == 3 then 90
     else if month == 4 then 120 else if month == 5 then 151 else if month == 6 then 181 else if month == 7 then 212
     else if month == 8 then 243 else if month == 9 then 273 else if month == 10 then 304 else 334)
    + (if IsLeap(year) && month > 1 then 1 else 0)
  }

  function ClosedForm(month: int): int {
    DaysBeforeYear(month / 12) + DaysBeforeMonth(month / 12, month % 12) - DaysBeforeYear(1970)
  }

  lemma YearLength(year: int)
    ensures DaysBeforeYear(year + 1) == DaysBeforeYear(year) + if IsLeap(year) then 366 else 365
  {
    FourthYear(year);
    HundredthYear(year);
    FourHundredthYear(year);
  }

  lemma FourthYear(year: int)
    ensures (year + 4) / 4 - (year + 3) / 4 == if year % 4 == 0 then 1 else 0
  {
  }

  lemma HundredthYear(year: int)
    ensures (year + 100) / 100 - (year + 99) / 100 == if year % 100 == 0 then 1 else 0
    ensures year % 100 == 0 ==> year % 4 == 0
  {
  }

  lemma FourHundredthYear(year: int)
    ensures (year + 400) / 400 - (year + 399) / 400 == if year % 400 == 0 then 1 else 0
    ensures year % 400 == 0 ==> year % 100 == 0
  {
  }

  lemma ClosedFormStep(month: int)
    ensures ClosedForm(month + 1) == ClosedForm(month) + DaysIn(month)
  {
    var y, m := month / 12, month % 12;
    if m == 11 {
      YearLength(y);
      assert (month + 1) / 12 == y + 1 && (month + 1) % 12 == 0;
    } else {
      assert (month + 1) / 12 == y && (month + 1) % 12 == m + 1;
    }
  }

  lemma EpochStart()
    ensures ClosedForm(JANUARY_1970) == 0
  {
    assert JANUARY_1970 / 12 == 1970 && JANUARY_1970 % 12 == 0;
  }

  /** Counting months one by one gives the Gregorian day count. */
  lemma {:induction false} FirstOfMonthIsGregorian(month: int)
    ensures FirstOfMonth(month) == ClosedForm(month)
    decreases if month >= JANUARY_1970 then month - JANUARY_1970 else JANUARY_1970 - month
  {
    hide ClosedForm, DaysIn;
    EpochStart();
    if month > JANUARY_1970 {
      FirstOfMonthIsGregorian(month - 1);
      ClosedFormStep(month - 1);
    } else if month < JANUARY_1970 {
      FirstOfMonthIsGregorian(month + 1);
      ClosedFormStep(month);
    }
  }
}

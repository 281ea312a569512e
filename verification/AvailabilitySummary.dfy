/**
 * What a client is told about an artisan: src/availability/availability-summary.ts.
 * Dates are day numbers, day 0 being 1 January 1970; clock times are seconds from midnight, in Accra.
 */
module AvailabilitySummary {
  import opened Wrappers
  import opened Seqs
  import opened Intervals

  datatype Block = Block(startDate: int, endDate: int)

  datatype Slot = Slot(dayOfWeek: int, start: int, end: int)

  datatype Taken = Taken(date: int, start: int, end: int)

  datatype ArtisanStatus = Available | Busy | Unavailable

  datatype Clock = Clock(date: int, time: int)

  const HORIZON_DAYS := 14

  /** 0 = Sunday; 1 January 1970 was a Thursday. */
  function DayOfWeekOf(date: int): int {
    (date + 4) % 7
  }

  predicate Covers(b: Block, date: int) {
    b.startDate <= date <= b.endDate
  }

  predicate TimeOff(blocks: seq<Block>, date: int) {
    exists b :: b in blocks && Covers(b, date)
  }

  // ─── timeOffUntil ──────────────────────────────────────────────────────────────

  /** The last day of the run of covered days that starts at `date`; none when `date` is not covered. */
  ghost predicate EndsTimeOff(blocks: seq<Block>, date: int, until: Option<int>) {
    && (until.None? <==> !TimeOff(blocks, date))
    && (until.Some? ==>
        && date <= until.value
        && (forall d :: date <= d <= until.value ==> TimeOff(blocks, d))
        && !TimeOff(blocks, until.value + 1))
  }

  ghost function LatestEnd(blocks: seq<Block>, floor: int): (latest: int)
    ensures latest >= floor
    ensures forall b :: b in blocks ==> b.endDate <= latest
  {
    if blocks == [] then floor
    else
      assert blocks == [blocks[0]] + blocks[1..];
      Max(blocks[0].endDate, LatestEnd(blocks[1..], floor))
  }

  /** One pass: the furthest end of a block that covers the day reached or the day after it. */
  method Furthest(blocks: seq<Block>, until: int) returns (furthest: int)
    ensures furthest >= until
    ensures furthest == until || exists b :: b in blocks && b.endDate == furthest && (Covers(b, until) || Covers(b, until + 1))
    ensures forall b :: b in blocks && (Covers(b, until) || Covers(b, until + 1)) ==> b.endDate <= furthest
  {
    furthest := until;
    for i := 0 to |blocks|
      invariant furthest >= until
      invariant furthest == until
                || exists b :: b in blocks && b.endDate == furthest && (Covers(b, until) || Covers(b, until + 1))
      invariant forall j :: 0 <= j < i && (Covers(blocks[j], until) || Covers(blocks[j], until + 1))
                            ==> blocks[j].endDate <= furthest
    {
      var b := blocks[i];
      if (Covers(b, until) || Covers(b, until + 1)) && b.endDate > furthest {
        furthest := b.endDate;
      }
    }
  }

  method TimeOffUntil(blocks: seq<Block>, date: int) returns (r: Option<int>)
    ensures EndsTimeOff(blocks, date, r)
  {
    if !TimeOff(blocks, date) {
      return None;
    }
    var until := date;
    while true
      invariant date <= until
      invariant forall d :: date <= d <= until ==> TimeOff(blocks, d)
      decreases LatestEnd(blocks, date) - until
    {
      var furthest := Furthest(blocks, until);
      if furthest == until {
        assert !TimeOff(blocks, until + 1);
        return Some(until);
      }
      ghost var b :| b in blocks && b.endDate == furthest && (Covers(b, until) || Covers(b, until + 1));
      forall d | until < d <= furthest ensures TimeOff(blocks, d) {
        assert Covers(b, d);
      }
      until := furthest;
    }
  }

  /** There is only one such day, so `timeOffUntil` finds the end of the run whatever the order of the blocks. */
  lemma TimeOffEndIsUnique(blocks: seq<Block>, reordered: seq<Block>, date: int, r: Option<int>, q: Option<int>)
    requires forall b :: b in blocks <==> b in reordered
    requires EndsTimeOff(blocks, date, r) && EndsTimeOff(reordered, date, q)
    ensures r == q
  {
    forall d ensures TimeOff(blocks, d) <==> TimeOff(reordered, d) {
    }
    assert r.Some? ==> !TimeOff(blocks, r.value + 1) && !TimeOff(reordered, r.value + 1);
    assert q.Some? ==> !TimeOff(blocks, q.value + 1) && !TimeOff(reordered, q.value + 1);
  }

  // ─── summariseAvailability ─────────────────────────────────────────────────────

  function TakenOn(taken: seq<Taken>, date: int): seq<Window> {
    if taken == [] then []
    else (if taken[0].date == date then [Window(taken[0].start, taken[0].end)] else []) + TakenOn(taken[1..], date)
  }

  lemma {:induction false} TakenOnElements(taken: seq<Taken>, date: int)
    ensures forall w :: w in TakenOn(taken, date) <==> exists b :: b in taken && b.date == date && w == Window(b.start, b.end)
  {
    if taken != [] {
      TakenOnElements(taken[1..], date);
      assert taken == [taken[0]] + taken[1..];
      forall w ensures w in TakenOn(taken, date) <==> exists b :: b in taken && b.date == date && w == Window(b.start, b.end) {
        if w in TakenOn(taken, date) {
          if w in TakenOn(taken[1..], date) {
            var b :| b in taken[1..] && b.date == date && w == Window(b.start, b.end);
            assert b in taken;
          } else {
            assert taken[0] in taken && taken[0].date == date && w == Window(taken[0].start, taken[0].end);
          }
        }
      }
    }
  }

  /** The open windows of a date: each of its weekly slots less what is taken. */
  function OpenWindows(slots: seq<Slot>, date: int, taken: seq<Window>): seq<Window> {
    if slots == [] then []
    else
      (if slots[0].dayOfWeek == DayOfWeekOf(date) then FreeWindows(slots[0].start, slots[0].end, taken) else [])
      + OpenWindows(slots[1..], date, taken)
  }

  /** The artisan works at this instant of this date and nothing is booked then. */
  ghost predicate FreeAt(slots: seq<Slot>, taken: seq<Taken>, date: int, t: int) {
    && (exists s :: s in slots && s.dayOfWeek == DayOfWeekOf(date) && s.start <= t < s.end)
    && (forall b :: b in taken && b.date == date ==> !(b.start <= t < b.end))
  }

  lemma {:induction false} OpenInstants(slots: seq<Slot>, taken: seq<Taken>, date: int, t: int)
    ensures (exists w :: w in OpenWindows(slots, date, TakenOn(taken, date)) && w.start <= t < w.end)
            <==> FreeAt(slots, taken, date, t)
  {
    var occupied := TakenOn(taken, date);
    TakenOnElements(taken, date);
    var unbooked := forall o :: o in occupied ==> !(o.start <= t < o.end);
    assert unbooked <==> forall b :: b in taken && b.date == date ==> !(b.start <= t < b.end) by {
      if unbooked {
        forall b | b in taken && b.date == date ensures !(b.start <= t < b.end) {
          assert Window(b.start, b.end) in occupied;
        }
      }
    }
    OpenInstantsOf(slots, occupied, date, t);
  }

  lemma {:induction false} OpenInstantsOf(slots: seq<Slot>, occupied: seq<Window>, date: int, t: int)
    ensures (exists w :: w in OpenWindows(slots, date, occupied) && w.start <= t < w.end)
            <==> (exists s :: s in slots && s.dayOfWeek == DayOfWeekOf(date) && s.start <= t < s.end)
                 && forall o :: o in occupied ==> !(o.start <= t < o.end)
  {
    if slots != [] {
      var s := slots[0];
      OpenInstantsOf(slots[1..], occupied, date, t);
      InstantFree(s.start, s.end, occupied, t);
      assert slots == [s] + slots[1..];
      var first := if s.dayOfWeek == DayOfWeekOf(date) then FreeWindows(s.start, s.end, occupied) else [];
      assert forall w :: w in OpenWindows(slots, date, occupied)
                         <==> w in first || w in OpenWindows(slots[1..], date, occupied);
    }
  }

  lemma {:induction false} OpenWindowsNotEmpty(slots: seq<Slot>, date: int, occupied: seq<Window>)
    ensures forall w :: w in OpenWindows(slots, date, occupied) ==> w.start < w.end
  {
    if slots != [] {
      OpenWindowsNotEmpty(slots[1..], date, occupied);
      FreeWindowsNotEmpty(slots[0].start, slots[0].end, InOrder(slots[0].start, slots[0].end, occupied));
    }
  }

  lemma {:induction false} FreeWindowsNotEmpty(cursor: int, end: int, occupied: seq<Window>)
    ensures forall w :: w in Pieces(cursor, end, occupied) ==> w.start < w.end
    decreases |occupied|
  {
    if occupied != [] {
      FreeWindowsNotEmpty(Max(cursor, occupied[0].end), end, occupied[1..]);
    }
  }

  /** A client could still book something on the date: some free working instant, not before now when it is today. */
  ghost predicate Bookable(slots: seq<Slot>, blocks: seq<Block>, taken: seq<Taken>, clock: Clock, date: int) {
    && !TimeOff(blocks, date)
    && exists t :: FreeAt(slots, taken, date, t) && (date == clock.date ==> t >= clock.time)
  }

  /** `nextAvailableDate`: the least bookable date of the horizon. */
  ghost predicate IsNextAvailable(
    slots: seq<Slot>, blocks: seq<Block>, taken: seq<Taken>, clock: Clock, horizon: nat, next: Option<int>)
  {
    match next
    case Some(date) =>
      && clock.date <= date < clock.date + horizon
      && Bookable(slots, blocks, taken, clock, date)
      && forall d :: clock.date <= d < date ==> !Bookable(slots, blocks, taken, clock, d)
    case None =>
      forall d :: clock.date <= d < clock.date + horizon ==> !Bookable(slots, blocks, taken, clock, d)
  }

  datatype State = AvailableToday | NextAvailable | OnTimeOff | NoHours | IsBusy | IsUnavailable

  datatype Summary = Summary(
    state: State, today: int, hasWorkingHours: bool, onTimeOffUntil: Option<int>, todayHours: seq<Window>,
    nextAvailableDate: Option<int>, bookable: bool)

  /** The weekly hours of the date's weekday. */
  function HoursOn(slots: seq<Slot>, date: int): seq<Window> {
    if slots == [] then []
    else
      (if slots[0].dayOfWeek == DayOfWeekOf(date) then [Window(slots[0].start, slots[0].end)] else [])
      + HoursOn(slots[1..], date)
  }

  /** The day loop finds something open: a window, that has not yet ended when the date is today. */
  ghost predicate StillOpen(open: seq<Window>, clock: Clock, date: int) {
    exists w :: w in open && (date == clock.date ==> w.end > clock.time)
  }

  /** What the day loop computes for one date is what a client could book on it. */
  lemma DayIsOpen(slots: seq<Slot>, blocks: seq<Block>, taken: seq<Taken>, clock: Clock, date: int)
    requires date >= clock.date && !TimeOff(blocks, date)
    ensures StillOpen(OpenWindows(slots, date, TakenOn(taken, date)), clock, date)
            <==> Bookable(slots, blocks, taken, clock, date)
  {
    var open := OpenWindows(slots, date, TakenOn(taken, date));
    OpenWindowsNotEmpty(slots, date, TakenOn(taken, date));
    if StillOpen(open, clock, date) {
      var w :| w in open && (date == clock.date ==> w.end > clock.time);
      var t := if date == clock.date then Max(w.start, clock.time) else w.start;
      OpenInstants(slots, taken, date, t);
      assert w.start <= t < w.end;
      assert FreeAt(slots, taken, date, t);
    }
    if Bookable(slots, blocks, taken, clock, date) {
      var t :| FreeAt(slots, taken, date, t) && (date == clock.date ==> t >= clock.time);
      OpenInstants(slots, taken, date, t);
      var w :| w in open && w.start <= t < w.end;
      assert w in open && (date == clock.date ==> w.end > clock.time);
    }
  }

  /** The day loop of `summariseAvailability`. */
  method FirstBookableDate(slots: seq<Slot>, blocks: seq<Block>, taken: seq<Taken>, clock: Clock, horizon: nat)
    returns (next: Option<int>)
    ensures IsNextAvailable(slots, blocks, taken, clock, horizon, next)
  {
    next := None;
    var i := 0;
    while i < horizon && slots != []
      invariant 0 <= i <= horizon
      invariant next.None?
      invariant forall d :: clock.date <= d < clock.date + i ==> !Bookable(slots, blocks, taken, clock, d)
    {
      var date := clock.date + i;
      if !TimeOff(blocks, date) {
        var open := OpenWindows(slots, date, TakenOn(taken, date));
        ghost var all := open;
        DayIsOpen(slots, blocks, taken, clock, date);
        if i == 0 {
          open := Filter((w: Window) => w.end > clock.time, open);
        }
        if |open| > 0 {
          assert open[0] in open;
          assert open[0] in all && (date == clock.date ==> open[0].end > clock.time);
          assert StillOpen(all, clock, date);
          return Some(date);
        }
      }
      i := i + 1;
    }
  }

  /** What the summary must say, given its inputs. */
  ghost predicate Describes(
    summary: Summary, status: Option<ArtisanStatus>, slots: seq<Slot>, blocks: seq<Block>, taken: seq<Taken>,
    clock: Clock, horizon: nat)
  {
    && summary.today == clock.date
    && (summary.hasWorkingHours <==> slots != [])
    && EndsTimeOff(blocks, clock.date, summary.onTimeOffUntil)
    && multiset(summary.todayHours) == multiset(HoursOn(slots, clock.date))
    && SortedBy(StartsNoLater, summary.todayHours)
    && IsNextAvailable(slots, blocks, taken, clock, horizon, summary.nextAvailableDate)
    && var working := status != Some(Unavailable) && status != Some(Busy);
    && var openToday := horizon > 0 && Bookable(slots, blocks, taken, clock, clock.date);
    && (summary.state == IsUnavailable <==> status == Some(Unavailable))
    && (summary.state == IsBusy <==> status == Some(Busy))
    && (summary.state == NoHours <==> working && slots == [])
    && (summary.state == OnTimeOff <==> working && slots != [] && TimeOff(blocks, clock.date))
    && (summary.state == AvailableToday <==> working && openToday)
    && (summary.state == NextAvailable <==> working && slots != [] && !TimeOff(blocks, clock.date) && !openToday)
    && (summary.bookable <==>
        && working
        && exists d :: clock.date <= d < clock.date + horizon && Bookable(slots, blocks, taken, clock, d))
  }

  method SummariseAvailability(
    status: Option<ArtisanStatus>, slots: seq<Slot>, blocks: seq<Block>, taken: seq<Taken>, clock: Clock, horizon: nat)
    returns (summary: Summary)
    ensures Describes(summary, status, slots, blocks, taken, clock, horizon)
  {
    var until := TimeOffUntil(blocks, clock.date);
    var next := FirstBookableDate(slots, blocks, taken, clock, horizon);
    var state;
    if status == Some(Unavailable) {
      state := IsUnavailable;
    } else if status == Some(Busy) {
      state := IsBusy;
    } else if slots == [] {
      state := NoHours;
    } else if until.Some? {
      state := OnTimeOff;
    } else if next == Some(clock.date) {
      state := AvailableToday;
    } else {
      state := NextAvailable;
    }
    var bookable := (state.AvailableToday? || state.NextAvailable? || state.OnTimeOff?) && next.Some?;
    StartsOrder();
    var hours := Sort(StartsNoLater, HoursOn(slots, clock.date));
    summary := Summary(state, clock.date, slots != [], until, hours, next, bookable);
  }

  /** The next available date comes after the time off that covers today. */
  lemma NextAfterTimeOff(
    summary: Summary, status: Option<ArtisanStatus>, slots: seq<Slot>, blocks: seq<Block>, taken: seq<Taken>,
    clock: Clock, horizon: nat)
    requires Describes(summary, status, slots, blocks, taken, clock, horizon)
    requires summary.onTimeOffUntil.Some? && summary.nextAvailableDate.Some?
    ensures summary.nextAvailableDate.value > summary.onTimeOffUntil.value
  {
    assert !TimeOff(blocks, summary.nextAvailableDate.value);
  }

  // ─── The search filter ─────────────────────────────────────────────────────────

  /** The NOW branch of `applySearchFilters`. */
  ghost predicate MatchesNow(status: Option<ArtisanStatus>, slots: seq<Slot>, blocks: seq<Block>, clock: Clock) {
    && status == Some(Available)
    && (exists s :: s in slots && s.dayOfWeek == DayOfWeekOf(clock.date) && s.start <= clock.time < s.end)
    && !(exists b :: b in blocks && b.startDate <= clock.date && b.endDate >= clock.date)
  }

  /** The THIS_WEEK branch: one alternative for each of the next seven days. */
  ghost predicate MatchesThisWeek(status: Option<ArtisanStatus>, slots: seq<Slot>, blocks: seq<Block>, clock: Clock) {
    && status == Some(Available)
    && exists date :: clock.date <= date < clock.date + 7 && WorksOn(slots, blocks, date)
  }

  ghost predicate WorksOn(slots: seq<Slot>, blocks: seq<Block>, date: int) {
    && (exists s :: s in slots && s.dayOfWeek == DayOfWeekOf(date))
    && !(exists b :: b in blocks && b.startDate <= date && b.endDate >= date)
  }

  /** A card that names a date within the week belongs to an artisan the THIS_WEEK filter finds. */
  lemma DateWithinWeekIsFound(
    summary: Summary, status: Option<ArtisanStatus>, slots: seq<Slot>, blocks: seq<Block>, taken: seq<Taken>,
    clock: Clock, horizon: nat)
    requires Describes(summary, status, slots, blocks, taken, clock, horizon)
    requires status == Some(Available)
    requires summary.nextAvailableDate.Some? && summary.nextAvailableDate.value < clock.date + 7
    ensures MatchesThisWeek(status, slots, blocks, clock)
  {
    var date := summary.nextAvailableDate.value;
    var t :| FreeAt(slots, taken, date, t) && (date == clock.date ==> t >= clock.time);
    var s :| s in slots && s.dayOfWeek == DayOfWeekOf(date) && s.start <= t < s.end;
    assert forall b :: b in blocks ==> !Covers(b, date);
    assert WorksOn(slots, blocks, date);
  }

  /** An artisan the NOW filter finds, with nothing booked today, is shown as available today. */
  lemma NowShowsAvailableToday(
    summary: Summary, status: Option<ArtisanStatus>, slots: seq<Slot>, blocks: seq<Block>, taken: seq<Taken>,
    clock: Clock, horizon: nat)
    requires Describes(summary, status, slots, blocks, taken, clock, horizon)
    requires horizon > 0 && MatchesNow(status, slots, blocks, clock)
    requires forall b :: b in taken ==> b.date != clock.date
    ensures summary.state == AvailableToday && summary.nextAvailableDate == Some(clock.date) && summary.bookable
  {
    assert FreeAt(slots, taken, clock.date, clock.time);
    assert !TimeOff(blocks, clock.date);
    assert Bookable(slots, blocks, taken, clock, clock.date);
  }
}

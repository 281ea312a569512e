/** The stored weekly hours and time off, and what is computed from them: src/availability/availability.service.ts. */
module AvailabilityService {
  import opened Wrappers
  import opened Seqs
  import opened Intervals
  import opened AvailabilitySummary
  import opened BookingRows

  datatype SlotRow = SlotRow(id: nat, profile: nat, dayOfWeek: int, start: int, end: int, active: bool)
  {
    predicate OpenOn(artisan: nat, date: int) {
      profile == artisan && dayOfWeek == DayOfWeekOf(date) && active
    }
  }

  datatype BlockRow = BlockRow(profile: nat, block: Block)

  predicate Blocked(blocks: seq<BlockRow>, artisan: nat, date: int) {
    exists b :: b in blocks && b.profile == artisan && Covers(b.block, date)
  }

  /** The request lies in one active weekly slot, on a day without time off, clear of every occupying booking. */
  ghost predicate MayRequest(
    slots: seq<SlotRow>, blocks: seq<BlockRow>, bookings: set<Booking>, artisan: nat, date: int, start: int, end: int)
  {
    && !Blocked(blocks, artisan, date)
    && (exists s :: s in slots && s.OpenOn(artisan, date) && s.start <= start && end <= s.end)
    && forall b :: b in bookings && b.OccupiesOn(artisan, date) ==> !Overlaps(Window(b.start, b.end), start, end)
  }

  /** No two weekly slots of an artisan on one weekday overlap, and none ends before it starts. */
  ghost predicate WellSpaced(slots: seq<SlotRow>) {
    && (forall i :: 0 <= i < |slots| ==> slots[i].start <= slots[i].end)
    && (forall i, j :: 0 <= i < |slots| && 0 <= j < |slots| && i != j ==>
          && slots[i].id != slots[j].id
          && (slots[i].profile == slots[j].profile && slots[i].dayOfWeek == slots[j].dayOfWeek ==>
              !Overlaps(Window(slots[i].start, slots[i].end), slots[j].start, slots[j].end)))
  }

  /**
   * `assertValidTimes` on an update. Times are compared as strings, "HH:MM" when they come with the
   * request and "HH:MM:SS" when they are stored, so a new start that equals the stored end passes.
   */
  predicate ValidUpdate(start: int, end: int, newStart: bool, newEnd: bool) {
    start < end || (start == end && newStart && !newEnd)
  }

  /** The row that `assertNoOverlap` looks for; inactive slots count too. */
  predicate Clashes(slots: seq<SlotRow>, profile: nat, day: int, start: int, end: int, except: Option<nat>) {
    exists s :: s in slots && s.profile == profile && s.dayOfWeek == day
                && Overlaps(Window(s.start, s.end), start, end) && except != Some(s.id)
  }

  ghost function RowsOf(bookings: seq<Booking>): set<Booking> {
    set b | b in bookings
  }

  function OccupiedOn(bookings: seq<Booking>, artisan: nat, date: int): seq<Window> {
    if bookings == [] then []
    else
      (if bookings[0].OccupiesOn(artisan, date) then [Window(bookings[0].start, bookings[0].end)] else [])
      + OccupiedOn(bookings[1..], artisan, date)
  }

  lemma {:induction false} OccupiedOnElements(bookings: seq<Booking>, artisan: nat, date: int)
    ensures forall w :: w in OccupiedOn(bookings, artisan, date)
                        <==> exists b :: b in bookings && b.OccupiesOn(artisan, date) && w == Window(b.start, b.end)
  {
    if bookings != [] {
      OccupiedOnElements(bookings[1..], artisan, date);
      assert bookings == [bookings[0]] + bookings[1..];
      forall w | w in OccupiedOn(bookings, artisan, date)
        ensures exists b :: b in bookings && b.OccupiesOn(artisan, date) && w == Window(b.start, b.end)
      {
        if w in OccupiedOn(bookings[1..], artisan, date) {
          var b :| b in bookings[1..] && b.OccupiesOn(artisan, date) && w == Window(b.start, b.end);
          assert b in bookings;
        } else {
          assert bookings[0] in bookings;
        }
      }
    }
  }

  predicate OpensNoLater(a: SlotRow, b: SlotRow) {
    a.start <= b.start
  }

  lemma OpeningsOrder()
    ensures TotalPreorder(OpensNoLater)
  {
  }

  /** The active weekly slots of the date's weekday, in order of their start. */
  function DaySlots(slots: seq<SlotRow>, artisan: nat, date: int): seq<SlotRow> {
    OpeningsOrder();
    Sort(OpensNoLater, Filter((s: SlotRow) => s.OpenOn(artisan, date), slots))
  }

  lemma DaySlotsElements(slots: seq<SlotRow>, artisan: nat, date: int)
    ensures forall s :: s in DaySlots(slots, artisan, date) <==> s in slots && s.OpenOn(artisan, date)
    ensures SortedBy(OpensNoLater, DaySlots(slots, artisan, date))
  {
    OpeningsOrder();
    SortKeepsElements(OpensNoLater, Filter((s: SlotRow) => s.OpenOn(artisan, date), slots));
  }

  class Calendar {
    var slots: seq<SlotRow>
    var blocks: seq<BlockRow>

    ghost predicate Valid()
      reads this
    {
      WellSpaced(slots)
    }

    constructor ()
      ensures Valid() && slots == [] && blocks == []
    {
      slots, blocks := [], [];
    }

    method AddSlot(id: nat, profile: nat, day: int, start: int, end: int) returns (added: bool)
      requires Valid() && forall s :: s in slots ==> s.id != id
      modifies this`slots
      ensures Valid()
      ensures added <==> start < end && !Clashes(old(slots), profile, day, start, end, None)
      ensures slots == if added then old(slots) + [SlotRow(id, profile, day, start, end, true)] else old(slots)
    {
      added := start < end && !Clashes(slots, profile, day, start, end, None);
      if added {
        assert forall i :: 0 <= i < |slots| ==> slots[i] in slots;
        slots := slots + [SlotRow(id, profile, day, start, end, true)];
      }
    }

    method UpdateSlot(
      profile: nat, i: nat, day: Option<int>, start: Option<int>, end: Option<int>, active: Option<bool>)
      returns (updated: bool)
      requires Valid() && i < |slots| && slots[i].profile == profile
      modifies this`slots
      ensures Valid()
      ensures var was := old(slots)[i];
              var now := was.(dayOfWeek := day.GetOr(was.dayOfWeek), start := start.GetOr(was.start),
                              end := end.GetOr(was.end), active := active.GetOr(was.active));
              && (updated <==> ValidUpdate(now.start, now.end, start.Some?, end.Some?)
                               && !Clashes(old(slots), profile, now.dayOfWeek, now.start, now.end, Some(was.id)))
              && slots == if updated then old(slots)[i := now] else old(slots)
    {
      var slot := slots[i];
      var nextDay, nextStart, nextEnd := day.GetOr(slot.dayOfWeek), start.GetOr(slot.start), end.GetOr(slot.end);
      updated := ValidUpdate(nextStart, nextEnd, start.Some?, end.Some?)
                 && !Clashes(slots, profile, nextDay, nextStart, nextEnd, Some(slot.id));
      if updated {
        assert forall j :: 0 <= j < |slots| ==> slots[j] in slots;
        slots := slots[i := slot.(dayOfWeek := nextDay, start := nextStart, end := nextEnd, active := active.GetOr(slot.active))];
      }
    }

    method RemoveSlot(i: nat)
      requires Valid() && i < |slots|
      modifies this`slots
      ensures Valid() && slots == old(slots)[..i] + old(slots)[i + 1..]
    {
      slots := slots[..i] + slots[i + 1..];
    }

    /**
     * `computeBookableWindows`: a request fits one of the returned windows exactly when it may be made.
     * The windows are in order and disjoint.
     */
    method ComputeBookableWindows(artisan: nat, date: int, bookings: seq<Booking>) returns (result: seq<Window>)
      requires Valid()
      ensures forall a, b :: a < b ==>
                (FitsSome(result, a, b) <==> MayRequest(slots, blocks, RowsOf(bookings), artisan, date, a, b))
      ensures (forall b :: b in bookings ==> b.start <= b.end) ==> Ordered(result, false)
    {
      hide WindowsOf, DaySlots, OccupiedOn;
      result := [];
      if Blocked(blocks, artisan, date) {
        return;
      }
      var daySlots := DaySlots(slots, artisan, date);
      var occupied := OccupiedOn(bookings, artisan, date);
      result := CollectWindows(daySlots, occupied);
      WindowsAreRequests(slots, blocks, bookings, artisan, date);
      if forall b :: b in bookings ==> b.start <= b.end {
        ghost var floor := SomeFloor(slots);
        DaySlotsApart(slots, artisan, date, floor);
        OccupiedOnElements(bookings, artisan, date);
        WindowsOfOrdered(daySlots, occupied, floor);
      }
    }
  }

  /** The windows of one weekly slot after the other. */
  function WindowsOf(daySlots: seq<SlotRow>, occupied: seq<Window>): seq<Window> {
    if daySlots == [] then []
    else FreeWindows(daySlots[0].start, daySlots[0].end, occupied) + WindowsOf(daySlots[1..], occupied)
  }

  /** The loop over the slots of the day. */
  method CollectWindows(daySlots: seq<SlotRow>, occupied: seq<Window>) returns (result: seq<Window>)
    ensures result == WindowsOf(daySlots, occupied)
  {
    hide FreeWindows;
    result := [];
    assert daySlots[0..] == daySlots;
    for i := 0 to |daySlots|
      invariant WindowsOf(daySlots, occupied) == result + WindowsOf(daySlots[i..], occupied)
    {
      var pieces := SubtractOccupied(daySlots[i].start, daySlots[i].end, occupied);
      assert daySlots[i..][1..] == daySlots[i + 1..];
      result := result + pieces;
    }
  }

  ghost predicate InOneSlot(daySlots: seq<SlotRow>, a: int, b: int) {
    exists s :: s in daySlots && s.start <= a && b <= s.end
  }

  lemma {:induction false} WindowsOfFit(daySlots: seq<SlotRow>, occupied: seq<Window>, a: int, b: int)
    requires a < b
    ensures FitsSome(WindowsOf(daySlots, occupied), a, b) <==> InOneSlot(daySlots, a, b) && NoneOverlaps(occupied, a, b)
  {
    if daySlots != [] {
      var s := daySlots[0];
      WindowsOfFit(daySlots[1..], occupied, a, b);
      FreeExactly(s.start, s.end, occupied, a, b);
      FitsJoin(FreeWindows(s.start, s.end, occupied), WindowsOf(daySlots[1..], occupied), a, b);
      assert daySlots == [s] + daySlots[1..];
    }
  }

  lemma {:induction false} NothingLeft(cursor: int, end: int, occupied: seq<Window>)
    requires end <= cursor && forall o :: o in occupied ==> o.start < end
    ensures Pieces(cursor, end, occupied) == []
    decreases |occupied|
  {
    if occupied != [] {
      assert occupied == [occupied[0]] + occupied[1..];
      NothingLeft(Max(cursor, occupied[0].end), end, occupied[1..]);
    }
  }

  /** An empty slot offers nothing. */
  lemma EmptySlotOffersNothing(time: int, occupied: seq<Window>)
    ensures FreeWindows(time, time, occupied) == []
  {
    StartsOrder();
    SortKeepsElements(StartsNoLater, Filter((o: Window) => o.end > time && o.start < time, occupied));
    NothingLeft(time, time, InOrder(time, time, occupied));
  }

  /** Slots that take time come one after the other, from `floor` on; empty ones may lie anywhere. */
  ghost predicate OneAfterOther(daySlots: seq<SlotRow>, floor: int) {
    && (forall k :: 0 <= k < |daySlots| ==> daySlots[k].start <= daySlots[k].end)
    && (forall k :: 0 <= k < |daySlots| && daySlots[k].start < daySlots[k].end ==> floor <= daySlots[k].start)
    && (forall j, k :: 0 <= j < k < |daySlots| && daySlots[j].start < daySlots[j].end && daySlots[k].start < daySlots[k].end
                       ==> daySlots[j].end <= daySlots[k].start)
  }

  lemma {:induction false} WindowsOfOrdered(daySlots: seq<SlotRow>, occupied: seq<Window>, floor: int)
    requires OneAfterOther(daySlots, floor) && forall o :: o in occupied ==> o.start <= o.end
    ensures Ordered(WindowsOf(daySlots, occupied), false)
    ensures forall w :: w in WindowsOf(daySlots, occupied) ==> floor <= w.start
  {
    hide FreeWindows;
    if daySlots != [] {
      var s, rest := daySlots[0], daySlots[1..];
      if s.start == s.end {
        EmptySlotOffersNothing(s.start, occupied);
        WindowsOfOrdered(rest, occupied, floor);
        assert WindowsOf(daySlots, occupied) == WindowsOf(rest, occupied);
      } else {
        WindowsOfOrdered(rest, occupied, s.end);
        FreeWindowsOrdered(s.start, s.end, occupied, false);
        OrderedJoin(FreeWindows(s.start, s.end, occupied), WindowsOf(rest, occupied), s.end);
      }
    }
  }

  lemma FitsJoin(xs: seq<Window>, ys: seq<Window>, a: int, b: int)
    ensures FitsSome(xs + ys, a, b) <==> FitsSome(xs, a, b) || FitsSome(ys, a, b)
  {
    if FitsSome(xs, a, b) {
      var w :| w in xs && Within(w, a, b);
      assert w in xs + ys;
    }
    if FitsSome(ys, a, b) {
      var w :| w in ys && Within(w, a, b);
      assert w in xs + ys;
    }
  }

  lemma OrderedJoin(xs: seq<Window>, ys: seq<Window>, middle: int)
    requires Ordered(xs, false) && Ordered(ys, false)
    requires forall w :: w in xs ==> w.end <= middle
    requires forall w :: w in ys ==> middle <= w.start
    ensures Ordered(xs + ys, false)
  {
    var zs := xs + ys;
    forall i, j | 0 <= i < j < |zs| ensures zs[i].end <= zs[j].start {
      assert i < |xs| <= j ==> xs[i] in xs && ys[j - |xs|] in ys;
    }
  }

  lemma Twice(rows: seq<SlotRow>, j: nat, k: nat)
    requires j < k < |rows| && rows[j] == rows[k]
    ensures multiset(rows)[rows[j]] >= 2
  {
    assert rows == rows[..k] + [rows[k]] + rows[k + 1..];
    assert rows[..k][j] == rows[j];
    assert rows[j] in multiset(rows[..k]);
  }

  /** No stored slot appears twice among the slots of a day. */
  lemma DaySlotsDiffer(slots: seq<SlotRow>, artisan: nat, date: int, j: nat, k: nat)
    requires WellSpaced(slots) && j < k < |DaySlots(slots, artisan, date)|
    ensures DaySlots(slots, artisan, date)[j] != DaySlots(slots, artisan, date)[k]
  {
    var day := DaySlots(slots, artisan, date);
    if day[j] == day[k] {
      FilterCounts((s: SlotRow) => s.OpenOn(artisan, date), slots);
      Twice(day, j, k);
      assert multiset(slots)[day[j]] >= 2;
      Distinct(slots, day[j]);
    }
  }

  /** The slots of one day that take time come one after the other. */
  lemma DaySlotsApart(slots: seq<SlotRow>, artisan: nat, date: int, floor: int)
    requires WellSpaced(slots)
    requires forall s :: s in slots && s.OpenOn(artisan, date) && s.start < s.end ==> floor <= s.start
    ensures OneAfterOther(DaySlots(slots, artisan, date), floor)
  {
    var day := DaySlots(slots, artisan, date);
    DaySlotsElements(slots, artisan, date);
    forall k | 0 <= k < |day| ensures day[k] in slots && day[k].OpenOn(artisan, date) && day[k].start <= day[k].end {
      assert day[k] in day;
    }
    forall j, k | 0 <= j < k < |day| && day[j].start < day[j].end && day[k].start < day[k].end
      ensures day[j].end <= day[k].start
    {
      DaySlotsDiffer(slots, artisan, date, j, k);
      NotOverlapping(slots, day[j], day[k], artisan, date);
    }
  }

  lemma NotOverlapping(slots: seq<SlotRow>, s: SlotRow, t: SlotRow, artisan: nat, date: int)
    requires WellSpaced(slots) && s in slots && t in slots && s != t && s.OpenOn(artisan, date) && t.OpenOn(artisan, date)
    ensures !Overlaps(Window(s.start, s.end), t.start, t.end)
  {
    var i :| 0 <= i < |slots| && slots[i] == s;
    var j :| 0 <= j < |slots| && slots[j] == t;
    assert i != j;
  }

  /** A time before all slots. */
  lemma {:induction false} SomeFloor(slots: seq<SlotRow>) returns (floor: int)
    ensures forall s :: s in slots ==> floor <= s.start
  {
    if slots == [] {
      floor := 0;
    } else {
      floor := SomeFloor(slots[1..]);
      assert slots == [slots[0]] + slots[1..];
      floor := if slots[0].start < floor then slots[0].start else floor;
    }
  }

  lemma {:induction false} FilterCounts<T(!new)>(keep: T -> bool, xs: seq<T>)
    ensures forall x :: multiset(Filter(keep, xs))[x] <= multiset(xs)[x]
  {
    if xs != [] {
      FilterCounts(keep, xs[1..]);
      assert xs == [xs[0]] + xs[1..];
    }
  }

  lemma Distinct(slots: seq<SlotRow>, s: SlotRow)
    requires forall i, j :: 0 <= i < |slots| && 0 <= j < |slots| && i != j ==> slots[i].id != slots[j].id
    ensures multiset(slots)[s] <= 1
    decreases |slots|
  {
    if slots != [] {
      Distinct(slots[1..], s);
      assert slots == [slots[0]] + slots[1..];
      if slots[0] == s {
        assert forall x :: x in slots[1..] ==> x.id != s.id;
        assert s !in multiset(slots[1..]);
      }
    }
  }

  lemma WindowsAreRequests(slots: seq<SlotRow>, blocks: seq<BlockRow>, bookings: seq<Booking>, artisan: nat, date: int)
    requires !Blocked(blocks, artisan, date)
    ensures var windows := WindowsOf(DaySlots(slots, artisan, date), OccupiedOn(bookings, artisan, date));
            forall a, b :: a < b ==>
              (FitsSome(windows, a, b) <==> MayRequest(slots, blocks, RowsOf(bookings), artisan, date, a, b))
  {
    var day, occupied := DaySlots(slots, artisan, date), OccupiedOn(bookings, artisan, date);
    forall a, b | a < b
      ensures FitsSome(WindowsOf(day, occupied), a, b)
              <==> MayRequest(slots, blocks, RowsOf(bookings), artisan, date, a, b)
    {
      WindowsOfFit(day, occupied, a, b);
      RequestsAgree(slots, blocks, bookings, artisan, date, a, b);
    }
  }

  lemma RequestsAgree(
    slots: seq<SlotRow>, blocks: seq<BlockRow>, bookings: seq<Booking>, artisan: nat, date: int, a: int, b: int)
    requires !Blocked(blocks, artisan, date)
    ensures var day := DaySlots(slots, artisan, date);
            (InOneSlot(day, a, b) && NoneOverlaps(OccupiedOn(bookings, artisan, date), a, b))
            <==> MayRequest(slots, blocks, RowsOf(bookings), artisan, date, a, b)
  {
    var day := DaySlots(slots, artisan, date);
    var occupied := OccupiedOn(bookings, artisan, date);
    DaySlotsElements(slots, artisan, date);
    OccupiedOnElements(bookings, artisan, date);
    if s :| s in slots && s.OpenOn(artisan, date) && s.start <= a && b <= s.end {
      assert s in day;
    }
    forall x | x in bookings && x.OccupiesOn(artisan, date) ensures Window(x.start, x.end) in occupied {
    }
  }

  // ─── describeForClients ────────────────────────────────────────────────────────

  function ActiveSlotsOf(slots: seq<SlotRow>, profile: nat): seq<Slot> {
    if slots == [] then []
    else
      (if slots[0].profile == profile && slots[0].active
       then [Slot(slots[0].dayOfWeek, slots[0].start, slots[0].end)] else [])
      + ActiveSlotsOf(slots[1..], profile)
  }

  /** The artisan's time off; `since` keeps what ends on that day or later. */
  function BlocksOf(blocks: seq<BlockRow>, profile: nat, since: Option<int>): seq<Block> {
    if blocks == [] then []
    else
      (if blocks[0].profile == profile && (since.None? || blocks[0].block.endDate >= since.value)
       then [blocks[0].block] else [])
      + BlocksOf(blocks[1..], profile, since)
  }

  /** The artisan's occupying bookings; `between` keeps those from the first day to the last. */
  function TakenBy(bookings: seq<Booking>, profile: nat, between: Option<(int, int)>): seq<Taken> {
    if bookings == [] then []
    else
      (if bookings[0].Occupies() && bookings[0].artisan == profile
          && (between.None? || between.value.0 <= bookings[0].date <= between.value.1)
       then [Taken(bookings[0].date, bookings[0].start, bookings[0].end)] else [])
      + TakenBy(bookings[1..], profile, between)
  }

  lemma {:induction false} LoadedBlocks(blocks: seq<BlockRow>, profile: nat, today: int)
    ensures forall d :: d >= today ==>
              (TimeOff(BlocksOf(blocks, profile, Some(today)), d) <==> TimeOff(BlocksOf(blocks, profile, None), d))
  {
    if blocks != [] {
      LoadedBlocks(blocks[1..], profile, today);
      var loaded, all := BlocksOf(blocks, profile, Some(today)), BlocksOf(blocks, profile, None);
      var fewer, rest := BlocksOf(blocks[1..], profile, Some(today)), BlocksOf(blocks[1..], profile, None);
      forall d | d >= today ensures TimeOff(loaded, d) <==> TimeOff(all, d) {
        var first := blocks[0].profile == profile && Covers(blocks[0].block, d);
        assert TimeOff(all, d) <==> first || TimeOff(rest, d) by {
          TimeOffJoin(if blocks[0].profile == profile then [blocks[0].block] else [], rest, d);
        }
        assert TimeOff(loaded, d) <==> first || TimeOff(fewer, d) by {
          TimeOffJoin(if blocks[0].profile == profile && blocks[0].block.endDate >= today then [blocks[0].block] else [], fewer, d);
        }
      }
    }
  }

  lemma TimeOffJoin(xs: seq<Block>, ys: seq<Block>, d: int)
    ensures TimeOff(xs + ys, d) <==> TimeOff(xs, d) || TimeOff(ys, d)
  {
    if TimeOff(xs, d) {
      var b :| b in xs && Covers(b, d);
      assert b in xs + ys;
    }
    if TimeOff(ys, d) {
      var b :| b in ys && Covers(b, d);
      assert b in xs + ys;
    }
  }

  lemma {:induction false} LoadedTaken(bookings: seq<Booking>, profile: nat, first: int, last: int)
    ensures forall b :: b in TakenBy(bookings, profile, Some((first, last)))
                        <==> b in TakenBy(bookings, profile, None) && first <= b.date <= last
  {
    if bookings != [] {
      LoadedTaken(bookings[1..], profile, first, last);
    }
  }

  lemma LoadedTimeOff(blocks: seq<BlockRow>, profile: nat, today: int, until: Option<int>)
    requires EndsTimeOff(BlocksOf(blocks, profile, Some(today)), today, until)
    ensures EndsTimeOff(BlocksOf(blocks, profile, None), today, until)
  {
    hide BlocksOf, TimeOff;
    LoadedBlocks(blocks, profile, today);
  }

  lemma LoadedBookable(
    slots: seq<Slot>, blocks: seq<BlockRow>, bookings: seq<Booking>, profile: nat, clock: Clock, last: int, d: int)
    requires clock.date <= d <= last
    ensures Bookable(slots, BlocksOf(blocks, profile, Some(clock.date)), TakenBy(bookings, profile, Some((clock.date, last))), clock, d)
            <==> Bookable(slots, BlocksOf(blocks, profile, None), TakenBy(bookings, profile, None), clock, d)
  {
    hide BlocksOf, TimeOff, TakenBy;
    LoadedBlocks(blocks, profile, clock.date);
    LoadedTaken(bookings, profile, clock.date, last);
    var loaded, all := TakenBy(bookings, profile, Some((clock.date, last))), TakenBy(bookings, profile, None);
    assert forall t :: FreeAt(slots, loaded, d, t) <==> FreeAt(slots, all, d, t);
  }

  /**
   * What is loaded suffices: time off that ended before today and bookings outside the horizon change
   * nothing of the summary. A summary of the loaded rows is a summary of all rows.
   */
  lemma LoadingLosesNothing(
    summary: Summary, status: Option<ArtisanStatus>, slots: seq<Slot>, blocks: seq<BlockRow>, bookings: seq<Booking>,
    profile: nat, clock: Clock)
    requires Describes(summary, status, slots, BlocksOf(blocks, profile, Some(clock.date)),
                       TakenBy(bookings, profile, Some((clock.date, clock.date + (HORIZON_DAYS - 1)))), clock, HORIZON_DAYS)
    ensures Describes(summary, status, slots, BlocksOf(blocks, profile, None), TakenBy(bookings, profile, None),
                      clock, HORIZON_DAYS)
  {
    hide BlocksOf, TakenBy, TimeOff, Bookable, EndsTimeOff, HoursOn, SortedBy;
    var last := clock.date + (HORIZON_DAYS - 1);
    LoadedTimeOff(blocks, profile, clock.date, summary.onTimeOffUntil);
    LoadedBlocks(blocks, profile, clock.date);
    forall d | clock.date <= d <= last
      ensures Bookable(slots, BlocksOf(blocks, profile, Some(clock.date)), TakenBy(bookings, profile, Some((clock.date, last))), clock, d)
              <==> Bookable(slots, BlocksOf(blocks, profile, None), TakenBy(bookings, profile, None), clock, d)
    {
      LoadedBookable(slots, blocks, bookings, profile, clock, last, d);
    }
  }

  /** The map says of this artisan what all stored rows say. */
  ghost predicate ToldOf(
    result: map<nat, Summary>, artisan: (nat, Option<ArtisanStatus>),
    slots: seq<SlotRow>, blocks: seq<BlockRow>, bookings: seq<Booking>, clock: Clock)
  {
    && artisan.0 in result
    && Describes(result[artisan.0], artisan.1, ActiveSlotsOf(slots, artisan.0), BlocksOf(blocks, artisan.0, None),
                 TakenBy(bookings, artisan.0, None), clock, HORIZON_DAYS)
  }

  /** `describeForClients`: the loop that fills the map of summaries; of an artisan listed twice the last entry counts. */
  method DescribeForClients(
    profiles: seq<(nat, Option<ArtisanStatus>)>, slots: seq<SlotRow>, blocks: seq<BlockRow>, bookings: seq<Booking>,
    clock: Clock)
    returns (result: map<nat, Summary>)
    ensures forall id :: id in result <==> exists k :: 0 <= k < |profiles| && profiles[k].0 == id
    ensures forall k :: 0 <= k < |profiles| && LastOf(profiles, k) ==>
              ToldOf(result, profiles[k], slots, blocks, bookings, clock)
  {
    hide ToldOf, LastOf;
    result := map[];
    for i := 0 to |profiles|
      invariant forall id :: id in result <==> exists k :: 0 <= k < i && profiles[k].0 == id
      invariant forall k :: 0 <= k < i && LastOf(profiles[..i], k) ==>
                  ToldOf(result, profiles[k], slots, blocks, bookings, clock)
    {
      ghost var before := result;
      result := DescribeOne(result, profiles[i], slots, blocks, bookings, clock);
      forall k | 0 <= k < i && LastOf(profiles[..i + 1], k)
        ensures ToldOf(result, profiles[k], slots, blocks, bookings, clock)
      {
        LastSoFar(profiles, i, k);
        OthersStayTold(before, result, profiles[i].0, profiles[k], slots, blocks, bookings, clock);
      }
    }
    assert profiles[..|profiles|] == profiles;
  }

  /** No later entry is for the same artisan. */
  predicate LastOf(profiles: seq<(nat, Option<ArtisanStatus>)>, k: nat)
    requires k < |profiles|
  {
    forall j :: k < j < |profiles| ==> profiles[j].0 != profiles[k].0
  }

  lemma LastSoFar(profiles: seq<(nat, Option<ArtisanStatus>)>, i: nat, k: nat)
    requires k < i < |profiles| && LastOf(profiles[..i + 1], k)
    ensures LastOf(profiles[..i], k) && profiles[k].0 != profiles[i].0
  {
    assert profiles[..i + 1][i] == profiles[i];
  }

  lemma OthersStayTold(
    before: map<nat, Summary>, after: map<nat, Summary>, id: nat, artisan: (nat, Option<ArtisanStatus>),
    slots: seq<SlotRow>, blocks: seq<BlockRow>, bookings: seq<Booking>, clock: Clock)
    requires ToldOf(before, artisan, slots, blocks, bookings, clock) && artisan.0 != id
    requires id in after && after == before[id := after[id]]
    ensures ToldOf(after, artisan, slots, blocks, bookings, clock)
  {
  }

  /** One turn of the loop, from the rows that were loaded. */
  method DescribeOne(
    told: map<nat, Summary>, artisan: (nat, Option<ArtisanStatus>),
    slots: seq<SlotRow>, blocks: seq<BlockRow>, bookings: seq<Booking>, clock: Clock)
    returns (result: map<nat, Summary>)
    ensures artisan.0 in result && result == told[artisan.0 := result[artisan.0]]
    ensures ToldOf(result, artisan, slots, blocks, bookings, clock)
  {
    var (id, status) := artisan;
    var mySlots := ActiveSlotsOf(slots, id);
    var summary := SummariseAvailability(
      status, mySlots, BlocksOf(blocks, id, Some(clock.date)),
      TakenBy(bookings, id, Some((clock.date, clock.date + (HORIZON_DAYS - 1)))), clock, HORIZON_DAYS);
    LoadingLosesNothing(summary, status, mySlots, blocks, bookings, id, clock);
    result := told[id := summary];
  }
}

/**
 * Booking requests under concurrency: `create` of src/bookings/bookings.service.ts as atomic steps
 * (the unlocked picker check; the artisan's row lock; the overlap read; the count; the insert, which
 * commits and unlocks), interleaved with each other and with every status change of a booking.
 */
module BookingCreation {
  import opened Wrappers
  import opened Intervals
  import opened AvailabilityService
  import opened BookingRows

  const MAX_PENDING := 3

  datatype Phase = Asked | PickerPassed | Locked | NoOverlapSeen | BelowCapSeen | Committed | Failed
  {
    /** The transaction is open and holds the lock on the artisan's profile row. */
    predicate InTransaction() {
      Locked? || NoOverlapSeen? || BelowCapSeen?
    }
  }

  datatype Create = Create(customer: nat, artisan: nat, date: int, start: int, end: int, phase: Phase)
  {
    function ToBooking(): Booking {
      Booking(customer, artisan, date, start, end, Pending)
    }
  }

  const LAST_MINUTE := 23 * 60 + 59

  /** `addMinutes`: whole minutes, and never past 23:59 of the day. */
  function AddMinutes(time: int, minutes: nat): int {
    60 * if time / 60 + minutes < LAST_MINUTE then time / 60 + minutes else LAST_MINUTE
  }

  /** The default end is on the same day and, cut short or not, after the start, but for a start in the last minute. */
  lemma DefaultEnd(start: int, minutes: nat)
    requires 0 <= start < 24 * 3600 && start % 60 == 0
    ensures AddMinutes(start, minutes) < 24 * 3600
    ensures start + 60 * minutes < 24 * 3600 ==> AddMinutes(start, minutes) == start + 60 * minutes
    ensures minutes > 0 ==> (AddMinutes(start, minutes) > start <==> start < 60 * LAST_MINUTE)
  {
    assert start == 60 * (start / 60);
  }

  type Bookings = map<nat, Booking>

  datatype World = World(
    bookings: Bookings, slots: seq<SlotRow>, blocks: seq<BlockRow>, creates: map<nat, Create>, locks: map<nat, nat>)

  datatype Step =
    | Ask(c: nat, customer: nat, artisan: nat, date: int, start: int, askedEnd: Option<int>, minutes: nat)
    | CheckPicker(c: nat)
    | Lock(c: nat)
    | ReadOverlap(c: nat)
    | CountPending(c: nat)
    | Insert(c: nat, id: nat)
    | Abort(c: nat)
    | Transition(id: nat, to: BookingStatus)
    | CalendarChange(slots: seq<SlotRow>, blocks: seq<BlockRow>)

  /** The status changes of `confirm`, `decline`, `cancel`, `complete`, `flagNoShow` and `expireBooking`. */
  predicate Allowed(from: BookingStatus, to: BookingStatus) {
    || (from.Pending? && (to.Confirmed? || to.Declined? || to.Cancelled? || to.Expired?))
    || (from.Confirmed? && (to.Cancelled? || to.Completed? || to.NoShow?))
  }

  /** The overlap query of the transaction finds a row. */
  predicate Taken(bookings: Bookings, artisan: nat, date: int, start: int, end: int) {
    exists id :: id in bookings && bookings[id].OccupiesOn(artisan, date)
                 && Overlaps(Window(bookings[id].start, bookings[id].end), start, end)
  }

  function PendingIds(bookings: Bookings, customer: nat, artisan: nat): set<nat> {
    set id | id in bookings && bookings[id].customer == customer && bookings[id].artisan == artisan
             && bookings[id].status.Pending?
  }

  function Goto(w: World, c: nat, phase: Phase): World
    requires c in w.creates
  {
    w.(creates := w.creates[c := w.creates[c].(phase := phase)])
  }

  /** Ends the transaction, if one is open, and with it the lock. */
  function Leave(w: World, c: nat, phase: Phase): World
    requires c in w.creates
  {
    var left := Goto(w, c, phase);
    if w.creates[c].phase.InTransaction() then left.(locks := w.locks - {w.creates[c].artisan}) else left
  }

  ghost predicate Enabled(w: World, step: Step) {
    match step
    case Ask(c, _, _, _, _, _, _) => c !in w.creates
    case CheckPicker(c) => c in w.creates && w.creates[c].phase.Asked?
    case Lock(c) => c in w.creates && w.creates[c].phase.PickerPassed? && w.creates[c].artisan !in w.locks
    case ReadOverlap(c) => c in w.creates && w.creates[c].phase.Locked?
    case CountPending(c) => c in w.creates && w.creates[c].phase.NoOverlapSeen?
    case Insert(c, id) => c in w.creates && w.creates[c].phase.BelowCapSeen? && id !in w.bookings
    case Abort(c) => c in w.creates && !w.creates[c].phase.Committed?
    case Transition(id, to) => id in w.bookings && Allowed(w.bookings[id].status, to)
    case CalendarChange(_, _) => true
  }

  ghost function Apply(w: World, step: Step): World
    requires Enabled(w, step)
  {
    match step
    case Ask(c, customer, artisan, date, start, askedEnd, minutes) =>
      var end := askedEnd.GetOr(AddMinutes(start, minutes));
      w.(creates := w.creates[c := Create(customer, artisan, date, start, end, Asked)])
    case CheckPicker(c) =>
      var r := w.creates[c];
      if r.start < r.end && MayRequest(w.slots, w.blocks, w.bookings.Values, r.artisan, r.date, r.start, r.end)
      then Goto(w, c, PickerPassed) else Goto(w, c, Failed)
    case Lock(c) => Goto(w, c, Locked).(locks := w.locks[w.creates[c].artisan := c])
    case ReadOverlap(c) =>
      var r := w.creates[c];
      if Taken(w.bookings, r.artisan, r.date, r.start, r.end) then Leave(w, c, Failed) else Goto(w, c, NoOverlapSeen)
    case CountPending(c) =>
      var r := w.creates[c];
      if |PendingIds(w.bookings, r.customer, r.artisan)| >= MAX_PENDING then Leave(w, c, Failed)
      else Goto(w, c, BelowCapSeen)
    case Insert(c, id) => Leave(w, c, Committed).(bookings := w.bookings[id := w.creates[c].ToBooking()])
    case Abort(c) => Leave(w, c, Failed)
    case Transition(id, to) => w.(bookings := w.bookings[id := w.bookings[id].(status := to)])
    case CalendarChange(slots, blocks) => w.(slots := slots, blocks := blocks)
  }

  // ─── The invariant ─────────────────────────────────────────────────────────────

  /** No two occupying bookings of one artisan on one date overlap. */
  ghost predicate NoneClash(bookings: Bookings) {
    forall i, j :: i in bookings && j in bookings && i != j
                   && bookings[i].Occupies() && bookings[j].Occupies()
                   && bookings[i].artisan == bookings[j].artisan && bookings[i].date == bookings[j].date
                   ==> !Overlaps(Window(bookings[i].start, bookings[i].end), bookings[j].start, bookings[j].end)
  }

  ghost predicate CapHolds(bookings: Bookings) {
    forall customer, artisan :: |PendingIds(bookings, customer, artisan)| <= MAX_PENDING
  }

  /** What an open transaction has seen is still so: only the holder of the lock adds to the artisan's bookings. */
  ghost predicate SeenHolds(bookings: Bookings, r: Create) {
    && (r.phase.NoOverlapSeen? || r.phase.BelowCapSeen? ==> !Taken(bookings, r.artisan, r.date, r.start, r.end))
    && (r.phase.BelowCapSeen? ==> |PendingIds(bookings, r.customer, r.artisan)| < MAX_PENDING)
  }

  ghost predicate LocksOk(w: World) {
    && (forall c :: c in w.creates && w.creates[c].phase.InTransaction() ==>
          w.creates[c].artisan in w.locks && w.locks[w.creates[c].artisan] == c)
    && (forall a :: a in w.locks ==>
          w.locks[a] in w.creates && w.creates[w.locks[a]].artisan == a && w.creates[w.locks[a]].phase.InTransaction())
  }

  ghost predicate Inv(w: World) {
    && NoneClash(w.bookings) && CapHolds(w.bookings)
    && (forall id :: id in w.bookings ==> w.bookings[id].start < w.bookings[id].end)
    && (forall c :: c in w.creates ==>
          && SeenHolds(w.bookings, w.creates[c])
          && (!w.creates[c].phase.Asked? && !w.creates[c].phase.Failed? ==> w.creates[c].start < w.creates[c].end))
    && LocksOk(w)
  }

  ghost predicate Init(w: World) {
    w.bookings == map[] && w.creates == map[] && w.locks == map[]
  }

  lemma PendingShrinks(bookings: Bookings, id: nat, b: Booking, customer: nat, artisan: nat)
    requires id in bookings && b.customer == bookings[id].customer && b.artisan == bookings[id].artisan
    requires b.status.Pending? ==> bookings[id].status.Pending?
    ensures |PendingIds(bookings[id := b], customer, artisan)| <= |PendingIds(bookings, customer, artisan)|
  {
    var after, before := PendingIds(bookings[id := b], customer, artisan), PendingIds(bookings, customer, artisan);
    assert after <= before;
    assert after + (before - after) == before;
  }

  /** A status change frees a slot or keeps it; it never takes one. */
  lemma TransitionKeeps(w: World, id: nat, to: BookingStatus)
    requires Inv(w) && Enabled(w, Transition(id, to))
    ensures Inv(Apply(w, Transition(id, to)))
  {
    var b := w.bookings[id].(status := to);
    var after := w.bookings[id := b];
    forall customer, artisan ensures |PendingIds(after, customer, artisan)| <= |PendingIds(w.bookings, customer, artisan)| {
      PendingShrinks(w.bookings, id, b, customer, artisan);
    }
    forall c | c in w.creates ensures SeenHolds(after, w.creates[c]) {
      var r := w.creates[c];
      if Taken(after, r.artisan, r.date, r.start, r.end) {
        var k :| k in after && after[k].OccupiesOn(r.artisan, r.date)
                 && Overlaps(Window(after[k].start, after[k].end), r.start, r.end);
        assert w.bookings[k].OccupiesOn(r.artisan, r.date);
      }
    }
  }

  lemma PendingGrows(bookings: Bookings, id: nat, b: Booking, customer: nat, artisan: nat)
    requires id !in bookings && b.status.Pending?
    ensures PendingIds(bookings[id := b], customer, artisan)
            == PendingIds(bookings, customer, artisan)
               + (if b.customer == customer && b.artisan == artisan then {id} else {})
  {
  }

  /** What passed both checks clashes with nothing and stays under the cap. */
  lemma InsertFits(bookings: Bookings, id: nat, b: Booking)
    requires NoneClash(bookings) && CapHolds(bookings) && id !in bookings && b.status.Pending?
    requires !Taken(bookings, b.artisan, b.date, b.start, b.end)
    requires |PendingIds(bookings, b.customer, b.artisan)| < MAX_PENDING
    ensures NoneClash(bookings[id := b]) && CapHolds(bookings[id := b])
  {
    var after := bookings[id := b];
    forall customer, artisan ensures |PendingIds(after, customer, artisan)| <= MAX_PENDING {
      PendingGrows(bookings, id, b, customer, artisan);
    }
    hide PendingIds;
    forall k | k in bookings && bookings[k].OccupiesOn(b.artisan, b.date)
      ensures !Overlaps(Window(bookings[k].start, bookings[k].end), b.start, b.end)
    {
    }
  }

  lemma OthersStillSee(w: World, c: nat, id: nat)
    requires Inv(w) && Enabled(w, Insert(c, id))
    ensures var t := Apply(w, Insert(c, id)); forall d :: d in t.creates ==> SeenHolds(t.bookings, t.creates[d])
  {
    var t := Apply(w, Insert(c, id));
    forall d | d in t.creates ensures SeenHolds(t.bookings, t.creates[d]) {
      if d != c && t.creates[d].phase.InTransaction() {
        OthersUnaffected(w, c, d, id);
      }
    }
  }

  /** Ending a transaction gives up its lock and leaves the others theirs. */
  lemma LeaveLocks(w: World, c: nat, phase: Phase)
    requires LocksOk(w) && c in w.creates && !phase.InTransaction()
    ensures LocksOk(Leave(w, c, phase))
  {
    var t := Leave(w, c, phase);
    forall d | d in t.creates && t.creates[d].phase.InTransaction()
      ensures t.creates[d].artisan in t.locks && t.locks[t.creates[d].artisan] == d
    {
      assert d != c && w.locks[w.creates[d].artisan] == d;
    }
  }

  lemma InsertKeeps(w: World, c: nat, id: nat)
    requires Inv(w) && Enabled(w, Insert(c, id))
    ensures Inv(Apply(w, Insert(c, id)))
  {
    var r := w.creates[c];
    assert SeenHolds(w.bookings, r);
    InsertFits(w.bookings, id, r.ToBooking());
    OthersStillSee(w, c, id);
    LeaveLocks(w, c, Committed);
    hide NoneClash, CapHolds, SeenHolds, Taken, PendingIds;
    assert LocksOk(Apply(w, Insert(c, id)));
  }

  /** Two open transactions are on different artisans, so one's insert is nothing to the other. */
  lemma OthersUnaffected(w: World, c: nat, d: nat, id: nat)
    requires Inv(w) && c in w.creates && d in w.creates && c != d && id !in w.bookings
    requires w.creates[c].phase.InTransaction() && w.creates[d].phase.InTransaction()
    ensures SeenHolds(w.bookings[id := w.creates[c].ToBooking()], w.creates[d])
  {
    var r, b := w.creates[d], w.creates[c].ToBooking();
    assert SeenHolds(w.bookings, r);
    assert r.artisan != b.artisan;
    PendingGrows(w.bookings, id, b, r.customer, r.artisan);
    var after := w.bookings[id := b];
    if Taken(after, r.artisan, r.date, r.start, r.end) {
      var k :| k in after && after[k].OccupiesOn(r.artisan, r.date)
               && Overlaps(Window(after[k].start, after[k].end), r.start, r.end);
      assert k in w.bookings && w.bookings[k].OccupiesOn(r.artisan, r.date);
    }
  }

  lemma GotoKeeps(w: World, c: nat, phase: Phase)
    requires Inv(w) && c in w.creates
    requires SeenHolds(w.bookings, w.creates[c].(phase := phase))
    requires phase.InTransaction() <==> w.creates[c].phase.InTransaction()
    requires !phase.Asked? && !phase.Failed? ==> w.creates[c].start < w.creates[c].end
    ensures Inv(Goto(w, c, phase))
  {
  }

  lemma LeaveKeeps(w: World, c: nat)
    requires Inv(w) && c in w.creates
    ensures Inv(Leave(w, c, Failed))
  {
    hide NoneClash, CapHolds, Taken, PendingIds;
    LeaveLocks(w, c, Failed);
  }

  lemma LockKeeps(w: World, c: nat)
    requires Inv(w) && Enabled(w, Lock(c))
    ensures Inv(Apply(w, Lock(c)))
  {
    var t := Apply(w, Lock(c));
    forall d | d in t.creates && t.creates[d].phase.InTransaction()
      ensures t.creates[d].artisan in t.locks && t.locks[t.creates[d].artisan] == d
    {
      assert d == c || w.locks[w.creates[d].artisan] == d;
    }
  }

  lemma AskKeeps(w: World, step: Step)
    requires Inv(w) && Enabled(w, step) && step.Ask?
    ensures Inv(Apply(w, step))
  {
  }

  /** Every step of every interleaving keeps the invariant. */
  lemma StepKeepsInv(w: World, step: Step)
    requires Inv(w) && Enabled(w, step)
    ensures Inv(Apply(w, step))
  {
    match step
    case Transition(id, to) => TransitionKeeps(w, id, to);
    case Insert(c, id) => InsertKeeps(w, c, id);
    case Ask(_, _, _, _, _, _, _) => AskKeeps(w, step);
    case CheckPicker(c) =>
      var r := w.creates[c];
      GotoKeeps(w, c, if r.start < r.end && MayRequest(w.slots, w.blocks, w.bookings.Values, r.artisan, r.date, r.start, r.end)
                      then PickerPassed else Failed);
    case Lock(c) => LockKeeps(w, c);
    case ReadOverlap(c) =>
      var r := w.creates[c];
      if Taken(w.bookings, r.artisan, r.date, r.start, r.end) {
        LeaveKeeps(w, c);
      } else {
        GotoKeeps(w, c, NoOverlapSeen);
      }
    case CountPending(c) =>
      var r := w.creates[c];
      assert SeenHolds(w.bookings, r);
      if |PendingIds(w.bookings, r.customer, r.artisan)| >= MAX_PENDING {
        LeaveKeeps(w, c);
      } else {
        GotoKeeps(w, c, BelowCapSeen);
      }
    case Abort(c) => LeaveKeeps(w, c);
    case CalendarChange(_, _) =>
  }

  // ─── Whole runs ────────────────────────────────────────────────────────────────

  ghost predicate Valid(states: seq<World>, steps: seq<Step>) {
    && |states| == |steps| + 1 && Init(states[0])
    && forall i :: 0 <= i < |steps| ==> Enabled(states[i], steps[i]) && states[i + 1] == Apply(states[i], steps[i])
  }

  lemma {:induction false} Reachable(states: seq<World>, steps: seq<Step>, i: nat)
    requires Valid(states, steps) && i < |states|
    ensures Inv(states[i])
  {
    if i == 0 {
      forall customer, artisan ensures PendingIds(states[0].bookings, customer, artisan) == {} {
      }
    } else {
      Reachable(states, steps, i - 1);
      StepKeepsInv(states[i - 1], steps[i - 1]);
    }
  }

  /** Whatever the interleaving, no two live bookings of an artisan overlap. */
  lemma NoDoubleBooking(states: seq<World>, steps: seq<Step>, n: nat, i: nat, j: nat)
    requires Valid(states, steps) && n < |states|
    requires i in states[n].bookings && j in states[n].bookings && i != j
    requires states[n].bookings[i].artisan == states[n].bookings[j].artisan
    requires states[n].bookings[i].date == states[n].bookings[j].date
    requires states[n].bookings[i].Occupies() && states[n].bookings[j].Occupies()
    ensures states[n].bookings[i].end <= states[n].bookings[j].start || states[n].bookings[j].end <= states[n].bookings[i].start
  {
    Reachable(states, steps, n);
  }

  /** Nor does a customer ever have more pending requests with one artisan than the cap. */
  lemma CapNeverExceeded(states: seq<World>, steps: seq<Step>, n: nat, customer: nat, artisan: nat)
    requires Valid(states, steps) && n < |states|
    ensures |PendingIds(states[n].bookings, customer, artisan)| <= MAX_PENDING
  {
    Reachable(states, steps, n);
  }

  /** The lock refuses a request the picker let through only when the artisan's bookings of that day changed in between. */
  lemma RefusedOnlyAfterChange(states: seq<World>, steps: seq<Step>, m: nat, n: nat, c: nat)
    requires Valid(states, steps) && m < n < |steps|
    requires steps[m] == CheckPicker(c) && c in states[m + 1].creates && states[m + 1].creates[c].phase.PickerPassed?
    requires steps[n] == ReadOverlap(c) && states[n + 1].creates[c].phase.Failed?
    ensures c in states[n].creates && states[n].creates[c].(phase := Asked) == states[m].creates[c]
    ensures var r := states[m].creates[c];
            exists id :: id in states[n].bookings && states[n].bookings[id].OccupiesOn(r.artisan, r.date)
                         && states[n].bookings[id] !in states[m].bookings.Values
  {
    var r := states[m].creates[c];
    RequestFixed(states, steps, m, n, c);
    var id :| id in states[n].bookings && states[n].bookings[id].OccupiesOn(r.artisan, r.date)
              && Overlaps(Window(states[n].bookings[id].start, states[n].bookings[id].end), r.start, r.end);
  }

  lemma {:induction false} RequestFixed(states: seq<World>, steps: seq<Step>, m: nat, n: nat, c: nat)
    requires Valid(states, steps) && m <= n < |states| && c in states[m].creates
    ensures c in states[n].creates
    ensures states[n].creates[c].(phase := Asked) == states[m].creates[c].(phase := Asked)
    decreases n
  {
    hide Apply, Enabled;
    if m < n {
      RequestFixed(states, steps, m, n - 1, c);
      RequestStep(states, steps, n - 1, c);
    }
  }

  lemma RequestStep(states: seq<World>, steps: seq<Step>, k: nat, c: nat)
    requires Valid(states, steps) && k < |steps| && c in states[k].creates
    ensures c in states[k + 1].creates
    ensures states[k + 1].creates[c].(phase := Asked) == states[k].creates[c].(phase := Asked)
  {
    RequestKept(states[k], steps[k], c);
  }

  lemma RequestKept(w: World, step: Step, c: nat)
    requires Enabled(w, step) && c in w.creates
    ensures c in Apply(w, step).creates
    ensures Apply(w, step).creates[c].(phase := Asked) == w.creates[c].(phase := Asked)
  {
  }
}

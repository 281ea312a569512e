/** `create` of src/bookings/bookings.service.ts as one call without interference, from the picker to the insert. */
module BookingsService {
  import opened Wrappers
  import opened Intervals
  import opened AvailabilityService
  import opened BookingRows
  import opened BookingCreation

  datatype CreateError = EndNotAfterStart | OutsideBookableHours | NoLongerAvailable | TooManyPending

  class Service {
    var bookings: Bookings
    const calendar: Calendar

    ghost predicate Valid()
      reads this, calendar
    {
      && calendar.Valid()
      && NoneClash(bookings) && CapHolds(bookings)
      && forall id :: id in bookings ==> bookings[id].start < bookings[id].end
    }

    constructor (calendar: Calendar)
      requires calendar.Valid()
      ensures Valid() && bookings == map[] && this.calendar == calendar
    {
      this.bookings, this.calendar := map[], calendar;
      new;
      forall customer, artisan ensures PendingIds(bookings, customer, artisan) == {} {
      }
    }

    /** The rows a query without a filter returns. */
    method AllBookings() returns (rows: seq<Booking>)
      ensures RowsOf(rows) == bookings.Values
    {
      rows := [];
      var left := bookings.Keys;
      while left != {}
        invariant left <= bookings.Keys
        invariant forall b :: b in rows <==> exists id :: id in bookings.Keys - left && bookings[id] == b
        decreases |left|
      {
        var id :| id in left;
        ghost var before := left;
        left := left - {id};
        assert bookings.Keys - left == (bookings.Keys - before) + {id};
        rows := rows + [bookings[id]];
      }
      assert bookings.Keys - left == bookings.Keys;
    }

    /**
     * Run alone, a request is refused for the first of these reasons that holds, and otherwise stored as
     * PENDING. The check under the lock never refuses what the picker let through.
     */
    method Create(id: nat, customer: nat, artisan: nat, date: int, start: int, askedEnd: Option<int>, minutes: nat)
      returns (r: Result<nat, CreateError>)
      requires Valid() && id !in bookings
      modifies this`bookings
      ensures Valid()
      ensures var end := askedEnd.GetOr(AddMinutes(start, minutes));
              var allowed := MayRequest(calendar.slots, calendar.blocks, old(bookings).Values, artisan, date, start, end);
              var full := |PendingIds(old(bookings), customer, artisan)| >= MAX_PENDING;
              && r == (if end <= start then Err(EndNotAfterStart)
                       else if !allowed then Err(OutsideBookableHours)
                       else if full then Err(TooManyPending)
                       else Ok(id))
              && bookings == if r.Ok? then old(bookings)[id := Booking(customer, artisan, date, start, end, Pending)]
                             else old(bookings)
    {
      var end := askedEnd.GetOr(AddMinutes(start, minutes));
      if end <= start {
        return Err(EndNotAfterStart);
      }
      var rows := AllBookings();
      var bookable := calendar.ComputeBookableWindows(artisan, date, rows);
      if !FitsSome(bookable, start, end) {
        return Err(OutsideBookableHours);
      }
      if Taken(bookings, artisan, date, start, end) {
        return Err(NoLongerAvailable);
      }
      if |PendingIds(bookings, customer, artisan)| >= MAX_PENDING {
        return Err(TooManyPending);
      }
      InsertFits(bookings, id, Booking(customer, artisan, date, start, end, Pending));
      bookings := bookings[id := Booking(customer, artisan, date, start, end, Pending)];
      return Ok(id);
    }
  }
}

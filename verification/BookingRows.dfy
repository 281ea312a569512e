/** The booking row, as far as scheduling and the booking's life cycle read it. */
module BookingRows {

  datatype BookingStatus = Pending | Confirmed | Completed | Cancelled | Declined | Expired | NoShow

  /** Dates are day numbers, times are seconds from midnight. */
  datatype Booking = Booking(customer: nat, artisan: nat, date: int, start: int, end: int, status: BookingStatus)
  {
    /** OCCUPYING_BOOKING_STATUSES: the booking takes its time slot. */
    predicate Occupies() {
      status.Pending? || status.Confirmed?
    }

    predicate OccupiesOn(profile: nat, day: int) {
      Occupies() && artisan == profile && date == day
    }
  }
}

/**
 * Bookings, jobs and applications together: what each call of src/bookings/bookings.service.ts and
 * src/jobs/jobs.service.ts does to the tables, and what all of them keep.
 */
module Market {
  import opened Wrappers
  import opened BookingRows
  import opened JobRows

  datatype Tables = Tables(bookings: map<nat, Booking>, jobs: map<nat, Job>, applications: map<nat, Application>)

  // ─── What the calls do; `None` is a refusal, which changes nothing ────────────────

  ghost predicate MadeFor(t: Tables, j: nat, b: nat) {
    j in t.jobs && t.jobs[j].booking == Some(b)
  }

  /** The job found through its booking. */
  ghost function JobOf(t: Tables, b: nat): Option<nat> {
    if j: nat :| MadeFor(t, j, b) then Some(j) else None
  }

  function SetBooking(t: Tables, b: nat, status: BookingStatus): Tables
    requires b in t.bookings
  {
    t.(bookings := t.bookings[b := t.bookings[b].(status := status)])
  }

  function SetJob(t: Tables, j: nat, job: Job): Tables {
    t.(jobs := t.jobs[j := job])
  }

  /** `syncLinkedBooking`: a no-op unless the job was booked and its booking is still confirmed. */
  function Synced(t: Tables, j: nat, to: BookingStatus): Tables
    requires j in t.jobs
  {
    var booking := t.jobs[j].booking;
    if booking.Some? && booking.value in t.bookings && t.bookings[booking.value].status.Confirmed? then
      SetBooking(t, booking.value, to)
    else
      t
  }

  /** What a confirmation has to go by: prices above zero, in pesewas, and whether the booking still has its service. */
  datatype Terms = Terms(agreed: Option<nat>, asked: Option<nat>, catalog: Option<nat>, hasService: bool)

  /** The price the customer will pay; none when there is none, or when the artisan's differs from the agreed one. */
  function Price(terms: Terms): Option<nat> {
    if terms.agreed.Some? then
      if terms.asked.Some? && terms.asked != terms.agreed then None else terms.agreed
    else if terms.asked.Some? then terms.asked
    else terms.catalog
  }

  ghost function Confirm(t: Tables, b: nat, artisan: nat, newJob: nat, intent: nat, terms: Terms): Option<Tables> {
    if b !in t.bookings || t.bookings[b].artisan != artisan || !t.bookings[b].status.Pending? || Price(terms).None? then None
    else
      var confirmed := SetBooking(t, b, Confirmed);
      if JobOf(t, b).Some? then Some(confirmed)
      else if !terms.hasService then None
      else Some(SetJob(confirmed, newJob, NewJob(t.bookings[b].customer, Some(b), JobPending, Some(artisan), Some(intent), artisan)))
  }

  function Decline(t: Tables, b: nat, artisan: nat): Option<Tables> {
    if b in t.bookings && t.bookings[b].artisan == artisan && t.bookings[b].status.Pending?
    then Some(SetBooking(t, b, Declined)) else None
  }

  function ExpireBooking(t: Tables, b: nat): Option<Tables> {
    if b in t.bookings && t.bookings[b].status.Pending? then Some(SetBooking(t, b, Expired)) else None
  }

  function FlagNoShow(t: Tables, b: nat, user: nat, ended: bool): Option<Tables> {
    if b in t.bookings && (t.bookings[b].customer == user || t.bookings[b].artisan == user)
       && t.bookings[b].status.Confirmed? && ended
    then Some(SetBooking(t, b, NoShow)) else None
  }

  /** `refunded` is the payment provider's answer, asked only when the job carries a payment. */
  ghost function CancelBooking(t: Tables, b: nat, customer: nat, refunded: bool): Option<Tables> {
    if b !in t.bookings || t.bookings[b].customer != customer || !t.bookings[b].Occupies() then None
    else
      match JobOf(t, b)
      case None => Some(SetBooking(t, b, Cancelled))
      case Some(j) =>
        if !t.jobs[j].status.JobPending? || (t.jobs[j].intent.Some? && !refunded) then None
        else Some(SetJob(SetBooking(t, b, Cancelled), j, Transition(t.jobs[j], JobCancelled, Some(customer))))
  }

  function ConfirmCompletion(t: Tables, j: nat, customer: nat): Option<Tables> {
    if j in t.jobs && t.jobs[j].customer == customer && t.jobs[j].status.InProgress? && t.jobs[j].completionRequestedAt.Some?
    then Some(SetJob(Synced(t, j, Completed), j, Transition(t.jobs[j], JobCompleted, Some(customer))))
    else None
  }

  ghost function CompleteBooking(t: Tables, b: nat, customer: nat): Option<Tables> {
    if b !in t.bookings || t.bookings[b].customer != customer || !t.bookings[b].status.Confirmed? then None
    else
      match JobOf(t, b)
      case None => Some(SetBooking(t, b, Completed))
      case Some(j) =>
        if t.jobs[j].intent.Some? then ConfirmCompletion(t, j, customer)
        else if t.jobs[j].status.JobCompleted? || t.jobs[j].status.JobCancelled? then Some(SetBooking(t, b, Completed))
        else Some(SetJob(SetBooking(t, b, Completed), j, Transition(t.jobs[j], JobCompleted, Some(customer))))
  }

  function AutoComplete(t: Tables, j: nat, now: int): Option<Tables> {
    if j in t.jobs && t.jobs[j].status.InProgress? && t.jobs[j].completionRequestedAt.Some?
       && now - t.jobs[j].completionRequestedAt.value >= AUTO_COMPLETE_AFTER
    then Some(SetJob(Synced(t, j, Completed), j, Transition(t.jobs[j], JobCompleted, None)))
    else None
  }

  function Rejected(t: Tables, j: nat, except: Option<nat>): map<nat, Application> {
    map a | a in t.applications ::
      if t.applications[a].job == j && t.applications[a].status.AppPending? && except != Some(a)
      then t.applications[a].(status := AppRejected) else t.applications[a]
  }

  /** The row keeps its payment intent: an `undefined` property is not written. */
  function CancelJob(t: Tables, j: nat, customer: nat, refunded: bool): Option<Tables> {
    if j in t.jobs && t.jobs[j].customer == customer && t.jobs[j].Cancellable() && (t.jobs[j].intent.Some? ==> refunded)
    then Some(SetJob(Synced(t, j, Cancelled), j, Transition(t.jobs[j], JobCancelled, Some(customer)))
              .(applications := Rejected(t, j, None)))
    else None
  }

  function PostJob(t: Tables, j: nat, customer: nat): Option<Tables> {
    if j in t.jobs then None else Some(SetJob(t, j, NewJob(customer, None, JobOpen, None, None, customer)))
  }

  function ApplyToJob(t: Tables, a: nat, j: nat, artisan: nat): Option<Tables> {
    if j in t.jobs && t.jobs[j].status.JobOpen? && a !in t.applications
       && (forall x :: x in t.applications ==> !(t.applications[x].job == j && t.applications[x].artisan == artisan))
    then Some(t.(applications := t.applications[a := Application(j, artisan, AppPending)]))
    else None
  }

  /** `held` is the new payment, or nothing when the provider refuses it. */
  function Accept(t: Tables, j: nat, a: nat, customer: nat, held: Option<nat>): Option<Tables> {
    if j in t.jobs && t.jobs[j].customer == customer && t.jobs[j].status.JobOpen?
       && a in t.applications && t.applications[a].job == j && t.applications[a].status.AppPending? && held.Some?
    then
      var chosen := t.applications[a];
      Some(SetJob(t, j, Transition(t.jobs[j], JobPending, Some(customer)).(accepted := Some(chosen.artisan), intent := held))
           .(applications := Rejected(t, j, Some(a))[a := chosen.(status := AppAccepted)]))
    else None
  }

  function StartJob(t: Tables, j: nat, artisan: nat, secured: bool): Option<Tables> {
    if j in t.jobs && t.jobs[j].status.JobPending? && t.jobs[j].accepted == Some(artisan) && (t.jobs[j].intent.Some? ==> secured)
    then Some(SetJob(t, j, Transition(t.jobs[j], InProgress, Some(artisan)))) else None
  }

  function RequestCompletion(t: Tables, j: nat, artisan: nat, now: int): Option<Tables> {
    if j in t.jobs && t.jobs[j].status.InProgress? && t.jobs[j].accepted == Some(artisan)
       && t.jobs[j].completionRequestedAt.None?
    then Some(SetJob(t, j, t.jobs[j].(completionRequestedAt := Some(now)))) else None
  }

  function ExpireJob(t: Tables, j: nat): Option<Tables> {
    if j in t.jobs && t.jobs[j].status.JobOpen?
    then Some(SetJob(t, j, Transition(t.jobs[j], JobExpired, None)).(applications := Rejected(t, j, None)))
    else None
  }

  // ─── What holds between the tables ───────────────────────────────────────────────

  /** The statuses a job may have while its booking has this one. */
  predicate Agrees(booking: BookingStatus, job: JobStatus) {
    match booking
    case Pending => false
    case Declined => false
    case Expired => false
    case Confirmed => job.JobPending? || job.InProgress?
    case Completed => job.JobCompleted?
    case Cancelled => job.JobCancelled?
    case NoShow => !job.JobOpen? && !job.JobExpired?
  }

  /** The booking has been confirmed once, so it has a job. */
  predicate NeedsJob(booking: BookingStatus) {
    booking.Confirmed? || booking.Completed? || booking.NoShow?
  }

  /** The job agrees with the booking it was made for. */
  ghost predicate JobFits(t: Tables, job: Job) {
    && (job.booking.Some? ==>
        && job.booking.value in t.bookings
        && job.customer == t.bookings[job.booking.value].customer
        && Agrees(t.bookings[job.booking.value].status, job.status))
    && (job.completionRequestedAt.Some? ==> job.status.InProgress? || job.status.JobCompleted?)
  }

  ghost predicate Linked(t: Tables) {
    && (forall j, k, b: nat {:trigger MadeFor(t, j, b), MadeFor(t, k, b)} :: MadeFor(t, j, b) && MadeFor(t, k, b) ==> j == k)
    && (forall b :: b in t.bookings && NeedsJob(t.bookings[b].status) ==> exists j: nat :: MadeFor(t, j, b))
  }

  /** Only an open job has applications waiting; an accepted one is that of the job's artisan, and there is one. */
  ghost predicate ApplicationsOk(t: Tables) {
    && (forall a :: a in t.applications ==>
          && t.applications[a].job in t.jobs
          && (t.applications[a].status.AppPending? ==> t.jobs[t.applications[a].job].status.JobOpen?)
          && (t.applications[a].status.AppAccepted? ==>
              && !t.jobs[t.applications[a].job].status.JobOpen?
              && t.jobs[t.applications[a].job].accepted == Some(t.applications[a].artisan)))
    && (forall a, x ::
          (&& a in t.applications && x in t.applications && t.applications[a].job == t.applications[x].job
           && t.applications[a].status.AppAccepted? && t.applications[x].status.AppAccepted?)
          ==> a == x)
  }

  ghost predicate Consistent(t: Tables) {
    && (forall j :: j in t.jobs ==> JobFits(t, t.jobs[j]))
    && (forall j :: j in t.jobs ==> Chained(t.jobs[j]))
    && Linked(t)
    && ApplicationsOk(t)
  }

  // ─── Every call keeps it ─────────────────────────────────────────────────────────

  lemma JobOfIs(t: Tables, j: nat, b: nat)
    requires Linked(t) && MadeFor(t, j, b)
    ensures JobOf(t, b) == Some(j)
  {
  }

  /** A booking without a job changes its status among those that need none. */
  lemma BookingOnly(t: Tables, b: nat, to: BookingStatus)
    requires Consistent(t) && b in t.bookings && JobOf(t, b).None? && !NeedsJob(to)
    ensures Consistent(SetBooking(t, b, to))
  {
    var s := SetBooking(t, b, to);
    forall j | j in s.jobs ensures JobFits(s, s.jobs[j]) {
      assert JobFits(t, t.jobs[j]);
      assert !MadeFor(t, j, b);
    }
    LinkedStays(t, s);
  }

  /** The links stay when the same jobs are made for the same bookings and no booking newly needs a job. */
  lemma LinkedStays(t: Tables, s: Tables)
    requires Linked(t)
    requires forall j: nat, b: nat {:trigger MadeFor(s, j, b)} :: MadeFor(s, j, b) <==> MadeFor(t, j, b)
    requires forall b :: b in s.bookings && NeedsJob(s.bookings[b].status) ==> exists j: nat :: MadeFor(t, j, b)
    ensures Linked(s)
  {
    forall b | b in s.bookings && NeedsJob(s.bookings[b].status) ensures exists j: nat :: MadeFor(s, j, b) {
      var j: nat :| MadeFor(t, j, b);
      assert MadeFor(s, j, b);
    }
  }

  lemma BothMoveFits(t: Tables, b: nat, j: nat, job: Job, to: BookingStatus)
    requires Consistent(t) && b in t.bookings && MadeFor(t, j, b)
    requires job.booking == Some(b) && job.customer == t.jobs[j].customer
    requires Agrees(to, job.status)
    requires job.completionRequestedAt.Some? ==> job.status.InProgress? || job.status.JobCompleted?
    ensures var s := SetJob(SetBooking(t, b, to), j, job);
            forall k :: k in s.jobs ==> JobFits(s, s.jobs[k])
  {
    var s := SetJob(SetBooking(t, b, to), j, job);
    assert JobFits(t, t.jobs[j]);
    forall k | k in s.jobs ensures JobFits(s, s.jobs[k]) {
      if k != j {
        OtherJobStays(t, s, b, j, k);
      }
    }
  }

  /** Job and booking move together. */
  lemma BothMove(t: Tables, b: nat, j: nat, job: Job, to: BookingStatus)
    requires Consistent(t) && b in t.bookings && MadeFor(t, j, b)
    requires Chained(job) && job.booking == Some(b) && job.customer == t.jobs[j].customer && job.accepted == t.jobs[j].accepted
    requires Agrees(to, job.status)
    requires job.completionRequestedAt.Some? ==> job.status.InProgress? || job.status.JobCompleted?
    ensures Consistent(SetJob(SetBooking(t, b, to), j, job))
  {
    hide Chained, ApplicationsOk;
    var s := SetJob(SetBooking(t, b, to), j, job);
    BothMoveFits(t, b, j, job, to);
    LinkedStays(t, s);
    assert JobFits(t, t.jobs[j]);
    ApplicationsFollow(t, s);
  }

  /** A job is untouched by what happens to the booking of another. */
  lemma OtherJobStays(t: Tables, s: Tables, b: nat, j: nat, k: nat)
    requires Linked(t) && MadeFor(t, j, b) && k in t.jobs && k != j && JobFits(t, t.jobs[k])
    requires k in s.jobs && s.jobs[k] == t.jobs[k]
    requires forall x :: x in t.bookings && x != b ==> x in s.bookings && s.bookings[x] == t.bookings[x]
    ensures JobFits(s, s.jobs[k])
  {
    assert !MadeFor(t, k, b);
  }

  /** Applications stay in order when no job opens, an open one stays open, and nobody's acceptance is touched. */
  lemma ApplicationsFollow(t: Tables, s: Tables)
    requires ApplicationsOk(t) && s.applications == t.applications
    requires forall j :: j in t.jobs ==>
               && j in s.jobs && s.jobs[j].accepted == t.jobs[j].accepted
               && (s.jobs[j].status.JobOpen? <==> t.jobs[j].status.JobOpen?)
    ensures ApplicationsOk(s)
  {
    forall a | a in s.applications
      ensures s.applications[a].job in s.jobs
      ensures s.applications[a].status.AppPending? ==> s.jobs[s.applications[a].job].status.JobOpen?
      ensures s.applications[a].status.AppAccepted? ==>
                && !s.jobs[s.applications[a].job].status.JobOpen?
                && s.jobs[s.applications[a].job].accepted == Some(s.applications[a].artisan)
    {
      assert t.applications[a].job in t.jobs;
    }
  }

  /** A job moves and no booking does. */
  lemma JobOnly(t: Tables, j: nat, job: Job)
    requires Consistent(t) && j in t.jobs
    requires Chained(job) && job.booking == t.jobs[j].booking && job.customer == t.jobs[j].customer
    requires job.accepted == t.jobs[j].accepted && (job.status.JobOpen? <==> t.jobs[j].status.JobOpen?)
    requires job.booking.Some? ==> Agrees(t.bookings[job.booking.value].status, job.status)
    requires job.completionRequestedAt.Some? ==> job.status.InProgress? || job.status.JobCompleted?
    ensures Consistent(SetJob(t, j, job))
  {
    hide Chained, ApplicationsOk, Agrees;
    var s := SetJob(t, j, job);
    assert JobFits(t, t.jobs[j]);
    forall k | k in s.jobs ensures JobFits(s, s.jobs[k]) {
      assert JobFits(t, t.jobs[k]);
    }
    LinkedStays(t, s);
    ApplicationsFollow(t, s);
  }
}

/** Whatever the order of the calls, bookings, jobs and applications agree and each history is unbroken. */
module MarketRuns {
  import opened Wrappers
  import opened BookingRows
  import opened JobRows
  import opened Market

  datatype Call =
    | RequestBooking(b: nat, booking: Booking)
    | ConfirmCall(b: nat, artisan: nat, newJob: nat, intent: nat, terms: Terms)
    | DeclineCall(b: nat, artisan: nat)
    | ExpireBookingCall(b: nat)
    | NoShowCall(b: nat, user: nat, ended: bool)
    | CancelBookingCall(b: nat, customer: nat, refunded: bool)
    | CompleteBookingCall(b: nat, customer: nat)
    | PostJobCall(j: nat, customer: nat)
    | ApplyCall(a: nat, j: nat, artisan: nat)
    | AcceptCall(j: nat, a: nat, customer: nat, held: Option<nat>)
    | StartCall(j: nat, artisan: nat, secured: bool)
    | RequestCompletionCall(j: nat, artisan: nat, now: int)
    | ConfirmCompletionCall(j: nat, customer: nat)
    | AutoCompleteCall(j: nat, now: int)
    | CancelJobCall(j: nat, customer: nat, refunded: bool)
    | ExpireJobCall(j: nat)

  ghost function Do(t: Tables, call: Call): Option<Tables> {
    match call
    case RequestBooking(b, booking) =>
      if b !in t.bookings && booking.status.Pending? then Some(t.(bookings := t.bookings[b := booking])) else None
    case ConfirmCall(b, artisan, newJob, intent, terms) => if newJob in t.jobs then None else Confirm(t, b, artisan, newJob, intent, terms)
    case DeclineCall(b, artisan) => Decline(t, b, artisan)
    case ExpireBookingCall(b) => ExpireBooking(t, b)
    case NoShowCall(b, user, ended) => FlagNoShow(t, b, user, ended)
    case CancelBookingCall(b, customer, refunded) => CancelBooking(t, b, customer, refunded)
    case CompleteBookingCall(b, customer) => CompleteBooking(t, b, customer)
    case PostJobCall(j, customer) => PostJob(t, j, customer)
    case ApplyCall(a, j, artisan) => ApplyToJob(t, a, j, artisan)
    case AcceptCall(j, a, customer, held) => Accept(t, j, a, customer, held)
    case StartCall(j, artisan, secured) => StartJob(t, j, artisan, secured)
    case RequestCompletionCall(j, artisan, now) => RequestCompletion(t, j, artisan, now)
    case ConfirmCompletionCall(j, customer) => ConfirmCompletion(t, j, customer)
    case AutoCompleteCall(j, now) => AutoComplete(t, j, now)
    case CancelJobCall(j, customer, refunded) => CancelJob(t, j, customer, refunded)
    case ExpireJobCall(j) => ExpireJob(t, j)
  }

  /** The state after a call, refused or not. */
  ghost function After(t: Tables, call: Call): Tables {
    Do(t, call).GetOr(t)
  }

  lemma NoJobBefore(t: Tables, b: nat)
    requires Consistent(t) && b in t.bookings
    requires t.bookings[b].status.Pending? || t.bookings[b].status.Declined? || t.bookings[b].status.Expired?
    ensures JobOf(t, b).None?
  {
    assert forall j: nat :: MadeFor(t, j, b) ==> JobFits(t, t.jobs[j]);
  }

  lemma RequestKeeps(t: Tables, b: nat, booking: Booking)
    requires Consistent(t) && b !in t.bookings && booking.status.Pending?
    ensures Consistent(t.(bookings := t.bookings[b := booking]))
  {
    var s := t.(bookings := t.bookings[b := booking]);
    forall j | j in s.jobs ensures JobFits(s, s.jobs[j]) {
      assert JobFits(t, t.jobs[j]);
    }
    LinkedStays(t, s);
    ApplicationsFollow(t, s);
  }

  lemma ConfirmKeeps(t: Tables, b: nat, artisan: nat, newJob: nat, intent: nat, terms: Terms)
    requires Consistent(t) && newJob !in t.jobs
    requires Confirm(t, b, artisan, newJob, intent, terms).Some?
    ensures Consistent(Confirm(t, b, artisan, newJob, intent, terms).value)
  {
    NoJobBefore(t, b);
    var s := Confirm(t, b, artisan, newJob, intent, terms).value;
    forall j | j in s.jobs ensures JobFits(s, s.jobs[j]) {
      if j != newJob {
        assert JobFits(t, t.jobs[j]);
        assert !MadeFor(t, j, b);
      }
    }
    forall j, k, x: nat {:trigger MadeFor(s, j, x), MadeFor(s, k, x)} | MadeFor(s, j, x) && MadeFor(s, k, x) ensures j == k {
      assert j != newJob ==> MadeFor(t, j, x);
      assert k != newJob ==> MadeFor(t, k, x);
    }
    forall x | x in s.bookings && NeedsJob(s.bookings[x].status) ensures exists j: nat :: MadeFor(s, j, x) {
      if x == b {
        assert MadeFor(s, newJob, b);
      } else {
        var j: nat :| MadeFor(t, j, x);
        assert MadeFor(s, j, x);
      }
    }
    ApplicationsFollow(t, s);
  }

  /** A job that was not booked, or was, reaches a terminal status; a confirmed booking follows. */
  lemma FinishKeeps(t: Tables, j: nat, to: JobStatus, with: BookingStatus, who: Option<nat>)
    requires Consistent(t) && j in t.jobs
    requires (to.JobCompleted? && with.Completed? && t.jobs[j].status.InProgress?)
             || (to.JobCancelled? && with.Cancelled? && t.jobs[j].Cancellable() && !t.jobs[j].status.JobOpen?)
    ensures Consistent(SetJob(Synced(t, j, with), j, Transition(t.jobs[j], to, who)))
  {
    var job := Transition(t.jobs[j], to, who);
    assert JobFits(t, t.jobs[j]);
    TransitionChains(t.jobs[j], to, who);
    if job.booking.Some? && t.bookings[job.booking.value].status.Confirmed? {
      assert MadeFor(t, j, job.booking.value);
      BothMove(t, job.booking.value, j, job, with);
    } else {
      JobOnly(t, j, job);
    }
  }

  lemma CancelBookingKeeps(t: Tables, b: nat, customer: nat, refunded: bool)
    requires Consistent(t) && CancelBooking(t, b, customer, refunded).Some?
    ensures Consistent(CancelBooking(t, b, customer, refunded).value)
  {
    match JobOf(t, b)
    case None => BookingOnly(t, b, Cancelled);
    case Some(j) =>
      assert JobFits(t, t.jobs[j]);
      TransitionChains(t.jobs[j], JobCancelled, Some(customer));
      BothMove(t, b, j, Transition(t.jobs[j], JobCancelled, Some(customer)), Cancelled);
  }

  lemma CompleteBookingKeeps(t: Tables, b: nat, customer: nat)
    requires Consistent(t) && CompleteBooking(t, b, customer).Some?
    ensures Consistent(CompleteBooking(t, b, customer).value)
  {
    var j: nat :| MadeFor(t, j, b);
    JobOfIs(t, j, b);
    assert JobFits(t, t.jobs[j]);
    if t.jobs[j].intent.Some? {
      FinishKeeps(t, j, JobCompleted, Completed, Some(customer));
    } else {
      TransitionChains(t.jobs[j], JobCompleted, Some(customer));
      BothMove(t, b, j, Transition(t.jobs[j], JobCompleted, Some(customer)), Completed);
    }
  }

  lemma NoShowKeeps(t: Tables, b: nat, user: nat, ended: bool)
    requires Consistent(t) && FlagNoShow(t, b, user, ended).Some?
    ensures Consistent(FlagNoShow(t, b, user, ended).value)
  {
    var j: nat :| MadeFor(t, j, b);
    assert JobFits(t, t.jobs[j]);
    BothMove(t, b, j, t.jobs[j], NoShow);
    assert SetJob(SetBooking(t, b, NoShow), j, t.jobs[j]) == SetBooking(t, b, NoShow);
  }

  /** The job leaves OPEN and the applications that wait on it are turned down, all but the chosen one. */
  lemma LeaveOpen(t: Tables, j: nat, job: Job, chosen: Option<nat>)
    requires Consistent(t) && j in t.jobs && t.jobs[j].status.JobOpen?
    requires Chained(job) && job.booking == t.jobs[j].booking && !job.status.JobOpen?
    requires job.completionRequestedAt == t.jobs[j].completionRequestedAt
    requires chosen.Some? ==>
               && chosen.value in t.applications && t.applications[chosen.value].job == j
               && job.accepted == Some(t.applications[chosen.value].artisan)
    ensures var turned := Rejected(t, j, chosen);
            Consistent(SetJob(t, j, job).(applications :=
              if chosen.Some? then turned[chosen.value := t.applications[chosen.value].(status := AppAccepted)] else turned))
  {
    hide Chained, ApplicationsOk, Rejected;
    var turned := Rejected(t, j, chosen);
    var apps := if chosen.Some? then turned[chosen.value := t.applications[chosen.value].(status := AppAccepted)] else turned;
    var s := SetJob(t, j, job).(applications := apps);
    assert JobFits(t, t.jobs[j]);
    forall k | k in s.jobs ensures JobFits(s, s.jobs[k]) {
      assert JobFits(t, t.jobs[k]);
    }
    LinkedStays(t, s);
    TurnedDown(t, s, j, chosen);
  }

  lemma TurnedDown(t: Tables, s: Tables, j: nat, chosen: Option<nat>)
    requires ApplicationsOk(t) && j in t.jobs && t.jobs[j].status.JobOpen?
    requires s.jobs.Keys == t.jobs.Keys && !s.jobs[j].status.JobOpen?
    requires forall k :: k in t.jobs && k != j ==> s.jobs[k] == t.jobs[k]
    requires chosen.Some? ==>
               && chosen.value in t.applications && t.applications[chosen.value].job == j
               && s.jobs[j].accepted == Some(t.applications[chosen.value].artisan)
    requires s.applications == if chosen.Some?
               then Rejected(t, j, chosen)[chosen.value := t.applications[chosen.value].(status := AppAccepted)]
               else Rejected(t, j, chosen)
    ensures ApplicationsOk(s)
  {
    TurnedRows(t, s.applications, j, chosen);
    hide Rejected;
    forall a | a in s.applications
      ensures s.applications[a].job in s.jobs
      ensures s.applications[a].status.AppPending? ==> s.jobs[s.applications[a].job].status.JobOpen?
      ensures s.applications[a].status.AppAccepted? ==>
                && !s.jobs[s.applications[a].job].status.JobOpen?
                && s.jobs[s.applications[a].job].accepted == Some(s.applications[a].artisan)
    {
      assert t.applications[a].job in t.jobs;
    }
  }

  /** What becomes of each application when a job leaves OPEN. */
  lemma TurnedRows(t: Tables, apps: map<nat, Application>, j: nat, chosen: Option<nat>)
    requires ApplicationsOk(t) && j in t.jobs && t.jobs[j].status.JobOpen?
    requires chosen.Some? ==> chosen.value in t.applications && t.applications[chosen.value].job == j
    requires apps == if chosen.Some?
               then Rejected(t, j, chosen)[chosen.value := t.applications[chosen.value].(status := AppAccepted)]
               else Rejected(t, j, chosen)
    ensures apps.Keys == t.applications.Keys
    ensures forall a :: a in apps ==> apps[a].job == t.applications[a].job && apps[a].artisan == t.applications[a].artisan
    ensures forall a :: a in apps && t.applications[a].job != j ==> apps[a] == t.applications[a]
    ensures forall a :: a in apps && t.applications[a].job == j && chosen != Some(a) ==> apps[a].status.AppRejected?
    ensures chosen.Some? ==> apps[chosen.value].status.AppAccepted?
  {
    forall a | a in apps && t.applications[a].job == j && chosen != Some(a) ensures apps[a].status.AppRejected? {
      assert a in t.applications;
    }
  }

  lemma CancelJobKeeps(t: Tables, j: nat, customer: nat, refunded: bool)
    requires Consistent(t) && CancelJob(t, j, customer, refunded).Some?
    ensures Consistent(CancelJob(t, j, customer, refunded).value)
  {
    assert JobFits(t, t.jobs[j]);
    TransitionChains(t.jobs[j], JobCancelled, Some(customer));
    var job := Transition(t.jobs[j], JobCancelled, Some(customer));
    if t.jobs[j].status.JobOpen? {
      LeaveOpen(t, j, job, None);
      assert Synced(t, j, Cancelled) == t;
    } else {
      FinishKeeps(t, j, JobCancelled, Cancelled, Some(customer));
      NobodyWaits(t, j);
    }
  }

  lemma NobodyWaits(t: Tables, j: nat)
    requires ApplicationsOk(t) && j in t.jobs && !t.jobs[j].status.JobOpen?
    ensures Rejected(t, j, None) == t.applications
  {
  }

  lemma AcceptKeeps(t: Tables, j: nat, a: nat, customer: nat, held: Option<nat>)
    requires Consistent(t) && Accept(t, j, a, customer, held).Some?
    ensures Consistent(Accept(t, j, a, customer, held).value)
  {
    TransitionChains(t.jobs[j], JobPending, Some(customer));
    var moved := Transition(t.jobs[j], JobPending, Some(customer));
    LeaveOpen(t, j, moved.(accepted := Some(t.applications[a].artisan), intent := held), Some(a));
  }

  lemma StartKeeps(t: Tables, j: nat, artisan: nat, secured: bool)
    requires Consistent(t) && StartJob(t, j, artisan, secured).Some?
    ensures Consistent(StartJob(t, j, artisan, secured).value)
  {
    assert JobFits(t, t.jobs[j]);
    TransitionChains(t.jobs[j], InProgress, Some(artisan));
    JobOnly(t, j, Transition(t.jobs[j], InProgress, Some(artisan)));
  }

  lemma PostKeeps(t: Tables, j: nat, customer: nat)
    requires Consistent(t) && PostJob(t, j, customer).Some?
    ensures Consistent(PostJob(t, j, customer).value)
  {
    hide ApplicationsOk, Agrees, Linked;
    var s := PostJob(t, j, customer).value;
    LinkedPosts(t, j, customer);
    forall k | k in s.jobs ensures JobFits(s, s.jobs[k]) {
      assert k != j ==> JobFits(t, t.jobs[k]);
    }
    ApplicationsFollow(t, s);
  }

  lemma LinkedPosts(t: Tables, j: nat, customer: nat)
    requires Linked(t) && PostJob(t, j, customer).Some?
    ensures Linked(PostJob(t, j, customer).value)
  {
    LinkedStays(t, PostJob(t, j, customer).value);
  }

  lemma ApplyKeeps(t: Tables, a: nat, j: nat, artisan: nat)
    requires Consistent(t) && ApplyToJob(t, a, j, artisan).Some?
    ensures Consistent(ApplyToJob(t, a, j, artisan).value)
  {
    var s := ApplyToJob(t, a, j, artisan).value;
    forall k | k in s.jobs ensures JobFits(s, s.jobs[k]) {
      assert JobFits(t, t.jobs[k]);
    }
    LinkedStays(t, s);
  }

  lemma RequestCompletionKeeps(t: Tables, j: nat, artisan: nat, now: int)
    requires Consistent(t) && RequestCompletion(t, j, artisan, now).Some?
    ensures Consistent(RequestCompletion(t, j, artisan, now).value)
  {
    assert JobFits(t, t.jobs[j]);
    JobOnly(t, j, t.jobs[j].(completionRequestedAt := Some(now)));
  }

  lemma ExpireJobKeeps(t: Tables, j: nat)
    requires Consistent(t) && ExpireJob(t, j).Some?
    ensures Consistent(ExpireJob(t, j).value)
  {
    TransitionChains(t.jobs[j], JobExpired, None);
    LeaveOpen(t, j, Transition(t.jobs[j], JobExpired, None), None);
  }

  /** Every call keeps the tables consistent. */
  lemma CallKeeps(t: Tables, call: Call)
    requires Consistent(t)
    ensures Consistent(After(t, call))
  {
    hide Consistent;
    if Do(t, call).Some? {
      match call
      case RequestBooking(b, booking) => RequestKeeps(t, b, booking);
      case ConfirmCall(b, artisan, newJob, intent, terms) => ConfirmKeeps(t, b, artisan, newJob, intent, terms);
      case DeclineCall(b, artisan) =>
        NoJobBefore(t, b);
        BookingOnly(t, b, Declined);
      case ExpireBookingCall(b) =>
        NoJobBefore(t, b);
        BookingOnly(t, b, Expired);
      case NoShowCall(b, user, ended) => NoShowKeeps(t, b, user, ended);
      case CancelBookingCall(b, customer, refunded) => CancelBookingKeeps(t, b, customer, refunded);
      case CompleteBookingCall(b, customer) => CompleteBookingKeeps(t, b, customer);
      case PostJobCall(j, customer) => PostKeeps(t, j, customer);
      case ApplyCall(a, j, artisan) => ApplyKeeps(t, a, j, artisan);
      case AcceptCall(j, a, customer, held) => AcceptKeeps(t, j, a, customer, held);
      case StartCall(j, artisan, secured) => StartKeeps(t, j, artisan, secured);
      case RequestCompletionCall(j, artisan, now) => RequestCompletionKeeps(t, j, artisan, now);
      case ConfirmCompletionCall(j, customer) => FinishKeeps(t, j, JobCompleted, Completed, Some(customer));
      case AutoCompleteCall(j, now) => FinishKeeps(t, j, JobCompleted, Completed, None);
      case CancelJobCall(j, customer, refunded) => CancelJobKeeps(t, j, customer, refunded);
      case ExpireJobCall(j) => ExpireJobKeeps(t, j);
    }
  }

  ghost function AfterAll(t: Tables, calls: seq<Call>): Tables
    decreases |calls|
  {
    if calls == [] then t else AfterAll(After(t, calls[0]), calls[1..])
  }

  const EMPTY := Tables(map[], map[], map[])

  lemma {:induction false} CallsKeep(t: Tables, calls: seq<Call>)
    requires Consistent(t)
    ensures Consistent(AfterAll(t, calls))
    decreases |calls|
  {
    if calls != [] {
      CallKeeps(t, calls[0]);
      CallsKeep(After(t, calls[0]), calls[1..]);
    }
  }

  /** After any calls whatever, a booking and its job agree, and there is a job exactly when there must be one. */
  lemma BookingAndJobAgree(calls: seq<Call>, b: nat)
    requires b in AfterAll(EMPTY, calls).bookings
    ensures var t := AfterAll(EMPTY, calls);
            && (forall j: nat :: MadeFor(t, j, b) ==> Agrees(t.bookings[b].status, t.jobs[j].status))
            && (forall j, k: nat {:trigger MadeFor(t, j, b), MadeFor(t, k, b)} :: MadeFor(t, j, b) && MadeFor(t, k, b) ==> j == k)
            && (NeedsJob(t.bookings[b].status) ==> exists j: nat :: MadeFor(t, j, b))
  {
    CallsKeep(EMPTY, calls);
    var t := AfterAll(EMPTY, calls);
    forall j: nat | MadeFor(t, j, b) ensures Agrees(t.bookings[b].status, t.jobs[j].status) {
      assert JobFits(t, t.jobs[j]);
    }
  }

  /** A job made from a booking is never open for applications and never expires. */
  lemma BookedJobNeverOpen(calls: seq<Call>, j: nat)
    requires j in AfterAll(EMPTY, calls).jobs && AfterAll(EMPTY, calls).jobs[j].booking.Some?
    ensures var job := AfterAll(EMPTY, calls).jobs[j];
            !job.status.JobOpen? && !job.status.JobExpired?
    ensures var t := AfterAll(EMPTY, calls);
            forall a :: a in t.applications && t.applications[a].job == j ==> !t.applications[a].status.AppPending?
  {
    CallsKeep(EMPTY, calls);
    assert JobFits(AfterAll(EMPTY, calls), AfterAll(EMPTY, calls).jobs[j]);
  }

  /** After any calls, the history of a job is one chain from its creation to its status, and ends it at most once. */
  lemma HistoryIsAChain(calls: seq<Call>, j: nat, i: nat)
    requires j in AfterAll(EMPTY, calls).jobs && i < |AfterAll(EMPTY, calls).jobs[j].history|
    ensures var job := AfterAll(EMPTY, calls).jobs[j];
            && Chained(job)
            && (job.history[i].to.JobCompleted? || job.history[i].to.JobCancelled? || job.history[i].to.JobExpired?
                ==> i == |job.history| - 1)
  {
    CallsKeep(EMPTY, calls);
    var job := AfterAll(EMPTY, calls).jobs[j];
    if job.history[i].to.JobCompleted? || job.history[i].to.JobCancelled? || job.history[i].to.JobExpired? {
      EndsOnce(job, i);
    }
  }

  /** A job takes at most one applicant, and it is the one it was accepted for. */
  lemma OneAcceptance(calls: seq<Call>, a: nat, x: nat)
    requires var apps := AfterAll(EMPTY, calls).applications;
             && a in apps && x in apps && apps[a].job == apps[x].job
             && apps[a].status.AppAccepted? && apps[x].status.AppAccepted?
    ensures a == x
    ensures var t := AfterAll(EMPTY, calls);
            t.applications[a].job in t.jobs && t.jobs[t.applications[a].job].accepted == Some(t.applications[a].artisan)
  {
    CallsKeep(EMPTY, calls);
  }

  /** No call rewrites history: rows are only appended, and a finished job is left alone. */
  lemma HistoryOnlyGrows(t: Tables, call: Call, j: nat)
    requires Consistent(t) && j in t.jobs
    ensures j in After(t, call).jobs && t.jobs[j].history <= After(t, call).jobs[j].history
    ensures t.jobs[j].Terminal() ==> After(t, call).jobs[j] == t.jobs[j]
  {
    hide Consistent, Do;
    if call.CompleteBookingCall? {
      CompleteBookingGrows(t, call, j);
    } else if call.CancelBookingCall? || call.CancelJobCall? || call.ConfirmCompletionCall? || call.AutoCompleteCall? {
      EndingsGrow(t, call, j);
    } else {
      OtherCallsGrow(t, call, j);
    }
  }

  lemma CompleteBookingGrows(t: Tables, call: Call, j: nat)
    requires Consistent(t) && j in t.jobs && call.CompleteBookingCall?
    ensures j in After(t, call).jobs && t.jobs[j].history <= After(t, call).jobs[j].history
    ensures t.jobs[j].Terminal() ==> After(t, call).jobs[j] == t.jobs[j]
  {
    if Do(t, call).Some? {
      var k: nat :| MadeFor(t, k, call.b);
      JobOfIs(t, k, call.b);
      assert JobFits(t, t.jobs[k]);
    }
    hide Consistent;
  }

  lemma EndingsGrow(t: Tables, call: Call, j: nat)
    requires j in t.jobs
    requires call.CancelBookingCall? || call.CancelJobCall? || call.ConfirmCompletionCall? || call.AutoCompleteCall?
    ensures j in After(t, call).jobs && t.jobs[j].history <= After(t, call).jobs[j].history
    ensures t.jobs[j].Terminal() ==> After(t, call).jobs[j] == t.jobs[j]
  {
    hide Rejected;
  }

  lemma OtherCallsGrow(t: Tables, call: Call, j: nat)
    requires j in t.jobs && !call.CompleteBookingCall?
    requires !call.CancelBookingCall? && !call.CancelJobCall? && !call.ConfirmCompletionCall? && !call.AutoCompleteCall?
    ensures j in After(t, call).jobs && t.jobs[j].history <= After(t, call).jobs[j].history
    ensures t.jobs[j].Terminal() ==> After(t, call).jobs[j] == t.jobs[j]
  {
    hide Rejected;
  }
}

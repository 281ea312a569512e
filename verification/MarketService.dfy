/** The calls as methods that change the stored rows; each is proved to do what its call does. */
module MarketService {
  import opened Wrappers
  import opened BookingRows
  import opened JobRows
  import opened Market
  import opened MarketRuns

  /** Nothing changed but the status of one booking, from one value to another. */
  ghost predicate BookingMoved(t: Tables, s: Tables, b: nat, from: BookingStatus, to: BookingStatus) {
    && b in t.bookings && t.bookings[b].status == from
    && s == t.(bookings := t.bookings[b := t.bookings[b].(status := to)])
  }

  /** Nothing changed but one job, which made one move and has one more history row for it. */
  ghost predicate JobMoved(t: Tables, s: Tables, j: nat, from: JobStatus, to: JobStatus, who: Option<nat>) {
    && j in t.jobs && t.jobs[j].status == from && j in s.jobs
    && s == t.(jobs := t.jobs[j := s.jobs[j]])
    && s.jobs[j] == t.jobs[j].(status := to, history := s.jobs[j].history)
    && s.jobs[j].history == t.jobs[j].history + [Change(Some(from), to, who)]
  }

  class Service {
    var bookings: map<nat, Booking>
    var jobs: map<nat, Job>
    var applications: map<nat, Application>

    ghost function View(): Tables
      reads this
    {
      Tables(bookings, jobs, applications)
    }

    ghost predicate Valid()
      reads this
    {
      Consistent(View())
    }

    constructor ()
      ensures Valid() && View() == EMPTY
    {
      bookings, jobs, applications := map[], map[], map[];
    }

    /** The job row whose `booking_id` is this booking. */
    method FindJob(b: nat) returns (job: Option<nat>)
      requires Valid()
      ensures job == JobOf(View(), b)
    {
      if exists j :: j in jobs && jobs[j].booking == Some(b) {
        var j :| j in jobs && jobs[j].booking == Some(b);
        assert MadeFor(View(), j, b);
        JobOfIs(View(), j, b);
        return Some(j);
      }
      assert forall j: nat :: !MadeFor(View(), j, b);
      return None;
    }

    /** Sets the status of the job and appends the history row. */
    method MoveJob(j: nat, to: JobStatus, who: Option<nat>)
      requires j in jobs
      modifies this`jobs
      ensures jobs == old(jobs)[j := Transition(old(jobs)[j], to, who)]
    {
      var job := jobs[j];
      var fromStatus := job.status;
      job := job.(status := to);
      jobs := jobs[j := job.(history := job.history + [Change(Some(fromStatus), to, who)])];
    }

    method SyncLinkedBooking(j: nat, to: BookingStatus)
      requires j in jobs
      modifies this`bookings
      ensures View() == Synced(old(View()), j, to)
    {
      var b := jobs[j].booking;
      if b.Some? && b.value in bookings && bookings[b.value].status.Confirmed? {
        bookings := bookings[b.value := bookings[b.value].(status := to)];
      }
    }

    method RejectPending(j: nat, except: Option<nat>)
      modifies this`applications
      ensures applications == Rejected(old(View()), j, except)
    {
      applications := map a | a in applications ::
        if applications[a].job == j && applications[a].status.AppPending? && except != Some(a)
        then applications[a].(status := AppRejected) else applications[a];
    }

    method ConfirmBooking(b: nat, artisan: nat, newJob: nat, intent: nat, terms: Terms) returns (ok: bool)
      requires Valid() && newJob !in jobs
      modifies this
      ensures Valid() && ok == Do(old(View()), ConfirmCall(b, artisan, newJob, intent, terms)).Some?
      ensures View() == After(old(View()), ConfirmCall(b, artisan, newJob, intent, terms))
      ensures ok <==> b in old(bookings) && old(bookings)[b].artisan == artisan && old(bookings)[b].status.Pending?
                      && Price(terms).Some? && terms.hasService
      ensures !ok ==> View() == old(View())
      ensures ok ==>
                && bookings == old(bookings)[b := old(bookings)[b].(status := Confirmed)] && applications == old(applications)
                && jobs.Keys == old(jobs).Keys + {newJob} && (forall k :: k in old(jobs) ==> jobs[k] == old(jobs)[k])
                && jobs[newJob].booking == Some(b) && jobs[newJob].customer == old(bookings)[b].customer
                && jobs[newJob].accepted == Some(artisan) && jobs[newJob].intent == Some(intent)
                && jobs[newJob].status.JobPending? && |jobs[newJob].history| == 1
    {
      hide Consistent;
      CallKeeps(View(), ConfirmCall(b, artisan, newJob, intent, terms));
      if b !in bookings || bookings[b].artisan != artisan || !bookings[b].status.Pending? {
        return false;
      }
      if Price(terms).None? {
        return false;
      }
      var existing := FindJob(b);
      NoJobBefore(View(), b);
      if existing.None? && !terms.hasService {
        return false;
      }
      bookings := bookings[b := bookings[b].(status := Confirmed)];
      if existing.None? {
        var job := Job(bookings[b].customer, Some(b), JobPending, Some(artisan), None, None,
                       [Change(None, JobPending, Some(artisan))]);
        jobs := jobs[newJob := job];
        // The payment is created once the job has an id.
        jobs := jobs[newJob := jobs[newJob].(intent := Some(intent))];
        assert jobs == old(jobs)[newJob := NewJob(bookings[b].customer, Some(b), JobPending, Some(artisan), Some(intent), artisan)];
      }
      assert View() == After(old(View()), ConfirmCall(b, artisan, newJob, intent, terms));
      return true;
    }

    method DeclineBooking(b: nat, artisan: nat) returns (ok: bool)
      requires Valid()
      modifies this
      ensures Valid() && ok == Do(old(View()), DeclineCall(b, artisan)).Some?
      ensures View() == After(old(View()), DeclineCall(b, artisan))
      ensures ok <==> b in old(bookings) && old(bookings)[b].artisan == artisan && old(bookings)[b].status.Pending?
      ensures if ok then BookingMoved(old(View()), View(), b, Pending, Declined) else View() == old(View())
    {
      hide Consistent;
      CallKeeps(View(), DeclineCall(b, artisan));
      if b !in bookings || bookings[b].artisan != artisan || !bookings[b].status.Pending? {
        return false;
      }
      bookings := bookings[b := bookings[b].(status := Declined)];
      return true;
    }

    method ExpireOneBooking(b: nat) returns (claimed: bool)
      requires Valid()
      modifies this
      ensures Valid() && claimed == Do(old(View()), ExpireBookingCall(b)).Some?
      ensures View() == After(old(View()), ExpireBookingCall(b))
      ensures claimed <==> b in old(bookings) && old(bookings)[b].status.Pending?
      ensures if claimed then BookingMoved(old(View()), View(), b, Pending, Expired) else View() == old(View())
    {
      hide Consistent;
      CallKeeps(View(), ExpireBookingCall(b));
      claimed := b in bookings && bookings[b].status.Pending?;
      if claimed {
        bookings := bookings[b := bookings[b].(status := Expired)];
      }
    }

    method FlagBookingNoShow(b: nat, user: nat, ended: bool) returns (ok: bool)
      requires Valid()
      modifies this
      ensures Valid() && ok == Do(old(View()), NoShowCall(b, user, ended)).Some?
      ensures View() == After(old(View()), NoShowCall(b, user, ended))
      ensures ok <==> ended && b in old(bookings) && old(bookings)[b].status.Confirmed?
                      && (user == old(bookings)[b].customer || user == old(bookings)[b].artisan)
      ensures if ok then BookingMoved(old(View()), View(), b, Confirmed, NoShow) else View() == old(View())
    {
      hide Consistent;
      CallKeeps(View(), NoShowCall(b, user, ended));
      if b !in bookings || (bookings[b].customer != user && bookings[b].artisan != user) {
        return false;
      }
      if !bookings[b].status.Confirmed? || !ended {
        return false;
      }
      bookings := bookings[b := bookings[b].(status := NoShow)];
      return true;
    }

    method CancelOneBooking(b: nat, customer: nat, refunded: bool) returns (ok: bool)
      requires Valid()
      modifies this
      ensures Valid() && ok == Do(old(View()), CancelBookingCall(b, customer, refunded)).Some?
      ensures View() == After(old(View()), CancelBookingCall(b, customer, refunded))
    {
      hide Consistent;
      CallKeeps(View(), CancelBookingCall(b, customer, refunded));
      if b !in bookings || bookings[b].customer != customer || !bookings[b].Occupies() {
        return false;
      }
      var linked := FindJob(b);
      if linked.Some? && !jobs[linked.value].status.JobPending? {
        return false;
      }
      if linked.Some? && jobs[linked.value].intent.Some? && !refunded {
        return false;
      }
      bookings := bookings[b := bookings[b].(status := Cancelled)];
      if linked.Some? {
        MoveJob(linked.value, JobCancelled, Some(customer));
      }
      return true;
    }

    method CompleteOneBooking(b: nat, customer: nat) returns (ok: bool)
      requires Valid()
      modifies this
      ensures Valid() && ok == Do(old(View()), CompleteBookingCall(b, customer)).Some?
      ensures View() == After(old(View()), CompleteBookingCall(b, customer))
    {
      hide Consistent;
      CallKeeps(View(), CompleteBookingCall(b, customer));
      if b !in bookings || bookings[b].customer != customer || !bookings[b].status.Confirmed? {
        return false;
      }
      var linked := FindJob(b);
      if linked.Some? && jobs[linked.value].intent.Some? {
        if !jobs[linked.value].status.InProgress? || jobs[linked.value].completionRequestedAt.None? {
          return false;
        }
        ok := ConfirmJobCompletion(linked.value, customer);
        return;
      }
      bookings := bookings[b := bookings[b].(status := Completed)];
      if linked.Some? && !jobs[linked.value].status.JobCompleted? && !jobs[linked.value].status.JobCancelled? {
        MoveJob(linked.value, JobCompleted, Some(customer));
      }
      return true;
    }

    method ConfirmJobCompletion(j: nat, customer: nat) returns (ok: bool)
      requires Valid()
      modifies this
      ensures Valid() && ok == Do(old(View()), ConfirmCompletionCall(j, customer)).Some?
      ensures View() == After(old(View()), ConfirmCompletionCall(j, customer))
    {
      hide Consistent;
      CallKeeps(View(), ConfirmCompletionCall(j, customer));
      if j !in jobs || jobs[j].customer != customer {
        return false;
      }
      if !jobs[j].status.InProgress? || jobs[j].completionRequestedAt.None? {
        return false;
      }
      MoveJob(j, JobCompleted, Some(customer));
      SyncLinkedBooking(j, Completed);
      return true;
    }

    method AutoCompleteOneJob(j: nat, now: int) returns (completed: bool)
      requires Valid()
      modifies this
      ensures Valid() && completed == Do(old(View()), AutoCompleteCall(j, now)).Some?
      ensures View() == After(old(View()), AutoCompleteCall(j, now))
    {
      hide Consistent;
      CallKeeps(View(), AutoCompleteCall(j, now));
      if j !in jobs || !jobs[j].status.InProgress? || jobs[j].completionRequestedAt.None? {
        return false;
      }
      var elapsed := now - jobs[j].completionRequestedAt.value;
      if elapsed < AUTO_COMPLETE_AFTER {
        return false;
      }
      MoveJob(j, JobCompleted, None);
      SyncLinkedBooking(j, Completed);
      return true;
    }

    method CancelOneJob(j: nat, customer: nat, refunded: bool) returns (ok: bool)
      requires Valid()
      modifies this
      ensures Valid() && ok == Do(old(View()), CancelJobCall(j, customer, refunded)).Some?
      ensures View() == After(old(View()), CancelJobCall(j, customer, refunded))
    {
      hide Consistent;
      CallKeeps(View(), CancelJobCall(j, customer, refunded));
      if j !in jobs || jobs[j].customer != customer || !jobs[j].Cancellable() {
        return false;
      }
      if jobs[j].intent.Some? && !refunded {
        return false;
      }
      MoveJob(j, JobCancelled, Some(customer));
      SyncLinkedBooking(j, Cancelled);
      RejectPending(j, None);
      return true;
    }

    method PostOneJob(j: nat, customer: nat) returns (ok: bool)
      requires Valid()
      modifies this
      ensures Valid() && ok == Do(old(View()), PostJobCall(j, customer)).Some?
      ensures View() == After(old(View()), PostJobCall(j, customer))
      ensures ok <==> j !in old(jobs)
      ensures ok ==>
                && jobs.Keys == old(jobs).Keys + {j} && (forall k :: k in old(jobs) ==> jobs[k] == old(jobs)[k])
                && jobs[j].customer == customer && jobs[j].status.JobOpen? && jobs[j].booking.None? && jobs[j].intent.None?
                && jobs[j].history == [Change(None, JobOpen, Some(customer))]
                && bookings == old(bookings) && applications == old(applications)
    {
      hide Consistent;
      CallKeeps(View(), PostJobCall(j, customer));
      ok := j !in jobs;
      if ok {
        jobs := jobs[j := Job(customer, None, JobOpen, None, None, None, [Change(None, JobOpen, Some(customer))])];
      }
    }

    method Apply(a: nat, j: nat, artisan: nat) returns (ok: bool)
      requires Valid()
      modifies this
      ensures Valid() && ok == Do(old(View()), ApplyCall(a, j, artisan)).Some?
      ensures View() == After(old(View()), ApplyCall(a, j, artisan))
      ensures ok <==> j in old(jobs) && old(jobs)[j].status.JobOpen? && a !in old(applications)
                      && forall x :: x in old(applications) && old(applications)[x].job == j
                                     ==> old(applications)[x].artisan != artisan
      ensures bookings == old(bookings) && jobs == old(jobs)
      ensures if ok then
                && applications.Keys == old(applications).Keys + {a}
                && (forall x :: x in old(applications) ==> applications[x] == old(applications)[x])
                && applications[a].job == j && applications[a].artisan == artisan && applications[a].status.AppPending?
              else
                applications == old(applications)
    {
      hide Consistent;
      CallKeeps(View(), ApplyCall(a, j, artisan));
      if j !in jobs || !jobs[j].status.JobOpen? || a in applications {
        return false;
      }
      if exists x :: x in applications && applications[x].job == j && applications[x].artisan == artisan {
        return false;
      }
      applications := applications[a := Application(j, artisan, AppPending)];
      return true;
    }

    method AcceptApplication(j: nat, a: nat, customer: nat, held: Option<nat>) returns (ok: bool)
      requires Valid()
      modifies this
      ensures Valid() && ok == Do(old(View()), AcceptCall(j, a, customer, held)).Some?
      ensures View() == After(old(View()), AcceptCall(j, a, customer, held))
    {
      hide Consistent;
      CallKeeps(View(), AcceptCall(j, a, customer, held));
      if j !in jobs || jobs[j].customer != customer || !jobs[j].status.JobOpen? {
        return false;
      }
      if a !in applications || applications[a].job != j || !applications[a].status.AppPending? || held.None? {
        return false;
      }
      var chosen := applications[a];
      AcceptThenReject(View(), j, a);
      applications := applications[a := chosen.(status := AppAccepted)];
      RejectPending(j, Some(a));
      MoveJob(j, JobPending, Some(customer));
      jobs := jobs[j := jobs[j].(accepted := Some(chosen.artisan), intent := held)];
      assert jobs == old(jobs)[j := Transition(old(jobs)[j], JobPending, Some(customer)).(accepted := Some(chosen.artisan), intent := held)];
      assert View() == Accept(old(View()), j, a, customer, held).value;
      return true;
    }

    method Start(j: nat, artisan: nat, secured: bool) returns (ok: bool)
      requires Valid()
      modifies this
      ensures Valid() && ok == Do(old(View()), StartCall(j, artisan, secured)).Some?
      ensures View() == After(old(View()), StartCall(j, artisan, secured))
      ensures ok <==> j in old(jobs) && old(jobs)[j].status.JobPending? && old(jobs)[j].accepted == Some(artisan)
                      && (old(jobs)[j].intent.Some? ==> secured)
      ensures if ok then JobMoved(old(View()), View(), j, JobPending, InProgress, Some(artisan)) else View() == old(View())
    {
      hide Consistent;
      CallKeeps(View(), StartCall(j, artisan, secured));
      if j !in jobs || !jobs[j].status.JobPending? || jobs[j].accepted != Some(artisan) {
        return false;
      }
      if jobs[j].intent.Some? && !secured {
        return false;
      }
      MoveJob(j, InProgress, Some(artisan));
      return true;
    }

    method RequestJobCompletion(j: nat, artisan: nat, now: int) returns (ok: bool)
      requires Valid()
      modifies this
      ensures Valid() && ok == Do(old(View()), RequestCompletionCall(j, artisan, now)).Some?
      ensures View() == After(old(View()), RequestCompletionCall(j, artisan, now))
      ensures ok <==> j in old(jobs) && old(jobs)[j].status.InProgress? && old(jobs)[j].accepted == Some(artisan)
                      && old(jobs)[j].completionRequestedAt.None?
      ensures bookings == old(bookings) && applications == old(applications) && jobs.Keys == old(jobs).Keys
      ensures forall k :: k in jobs && !(ok && k == j) ==> jobs[k] == old(jobs)[k]
      ensures ok ==>
                && jobs[j].completionRequestedAt == Some(now)
                && jobs[j].(completionRequestedAt := None) == old(jobs)[j]
    {
      hide Consistent;
      CallKeeps(View(), RequestCompletionCall(j, artisan, now));
      if j !in jobs || !jobs[j].status.InProgress? || jobs[j].accepted != Some(artisan) || jobs[j].completionRequestedAt.Some? {
        return false;
      }
      jobs := jobs[j := jobs[j].(completionRequestedAt := Some(now))];
      return true;
    }

    method ExpireOneJob(j: nat) returns (ok: bool)
      requires Valid()
      modifies this
      ensures Valid() && ok == Do(old(View()), ExpireJobCall(j)).Some?
      ensures View() == After(old(View()), ExpireJobCall(j))
    {
      hide Consistent;
      CallKeeps(View(), ExpireJobCall(j));
      if j !in jobs || !jobs[j].status.JobOpen? {
        return false;
      }
      RejectPending(j, None);
      MoveJob(j, JobExpired, None);
      return true;
    }
  }

  /** The chosen application is saved before the others are turned down; the order makes no difference. */
  lemma AcceptThenReject(t: Tables, j: nat, a: nat)
    requires a in t.applications
    ensures var accepted := t.applications[a].(status := AppAccepted);
            Rejected(t.(applications := t.applications[a := accepted]), j, Some(a)) == Rejected(t, j, Some(a))[a := accepted]
  {
  }
}

/** The job and application rows, and the status history that every transition appends to. */
module JobRows {
  import opened Wrappers

  datatype JobStatus = JobOpen | JobPending | InProgress | JobCompleted | JobCancelled | JobExpired

  /** A row of `job_status_history`; `who` is the user, or nothing for the system. */
  datatype Change = Change(from: Option<JobStatus>, to: JobStatus, who: Option<nat>)

  datatype Job = Job(
    customer: nat,
    booking: Option<nat>,
    status: JobStatus,
    accepted: Option<nat>,
    intent: Option<nat>,
    completionRequestedAt: Option<int>,
    history: seq<Change>)
  {
    predicate Terminal() {
      status.JobCompleted? || status.JobCancelled? || status.JobExpired?
    }

    /** `assertCancellable`. */
    predicate Cancellable() {
      !Terminal() && completionRequestedAt.None?
    }
  }

  datatype ApplicationStatus = AppPending | AppAccepted | AppRejected

  datatype Application = Application(job: nat, artisan: nat, status: ApplicationStatus)

  /** JOB_AUTO_COMPLETE_HOURS, in seconds. */
  const AUTO_COMPLETE_AFTER := 48 * 60 * 60

  function NewJob(customer: nat, booking: Option<nat>, status: JobStatus, accepted: Option<nat>, intent: Option<nat>, who: nat)
    : Job
  {
    Job(customer, booking, status, accepted, intent, None, [Change(None, status, Some(who))])
  }

  /** `transitionAndSave`: the new status and its history row are written together. */
  function Transition(job: Job, to: JobStatus, who: Option<nat>): Job {
    job.(status := to, history := job.history + [Change(Some(job.status), to, who)])
  }

  /** The moves a job may make. */
  predicate MayMove(from: JobStatus, to: JobStatus) {
    || (from.JobOpen? && (to.JobPending? || to.JobCancelled? || to.JobExpired?))
    || (from.JobPending? && (to.InProgress? || to.JobCancelled? || to.JobCompleted?))
    || (from.InProgress? && (to.JobCompleted? || to.JobCancelled?))
  }

  /** The history is one unbroken chain of moves from the creation of the job to its present status. */
  ghost predicate Chained(job: Job) {
    && job.history != []
    && job.history[0].from.None?
    && (job.history[0].to == if job.booking.Some? then JobPending else JobOpen)
    && job.history[|job.history| - 1].to == job.status
    && (forall i :: 0 < i < |job.history| ==>
          job.history[i].from == Some(job.history[i - 1].to) && MayMove(job.history[i - 1].to, job.history[i].to))
  }

  lemma TransitionChains(job: Job, to: JobStatus, who: Option<nat>)
    requires Chained(job) && MayMove(job.status, to)
    ensures Chained(Transition(job, to, who))
  {
  }

  /** A chained history ends a job at most once: the step into a terminal status is the last. */
  lemma {:induction false} EndsOnce(job: Job, i: nat)
    requires Chained(job) && i < |job.history|
    requires job.history[i].to.JobCompleted? || job.history[i].to.JobCancelled? || job.history[i].to.JobExpired?
    ensures i == |job.history| - 1 && job.Terminal()
  {
    assert i + 1 < |job.history| ==> MayMove(job.history[i].to, job.history[i + 1].to);
  }
}

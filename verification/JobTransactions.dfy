/**
 * The row-locked transactions on a job (`confirmCompletion`, `autoCompleteJob`, `cancelJob`) as atomic
 * steps: take the row lock, read and check, write and commit; and, after the commit and outside the
 * lock, trigger the payment capture. Any number of them run at once, and any may stop between steps.
 */
module JobTransactions {
  import opened Wrappers
  import opened JobRows

  datatype Kind = ConfirmTx(customer: nat) | AutoTx(now: int) | CancelTx(customer: nat)

  datatype Phase = Waiting | Locked | Checked | AwaitingCapture | Finished
  {
    predicate HasLock() {
      Locked? || Checked?
    }
  }

  datatype Tx = Tx(job: nat, kind: Kind, phase: Phase)

  datatype Row = Row(customer: nat, status: JobStatus, completionRequestedAt: Option<int>, paid: bool)

  /** Something that happened to a job, and the transaction that did it. */
  datatype Event = Event(job: nat, tx: nat)

  datatype World = World(
    jobs: map<nat, Row>, locks: map<nat, nat>, txs: map<nat, Tx>,
    completions: seq<Event>, cancellations: seq<Event>, captures: seq<Event>)

  datatype Step =
    | Begin(t: nat, job: nat, kind: Kind)
    | Acquire(t: nat)
    | Check(t: nat)
    | Commit(t: nat)
    | Capture(t: nat)
    | Stop(t: nat)

  /** The test each transaction makes of the row it has locked. */
  predicate Passes(row: Row, kind: Kind) {
    match kind
    case ConfirmTx(customer) =>
      row.customer == customer && row.status.InProgress? && row.completionRequestedAt.Some?
    case AutoTx(now) =>
      row.status.InProgress? && row.completionRequestedAt.Some?
      && now - row.completionRequestedAt.value >= AUTO_COMPLETE_AFTER
    case CancelTx(customer) =>
      row.customer == customer && !row.status.JobCompleted? && !row.status.JobCancelled? && !row.status.JobExpired?
      && row.completionRequestedAt.None?
  }

  function Goto(w: World, t: nat, phase: Phase): World
    requires t in w.txs
  {
    w.(txs := w.txs[t := w.txs[t].(phase := phase)])
  }

  function Unlock(w: World, t: nat, phase: Phase): World
    requires t in w.txs
  {
    Goto(w, t, phase).(locks := w.locks - {w.txs[t].job})
  }

  predicate Enabled(w: World, step: Step) {
    match step
    case Begin(t, _, _) => t !in w.txs
    case Acquire(t) => t in w.txs && w.txs[t].phase.Waiting? && w.txs[t].job in w.jobs && w.txs[t].job !in w.locks
    case Check(t) => t in w.txs && w.txs[t].phase.Locked? && w.txs[t].job in w.jobs
    case Commit(t) => t in w.txs && w.txs[t].phase.Checked? && w.txs[t].job in w.jobs
    case Capture(t) => t in w.txs && w.txs[t].phase.AwaitingCapture?
    case Stop(t) => t in w.txs
  }

  function Apply(w: World, step: Step): World
    requires Enabled(w, step)
  {
    match step
    case Begin(t, job, kind) => w.(txs := w.txs[t := Tx(job, kind, Waiting)])
    case Acquire(t) => Goto(w, t, Locked).(locks := w.locks[w.txs[t].job := t])
    case Check(t) => if Passes(w.jobs[w.txs[t].job], w.txs[t].kind) then Goto(w, t, Checked) else Unlock(w, t, Finished)
    case Commit(t) =>
      var tx := w.txs[t];
      var row := w.jobs[tx.job];
      if tx.kind.CancelTx? then
        Unlock(w, t, Finished).(jobs := w.jobs[tx.job := row.(status := JobCancelled)],
                                cancellations := w.cancellations + [Event(tx.job, t)])
      else
        Unlock(w, t, if row.paid then AwaitingCapture else Finished)
        .(jobs := w.jobs[tx.job := row.(status := JobCompleted)], completions := w.completions + [Event(tx.job, t)])
    case Capture(t) => Goto(w, t, Finished).(captures := w.captures + [Event(w.txs[t].job, t)])
    case Stop(t) => if w.txs[t].phase.HasLock() then Unlock(w, t, Finished) else Goto(w, t, Finished)
  }

  // ─── The invariant ─────────────────────────────────────────────────────────────

  ghost predicate OncePerJob(events: seq<Event>) {
    forall i, k :: 0 <= i < k < |events| ==> events[i].job != events[k].job
  }

  /** The row lock has one holder, and what it has checked cannot change under it. */
  ghost predicate LocksOk(w: World) {
    && (forall t :: t in w.txs && w.txs[t].phase.HasLock() ==> w.txs[t].job in w.locks && w.locks[w.txs[t].job] == t)
    && (forall t :: t in w.txs && w.txs[t].phase.Checked? ==>
          w.txs[t].job in w.jobs && Passes(w.jobs[w.txs[t].job], w.txs[t].kind))
    && (forall t :: t in w.txs && w.txs[t].phase.AwaitingCapture? ==> Event(w.txs[t].job, t) in w.completions)
  }

  ghost predicate EventsOk(w: World) {
    && OncePerJob(w.completions) && OncePerJob(w.cancellations)
    && (forall e :: e in w.completions ==> e.job in w.jobs && w.jobs[e.job].status.JobCompleted? && e.tx in w.txs)
    && (forall e :: e in w.cancellations ==> e.job in w.jobs && w.jobs[e.job].status.JobCancelled?)
  }

  /** A capture follows a completion, and the transaction that triggered it will not do so again. */
  ghost predicate CapturesOk(w: World) {
    && OncePerJob(w.captures)
    && (forall e :: e in w.captures ==> e in w.completions && e.tx in w.txs && w.txs[e.tx].phase.Finished?)
  }

  ghost predicate Inv(w: World) {
    LocksOk(w) && EventsOk(w) && CapturesOk(w)
  }

  /** Jobs may be in any state to begin with; no transaction has run. */
  ghost predicate Init(w: World) {
    w.locks == map[] && w.txs == map[] && w.completions == [] && w.cancellations == [] && w.captures == []
  }

  lemma CommitLocks(w: World, t: nat)
    requires Inv(w) && Enabled(w, Commit(t))
    ensures LocksOk(Apply(w, Commit(t)))
  {
    hide EventsOk, CapturesOk;
    var n := Apply(w, Commit(t));
    forall u | u in n.txs && n.txs[u].phase.HasLock() ensures n.txs[u].job in n.locks && n.locks[n.txs[u].job] == u {
      assert u != t && w.locks[w.txs[u].job] == u;
    }
    if n.txs[t].phase.AwaitingCapture? {
      assert n.completions[|w.completions|] == Event(w.txs[t].job, t);
    }
  }

  lemma CommitEvents(w: World, t: nat)
    requires Inv(w) && Enabled(w, Commit(t))
    ensures EventsOk(Apply(w, Commit(t)))
  {
    hide CapturesOk;
    var tx := w.txs[t];
    assert Passes(w.jobs[tx.job], tx.kind);
    assert forall e :: e in w.completions ==> e.job != tx.job;
    assert forall e :: e in w.cancellations ==> e.job != tx.job;
  }

  lemma CommitCaptures(w: World, t: nat)
    requires Inv(w) && Enabled(w, Commit(t))
    ensures CapturesOk(Apply(w, Commit(t)))
  {
    hide LocksOk, EventsOk, OncePerJob;
  }

  lemma CommitKeeps(w: World, t: nat)
    requires Inv(w) && Enabled(w, Commit(t))
    ensures Inv(Apply(w, Commit(t)))
  {
    CommitLocks(w, t);
    CommitEvents(w, t);
    CommitCaptures(w, t);
    hide Apply, LocksOk, EventsOk, CapturesOk;
  }

  lemma CaptureKeeps(w: World, t: nat)
    requires Inv(w) && Enabled(w, Capture(t))
    ensures Inv(Apply(w, Capture(t)))
  {
    var e := Event(w.txs[t].job, t);
    assert e in w.completions;
    forall c | c in w.captures ensures c.job != e.job {
      var i :| 0 <= i < |w.completions| && w.completions[i] == c;
      var k :| 0 <= k < |w.completions| && w.completions[k] == e;
      assert i < k || k < i || i == k;
    }
  }

  lemma OtherStepsKeepLocks(w: World, step: Step)
    requires Inv(w) && Enabled(w, step) && !step.Commit? && !step.Capture?
    ensures LocksOk(Apply(w, step))
  {
    hide EventsOk, CapturesOk, Passes;
    var n := Apply(w, step);
    forall u | u in n.txs && n.txs[u].phase.HasLock() ensures n.txs[u].job in n.locks && n.locks[n.txs[u].job] == u {
      assert (step.Acquire? && u == step.t) || (u in w.txs && w.txs[u].phase.HasLock() && w.locks[w.txs[u].job] == u);
    }
  }

  lemma OtherStepsKeep(w: World, step: Step)
    requires Inv(w) && Enabled(w, step) && !step.Commit? && !step.Capture?
    ensures Inv(Apply(w, step))
  {
    OtherStepsKeepLocks(w, step);
    hide LocksOk, Passes, OncePerJob;
  }

  lemma StepKeepsInv(w: World, step: Step)
    requires Inv(w) && Enabled(w, step)
    ensures Inv(Apply(w, step))
  {
    hide Inv;
    match step
    case Commit(t) => CommitKeeps(w, t);
    case Capture(t) => CaptureKeeps(w, t);
    case Begin(_, _, _) => OtherStepsKeep(w, step);
    case Acquire(_) => OtherStepsKeep(w, step);
    case Check(_) => OtherStepsKeep(w, step);
    case Stop(_) => OtherStepsKeep(w, step);
  }

  // ─── Whole runs ────────────────────────────────────────────────────────────────

  ghost predicate Valid(states: seq<World>, steps: seq<Step>) {
    && |states| == |steps| + 1 && Init(states[0])
    && forall i :: 0 <= i < |steps| ==> Enabled(states[i], steps[i]) && states[i + 1] == Apply(states[i], steps[i])
  }

  lemma {:induction false} Reachable(states: seq<World>, steps: seq<Step>, n: nat)
    requires Valid(states, steps) && n < |states|
    ensures Inv(states[n])
  {
    if n > 0 {
      Reachable(states, steps, n - 1);
      StepKeepsInv(states[n - 1], steps[n - 1]);
    }
  }

  /** A customer, the scheduler and a cancellation may race as they like: a job is completed at most once, or cancelled, never both. */
  lemma EndedOnce(states: seq<World>, steps: seq<Step>, n: nat, i: nat, k: nat)
    requires Valid(states, steps) && n < |states|
    ensures i < k < |states[n].completions| ==> states[n].completions[i].job != states[n].completions[k].job
    ensures i < |states[n].completions| && k < |states[n].cancellations|
            ==> states[n].completions[i].job != states[n].cancellations[k].job
  {
    Reachable(states, steps, n);
    if i < |states[n].completions| && k < |states[n].cancellations| {
      assert states[n].completions[i] in states[n].completions;
      assert states[n].cancellations[k] in states[n].cancellations;
    }
  }

  /** The capture of a job's payment is triggered at most once, and only for a job that was completed. */
  lemma CapturedOnce(states: seq<World>, steps: seq<Step>, n: nat, i: nat)
    requires Valid(states, steps) && n < |states| && i < |states[n].captures|
    ensures forall k :: i < k < |states[n].captures| ==> states[n].captures[i].job != states[n].captures[k].job
    ensures var j := states[n].captures[i].job;
            && j in states[n].jobs && states[n].jobs[j].status.JobCompleted?
            && states[n].captures[i] in states[n].completions
  {
    Reachable(states, steps, n);
    assert states[n].captures[i] in states[n].captures;
  }

  /** A finished job is never touched again by any of the transactions. */
  lemma {:induction false} FinishedStays(states: seq<World>, steps: seq<Step>, m: nat, n: nat, j: nat)
    requires Valid(states, steps) && m <= n < |states|
    requires j in states[m].jobs && (states[m].jobs[j].status.JobCompleted? || states[m].jobs[j].status.JobCancelled?)
    ensures j in states[n].jobs && states[n].jobs[j] == states[m].jobs[j]
    decreases n
  {
    if m < n {
      FinishedStays(states, steps, m, n - 1, j);
      Reachable(states, steps, n - 1);
      FinishedStep(states[n - 1], steps[n - 1], j);
    }
  }

  lemma FinishedStep(w: World, step: Step, j: nat)
    requires Inv(w) && Enabled(w, step)
    requires j in w.jobs && (w.jobs[j].status.JobCompleted? || w.jobs[j].status.JobCancelled?)
    ensures j in Apply(w, step).jobs && Apply(w, step).jobs[j] == w.jobs[j]
  {
    if step.Commit? {
      assert Passes(w.jobs[w.txs[step.t].job], w.txs[step.t].kind);
    }
  }
}

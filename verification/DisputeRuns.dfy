/** What holds over whole runs of the ruling protocol, whatever the interleaving. */
module DisputeRuns {
  import opened Wrappers
  import opened DisputeRows
  import opened DisputeMoney
  import opened PaymentRows
  import opened DisputeProtocol
  import opened DisputeSafety

  /** A finite run: `steps[i]` leads from `states[i]` to `states[i + 1]`. */
  datatype Run = Run(states: seq<State>, steps: seq<Step>)

  ghost predicate Valid(run: Run) {
    && |run.states| == |run.steps| + 1
    && Init(run.states[0])
    && forall i :: 0 <= i < |run.steps| ==>
         Enabled(run.states[i], run.steps[i]) && run.states[i + 1] == Apply(run.states[i], run.steps[i])
  }

  lemma {:induction false} Reachable(run: Run, i: nat)
    requires Valid(run) && i < |run.states|
    ensures Inv(run.states[i])
  {
    if i > 0 {
      Reachable(run, i - 1);
      StepKeepsInv(run.states[i - 1], run.steps[i - 1]);
    }
  }

  // ─── Money ─────────────────────────────────────────────────────────────────────

  /** However the calls interleave, fail or stop, no payment is ever moved twice. */
  lemma NoPaymentMovesTwice(run: Run, i: nat)
    requires Valid(run) && i < |run.states|
    ensures forall j, k :: 0 <= j < k < |run.states[i].ledger| ==>
              run.states[i].ledger[j].payment != run.states[i].ledger[k].payment
  {
    var s := run.states[i];
    Reachable(run, i);
    forall j, k | 0 <= j < k < |s.ledger| ensures s.ledger[j].payment != s.ledger[k].payment {
      var m, n := s.ledger[j], s.ledger[k];
      assert MovementOk(s.rows, m) && MovementOk(s.rows, n);
      if m.payment == n.payment {
        assert s.rows[m.dispute].Claims(m.payment) && s.rows[n.dispute].Claims(m.payment);
        assert false;
      }
    }
  }

  /** The row and the movement tell the same story. */
  ghost predicate Describes(d: Dispute, m: Movement) {
    && d.moneyAction == Some(m.action) && d.moneyPaymentId == Some(m.payment) && d.moneyAmount == Some(m.amount)
  }

  /** An amount on a row is that of a completed movement, of which there is one. */
  lemma AmountMeansMoved(run: Run, i: nat, id: nat)
    requires Valid(run) && i < |run.states| && id in run.states[i].rows
    requires run.states[i].rows[id].moneyAmount.Some?
    ensures exists k :: 0 <= k < |run.states[i].ledger| && run.states[i].ledger[k].dispute == id
                        && Describes(run.states[i].rows[id], run.states[i].ledger[k])
    ensures forall k :: 0 <= k < |run.states[i].ledger|
                        && Some(run.states[i].ledger[k].payment) == run.states[i].rows[id].moneyPaymentId
                        ==> run.states[i].ledger[k].dispute == id
                            && Describes(run.states[i].rows[id], run.states[i].ledger[k])
  {
    var s := run.states[i];
    Reachable(run, i);
    var k :| 0 <= k < |s.ledger| && s.ledger[k].dispute == id;
    assert MovementOk(s.rows, s.ledger[k]);
    NoPaymentMovesTwice(run, i);
    forall j | 0 <= j < |s.ledger| && Some(s.ledger[j].payment) == s.rows[id].moneyPaymentId
      ensures s.ledger[j].dispute == id && Describes(s.rows[id], s.ledger[j])
    {
      assert j < k || j == k || k < j;
    }
  }

  /** A movement whose amount was never recorded still names its payment on a settled row. */
  lemma MovementLeavesClaim(run: Run, i: nat, k: nat)
    requires Valid(run) && i < |run.states| && k < |run.states[i].ledger|
    ensures var m := run.states[i].ledger[k];
            && m.dispute in run.states[i].rows
            && run.states[i].rows[m.dispute].Claims(m.payment)
            && !run.states[i].rows[m.dispute].Active()
  {
    Reachable(run, i);
    assert MovementOk(run.states[i].rows, run.states[i].ledger[k]);
  }

  /** The write of a completed movement meets no other claim of its payment, so the index never refuses it. */
  lemma RecordNeverConflicts(run: Run, i: nat, r: nat)
    requires Valid(run) && i < |run.states| && r in run.states[i].rulings
    requires run.states[i].rulings[r].phase.Done? && run.states[i].rulings[r].phase.moved.Some?
    ensures !ClaimedElsewhere(run.states[i].rows, run.states[i].rulings[r].dispute,
                              run.states[i].rulings[r].phase.moved.value.paymentId)
  {
    var s := run.states[i];
    Reachable(run, i);
    var ruling := s.rulings[r];
    assert RulingOk(s, ruling);
    var m := ruling.phase.moved.value;
    var k :| 0 <= k < |s.ledger| && s.ledger[k] == Movement(ruling.dispute, m.paymentId, m.action, m.amount);
    assert MovementOk(s.rows, s.ledger[k]);
    assert s.rows[ruling.dispute].Claims(m.paymentId);
  }

  // ─── What a step writes ────────────────────────────────────────────────────────

  /** The one row a step writes, if any. */
  ghost function Written(s: State, step: Step): Option<(nat, Dispute)>
    requires Enabled(s, step)
  {
    match step
    case Raise(id, bookingId, user, now) => Some((id, NewDispute(bookingId, user, now)))
    case Respond(id, user, text, now) => Some((id, RespondedRow(s.rows[id], user, text, now)))
    case StartReview(id) => Some((id, s.rows[id].(status := UnderReview)))
    case Close(id, admin, now, notes) => Some((id, ClosedRow(s.rows[id], admin, now, notes)))
    case Claim(r, now) =>
      var ruling := s.rulings[r];
      var row, plan := s.rows[ruling.dispute], PlanOf(ruling.phase);
      if row.Active() && !(plan.MovesMoney() && ClaimedElsewhere(s.rows, ruling.dispute, plan.paymentId.value))
      then Some((ruling.dispute, ClaimedRow(row, ruling.admin, now, ruling.verdict, plan))) else None
    case Record(r, written) =>
      var id := s.rulings[r].dispute;
      if written then Some((id, RecordedRow(s.rows[id], s.rulings[r].phase.moved))) else None
    case Rollback(r) =>
      var ruling := s.rulings[r];
      var row := s.rows[ruling.dispute];
      if row.status.Resolved? && row.resolvedById == Some(ruling.admin)
      then Some((ruling.dispute, RolledBackRow(row, ruling.phase.previous))) else None
    case PaymentsChange(_, _) => None
    case Begin(_, _, _, _) => None
    case ReadPayment(_) => None
    case DecidePlan(_) => None
    case SkipMoney(_) => None
    case ProviderSucceeds(_) => None
    case ProviderFails(_) => None
    case Crash(_) => None
  }

  ghost predicate OneRowWritten(s: State, step: Step)
    requires Enabled(s, step)
  {
    && Apply(s, step).parties == s.parties
    && var w := Written(s, step);
    Apply(s, step).rows == if w.Some? then s.rows[w.value.0 := w.value.1] else s.rows
  }

  lemma RulingWrites(s: State, step: Step)
    requires Enabled(s, step) && (step.Claim? || step.Record? || step.Rollback?)
    ensures OneRowWritten(s, step)
  {
    hide ClaimedElsewhere, ClaimedRow, RolledBackRow, RecordedRow;
  }

  lemma OthersWrite(s: State, step: Step)
    requires Enabled(s, step) && !step.Claim? && !step.Record? && !step.Rollback?
    ensures OneRowWritten(s, step)
  {
    hide PlanMoneyAction, ClosedRow, RespondedRow, NewDispute, MovedAmount, LinkedPayment;
  }

  lemma WritesOneRow(s: State, step: Step)
    requires Enabled(s, step)
    ensures Apply(s, step).parties == s.parties
    ensures var w := Written(s, step);
            Apply(s, step).rows == if w.Some? then s.rows[w.value.0 := w.value.1] else s.rows
  {
    hide Apply, Written;
    if step.Claim? || step.Record? || step.Rollback? {
      RulingWrites(s, step);
    } else {
      OthersWrite(s, step);
    }
  }

  // ─── Settled stays settled ─────────────────────────────────────────────────────

  /** The verdict columns; a late money record may still touch the money columns of a closed row. */
  ghost predicate SameVerdict(d: Dispute, e: Dispute) {
    && d.status == e.status && d.outcome == e.outcome && d.resolution == e.resolution
    && d.adminNotes == e.adminNotes && d.resolvedById == e.resolvedById && d.resolvedAt == e.resolvedAt
  }

  /** The row carries this ruling: its verdict, by its admin. */
  ghost predicate Carries(d: Dispute, ruling: Ruling) {
    && d.status.Resolved? && d.resolvedById == Some(ruling.admin)
    && d.outcome == Some(ruling.verdict.outcome) && d.resolution == Some(ruling.verdict.resolution)
  }

  /** The step undoes the very ruling that is on this dispute, whose own provider call was declined. */
  ghost predicate UndoesOwnRuling(s: State, step: Step, id: nat) {
    && step.Rollback? && step.r in s.rulings
    && s.rulings[step.r].dispute == id && s.rulings[step.r].phase.Declined?
    && id in s.rows && Carries(s.rows[id], s.rulings[step.r])
  }

  /** What the proofs about one row need of the ruling that takes the step. */
  ghost predicate ActorOk(s: State, step: Step)
    requires Enabled(s, step)
  {
    step.Claim? || step.SkipMoney? || step.ProviderSucceeds? || step.ProviderFails? || step.Record? || step.Rollback?
    ==> RulingOk(s, s.rulings[step.r])
  }

  lemma StepOnSettled(s: State, step: Step, id: nat)
    requires Enabled(s, step) && ActorOk(s, step) && id in s.rows && !s.rows[id].Active()
    ensures id in Apply(s, step).rows
    ensures var d, e := s.rows[id], Apply(s, step).rows[id];
            && (d.status.Closed? ==> SameVerdict(d, e))
            && (d.status.Resolved? ==>
                || SameVerdict(d, e)
                || (step.Close? && step.id == id && e.status.Closed? && e.outcome == d.outcome && e.resolution == d.resolution)
                || (UndoesOwnRuling(s, step, id) && e.Active()))
            && e.response == d.response && e.respondedById == d.respondedById && e.respondedAt == d.respondedAt
  {
    hide Apply;
    WritesOneRow(s, step);
  }

  /** CLOSED is absorbing: the verdict on a closed dispute never changes again. */
  lemma {:induction false} ClosedForEver(run: Run, i: nat, j: nat, id: nat)
    requires Valid(run) && i <= j < |run.states|
    requires id in run.states[i].rows && run.states[i].rows[id].status.Closed?
    ensures id in run.states[j].rows && SameVerdict(run.states[i].rows[id], run.states[j].rows[id])
    decreases j
  {
    hide Apply, Enabled, ActorOk, UndoesOwnRuling;
    if i < j {
      ClosedForEver(run, i, j - 1, id);
      SettledStep(run, j - 1, id);
    }
  }

  /** `StepOnSettled` in a run. */
  lemma SettledStep(run: Run, k: nat, id: nat)
    requires Valid(run) && k < |run.steps| && id in run.states[k].rows && !run.states[k].rows[id].Active()
    ensures id in run.states[k + 1].rows
    ensures run.states[k].rows[id].status.Closed? ==> SameVerdict(run.states[k].rows[id], run.states[k + 1].rows[id])
    ensures run.states[k + 1].rows[id].Active() ==> UndoesOwnRuling(run.states[k], run.steps[k], id)
  {
    Reachable(run, k);
    hide Apply, Enabled, UndoesOwnRuling, RulingOk;
    StepOnSettled(run.states[k], run.steps[k], id);
  }

  lemma RowsStay(s: State, step: Step, id: nat)
    requires Enabled(s, step) && id in s.rows
    ensures id in Apply(s, step).rows
    ensures s.rows[id].response.Some? ==>
              && Apply(s, step).rows[id].response == s.rows[id].response
              && Apply(s, step).rows[id].respondedById == s.rows[id].respondedById
              && Apply(s, step).rows[id].respondedAt == s.rows[id].respondedAt
  {
    hide Apply;
    WritesOneRow(s, step);
  }

  /** A response, once there, is never rewritten or removed. */
  lemma {:induction false} RespondedOnce(run: Run, i: nat, j: nat, id: nat)
    requires Valid(run) && i <= j < |run.states|
    requires id in run.states[i].rows && run.states[i].rows[id].response.Some?
    ensures id in run.states[j].rows
    ensures run.states[j].rows[id].response == run.states[i].rows[id].response
    ensures run.states[j].rows[id].respondedById == run.states[i].rows[id].respondedById
    ensures run.states[j].rows[id].respondedAt == run.states[i].rows[id].respondedAt
    decreases j
  {
    hide Apply, Enabled;
    if i < j {
      RespondedOnce(run, i, j - 1, id);
      RowsStay(run.states[j - 1], run.steps[j - 1], id);
    }
  }

  /**
   * A response appears only through `respond`, by the party that did not raise the dispute, on open work;
   * and that step changes nothing else of the row.
   */
  lemma ResponseOnlyFromRespond(run: Run, i: nat, id: nat)
    requires Valid(run) && i < |run.steps|
    requires id in run.states[i].rows && run.states[i].rows[id].response.None?
    ensures id in run.states[i + 1].rows
    ensures run.states[i + 1].rows[id].response.Some? ==>
              && run.steps[i].Respond? && run.steps[i].id == id
              && run.states[i].rows[id].Active()
              && IsOtherParty(run.states[i], id, run.steps[i].user)
              && run.states[i + 1].rows[id] ==
                 RespondedRow(run.states[i].rows[id], run.steps[i].user, run.steps[i].text, run.steps[i].now)
  {
    hide Apply;
    PartiesHold(run, i);
    WritesOneRow(run.states[i], run.steps[i]);
  }

  /** The user and the raiser are the two parties of the booking. */
  ghost predicate IsOtherParty(s: State, id: nat, user: nat)
    requires id in s.rows
  {
    var d := s.rows[id];
    && d.bookingId in s.parties && user != d.raisedById
    && {user, d.raisedById} == {s.parties[d.bookingId].0, s.parties[d.bookingId].1}
  }

  lemma {:induction false} PartiesHold(run: Run, i: nat)
    requires Valid(run) && i < |run.states|
    ensures PartiesOk(run.states[i])
  {
    if i > 0 {
      PartiesHold(run, i - 1);
      StepKeepsParties(run.states[i - 1], run.steps[i - 1]);
    }
  }

  lemma StepKeepsParties(s: State, step: Step)
    requires PartiesOk(s) && Enabled(s, step)
    ensures PartiesOk(Apply(s, step))
  {
    hide Apply;
    WritesOneRow(s, step);
  }

  // ─── A ruling that failed ──────────────────────────────────────────────────────

  /** The ruling was loaded at `b` and claimed the row at `c`. */
  ghost predicate LoadedAt(run: Run, b: nat, r: nat, id: nat, previous: Previous)
    requires Valid(run)
  {
    && b < |run.steps| && run.steps[b].Begin? && run.steps[b].r == r && run.steps[b].id == id
    && id in run.states[b].rows && previous == Capture(run.states[b].rows[id])
  }

  /** The call won the row with its claim at `c`. */
  ghost predicate ClaimedAt(run: Run, c: nat, r: nat, id: nat, before: Dispute)
    requires Valid(run)
  {
    && c < |run.steps| && run.steps[c].Claim? && run.steps[c].r == r
    && id in run.states[c].rows && run.states[c].rows[id].Active() && before == run.states[c].rows[id]
  }

  /** From the claim at `c` on, up to `i`, the call has held the dispute. */
  ghost predicate HeldSince(run: Run, c: nat, i: nat, r: nat, id: nat)
    requires Valid(run) && i < |run.states|
  {
    forall m :: c < m <= i ==> Holds(run.states[m], r, id)
  }

  ghost predicate Holds(s: State, r: nat, id: nat) {
    r in s.rulings && s.rulings[r].phase.Holding() && s.rulings[r].dispute == id
  }

  /** What a phase remembers is what the rows held when the call read and claimed them. */
  ghost predicate Remembers(run: Run, i: nat, r: nat)
    requires Valid(run) && i < |run.states| && r in run.states[i].rulings
  {
    var ruling := run.states[i].rulings[r];
    && (!ruling.phase.Ended? && !ruling.phase.Done? ==>
        exists b: nat :: b < i && LoadedAt(run, b, r, ruling.dispute, ruling.phase.previous))
    && (ruling.phase.Holding() ==>
        exists c: nat :: c < i && ClaimedAt(run, c, r, ruling.dispute, ruling.phase.before)
                         && HeldSince(run, c, i, r, ruling.dispute))
  }

  /** What one step does to the phases: at most one ruling moves, or a new one is loaded. */
  lemma PhaseStep(s: State, step: Step, r: nat)
    requires Enabled(s, step) && r in s.rulings
    ensures r in Apply(s, step).rulings
    ensures var was, now := s.rulings[r], Apply(s, step).rulings[r];
            && now.dispute == was.dispute && now.admin == was.admin && now.verdict == was.verdict
            && (!now.phase.Ended? && !now.phase.Done? ==>
                !was.phase.Ended? && !was.phase.Done? && now.phase.previous == was.phase.previous)
            && (now.phase.Holding() ==>
                || (was.phase.Holding() && now.phase.before == was.phase.before)
                || (step.Claim? && step.r == r && now.dispute in s.rows && s.rows[now.dispute].Active()
                    && now.phase.before == s.rows[now.dispute]))
  {
    hide PlanMoneyAction, ClaimedElsewhere, ClaimedRow, RolledBackRow, RecordedRow, ClosedRow, RespondedRow, NewDispute;
    hide MovedAmount, LinkedPayment;
    MovesOneRuling(s, step);
    hide Apply;
  }

  /** The ruling a step moves, and where to. */
  ghost function MovedTo(s: State, step: Step): Option<(nat, Phase)>
    requires Enabled(s, step)
  {
    match step
    case ReadPayment(r) =>
      var ruling := s.rulings[r];
      Some((r, PaymentRead(ruling.phase.previous, LinkedPayment(s, s.rows[ruling.dispute].bookingId))))
    case DecidePlan(r) =>
      var ruling := s.rulings[r];
      var plan := PlanMoneyAction(s.rows, ruling.dispute, ruling.phase.payment, ruling.verdict);
      Some((r, if plan.Ok? then Planned(ruling.phase.previous, plan.value) else Ended(Rejected)))
    case Claim(r, _) =>
      var ruling := s.rulings[r];
      var row, plan := s.rows[ruling.dispute], PlanOf(ruling.phase);
      Some((r, if !row.Active() then Ended(LostTheRow)
               else if plan.MovesMoney() && ClaimedElsewhere(s.rows, ruling.dispute, plan.paymentId.value)
               then Degraded(ruling.phase.previous)
               else Claimed(ruling.phase.previous, plan, row)))
    case SkipMoney(r) => Some((r, Done(None, s.rulings[r].phase.before)))
    case ProviderSucceeds(r) =>
      var phase := s.rulings[r].phase;
      Some((r, Done(Some(Moved(phase.plan.action, phase.plan.amount.GetOr(0), phase.plan.paymentId.value)), phase.before)))
    case ProviderFails(r) =>
      var phase := s.rulings[r].phase;
      Some((r, Declined(phase.previous, phase.plan, phase.before)))
    case Record(r, written) => Some((r, Ended(if written then Recorded else RecordLost)))
    case Rollback(r) =>
      var ruling := s.rulings[r];
      var row := s.rows[ruling.dispute];
      Some((r, Ended(if row.status.Resolved? && row.resolvedById == Some(ruling.admin) then RolledBack else Abandoned)))
    case Crash(r) => Some((r, Ended(Crashed)))
    case Raise(_, _, _, _) => None
    case Respond(_, _, _, _) => None
    case StartReview(_) => None
    case Close(_, _, _, _) => None
    case PaymentsChange(_, _) => None
    case Begin(_, _, _, _) => None
  }

  lemma MovesOneRuling(s: State, step: Step)
    requires Enabled(s, step)
    ensures var m := MovedTo(s, step);
            && (m.Some? ==> m.value.0 in s.rulings)
            && Apply(s, step).rulings ==
               if m.Some? then s.rulings[m.value.0 := s.rulings[m.value.0].(phase := m.value.1)]
               else if step.Begin? then
                 s.rulings[step.r := Ruling(step.id, step.admin, step.verdict, Loaded(Capture(s.rows[step.id])))]
               else s.rulings
  {
    hide PlanMoneyAction, ClaimedElsewhere, ClaimedRow, RolledBackRow, RecordedRow, ClosedRow, RespondedRow, NewDispute;
    hide MovedAmount, LinkedPayment;
  }

  lemma {:induction false} AlwaysRemembers(run: Run, i: nat, r: nat)
    requires Valid(run) && i < |run.states| && r in run.states[i].rulings
    ensures Remembers(run, i, r)
  {
    StartsEmpty(run);
    hide Valid, Remembers;
    if i > 0 {
      StepOf(run, i - 1);
      if r in run.states[i - 1].rulings {
        AlwaysRemembers(run, i - 1, r);
        RemembersStep(run, i, r);
      } else {
        NewRulingIsLoaded(run.states[i - 1], run.steps[i - 1], r);
        LoadRemembers(run, i, r);
      }
    }
  }

  lemma StartsEmpty(run: Run)
    requires Valid(run)
    ensures |run.states| > 0 && run.states[0].rulings == map[]
  {
  }

  lemma StepOf(run: Run, k: nat)
    requires Valid(run) && k + 1 < |run.states|
    ensures k < |run.steps| && Enabled(run.states[k], run.steps[k])
    ensures run.states[k + 1] == Apply(run.states[k], run.steps[k])
  {
  }

  lemma NewRulingIsLoaded(s: State, step: Step, r: nat)
    requires Enabled(s, step) && r in Apply(s, step).rulings && r !in s.rulings
    ensures step.Begin? && step.r == r
  {
    MovesOneRuling(s, step);
    hide Apply, MovedTo;
  }

  lemma LoadRemembers(run: Run, i: nat, r: nat)
    requires Valid(run) && 0 < i < |run.states| && run.steps[i - 1].Begin? && run.steps[i - 1].r == r
    ensures r in run.states[i].rulings && Remembers(run, i, r)
  {
    var s, step := run.states[i - 1], run.steps[i - 1];
    assert run.states[i].rulings[r] == Ruling(step.id, step.admin, step.verdict, Loaded(Capture(s.rows[step.id])));
    assert LoadedAt(run, i - 1, r, step.id, Capture(s.rows[step.id]));
  }

  lemma RemembersStep(run: Run, i: nat, r: nat)
    requires Valid(run) && 0 < i < |run.states| && r in run.states[i - 1].rulings
    requires Remembers(run, i - 1, r)
    ensures r in run.states[i].rulings && Remembers(run, i, r)
  {
    hide Apply, Enabled;
    var s, step := run.states[i - 1], run.steps[i - 1];
    PhaseStep(s, step, r);
    var ruling := run.states[i].rulings[r];
    if !ruling.phase.Ended? && !ruling.phase.Done? {
      var b: nat :| b < i - 1 && LoadedAt(run, b, r, ruling.dispute, ruling.phase.previous);
    }
    if ruling.phase.Holding() {
      if s.rulings[r].phase.Holding() && ruling.phase.before == s.rulings[r].phase.before {
        var c: nat :| c < i - 1 && ClaimedAt(run, c, r, ruling.dispute, ruling.phase.before)
                      && HeldSince(run, c, i - 1, r, ruling.dispute);
        assert HeldSince(run, c, i, r, ruling.dispute);
      } else {
        assert ClaimedAt(run, i - 1, r, ruling.dispute, ruling.phase.before);
        assert HeldSince(run, i - 1, i, r, ruling.dispute);
      }
    }
  }

  /** A dispute that a call holds is settled. */
  lemma HeldIsSettled(run: Run, m: nat, r: nat, id: nat)
    requires Valid(run) && m < |run.states| && Holds(run.states[m], r, id)
    ensures id in run.states[m].rows && !run.states[m].rows[id].Active()
  {
    Reachable(run, m);
    assert RulingOk(run.states[m], run.states[m].rulings[r]);
  }

  /**
   * Step `k` rolls back the very ruling that is on the dispute: its verdict is on the row, its claim at
   * `c` won the row, and the row has been settled ever since.
   */
  ghost predicate RollsBackItsClaim(run: Run, k: nat, id: nat, c: nat)
    requires Valid(run)
  {
    && c < k < |run.steps| && UndoesOwnRuling(run.states[k], run.steps[k], id)
    && ClaimedAt(run, c, run.steps[k].r, id, run.states[k].rulings[run.steps[k].r].phase.before)
    && forall m :: c < m <= k ==> id in run.states[m].rows && !run.states[m].rows[id].Active()
  }

  lemma RollbackHasClaim(run: Run, k: nat, id: nat) returns (c: nat)
    requires Valid(run) && k < |run.steps| && UndoesOwnRuling(run.states[k], run.steps[k], id)
    ensures RollsBackItsClaim(run, k, id, c)
  {
    hide Apply, Enabled, Carries;
    var r := run.steps[k].r;
    AlwaysRemembers(run, k, r);
    c :| c < k && ClaimedAt(run, c, r, id, run.states[k].rulings[r].phase.before) && HeldSince(run, c, k, r, id);
    forall m | c < m <= k ensures id in run.states[m].rows && !run.states[m].rows[id].Active() {
      assert Holds(run.states[m], r, id);
      HeldIsSettled(run, m, r, id);
    }
  }

  /** A settled dispute is open work again only after the rollback of the ruling that was on it. */
  lemma {:induction false} ReopenedByOwnRollback(run: Run, i: nat, j: nat, id: nat)
    requires Valid(run) && i <= j < |run.states|
    requires id in run.states[i].rows && !run.states[i].rows[id].Active()
    ensures id in run.states[j].rows
    ensures run.states[j].rows[id].Active() ==>
              exists k, c: nat :: i <= k < j && RollsBackItsClaim(run, k, id, c)
    decreases j
  {
    hide Apply, Enabled, RollsBackItsClaim, UndoesOwnRuling;
    if i < j {
      ReopenedByOwnRollback(run, i, j - 1, id);
      if run.states[j - 1].rows[id].Active() {
        RowsStay(run.states[j - 1], run.steps[j - 1], id);
      } else {
        SettledStep(run, j - 1, id);
        if run.states[j].rows[id].Active() {
          var c := RollbackHasClaim(run, j - 1, id);
        }
      }
    }
  }

  /** What a rollback that finds its ruling writes. */
  lemma RollbackRow(s: State, r: nat)
    requires Inv(s) && Enabled(s, Rollback(r)) && Apply(s, Rollback(r)).rulings[r].phase == Ended(RolledBack)
    ensures var p, id := s.rulings[r].phase, s.rulings[r].dispute;
            && id in Apply(s, Rollback(r)).rows
            && Apply(s, Rollback(r)).rows[id] == p.before.(status := p.previous.status)
            && Apply(s, Rollback(r)).rows[id].Active()
  {
    RulingHolds(s, r);
    hide Inv;
    WritesOneRow(s, Rollback(r));
    MovesOneRuling(s, Rollback(r));
    hide Apply;
    UndoneRow(s, r);
    hide RulingOk, RolledBackRow;
  }

  lemma UndoneRow(s: State, r: nat)
    requires r in s.rulings && s.rulings[r].phase.Declined? && RulingOk(s, s.rulings[r])
    requires s.rows[s.rulings[r].dispute].status.Resolved?
    ensures var p, row := s.rulings[r].phase, s.rows[s.rulings[r].dispute];
            && RolledBackRow(row, p.previous) == p.before.(status := p.previous.status)
            && RolledBackRow(row, p.previous).Active()
  {
  }

  /**
   * An applied rollback puts back the row the claim found, but for the status, which becomes the one
   * read when the ruling was loaded. So the ruling leaves no trace exactly when the status did not
   * change between the load and the claim; a review started in between is undone.
   */
  lemma RollbackUndoesRuling(run: Run, i: nat, r: nat) returns (b: nat, c: nat)
    requires Valid(run) && i < |run.steps| && run.steps[i] == Rollback(r)
    requires run.states[i + 1].rulings[r].phase == Ended(RolledBack)
    ensures b < i && c < i
    ensures var id := run.states[i].rulings[r].dispute;
            && id in run.states[b].rows && LoadedAt(run, b, r, id, Capture(run.states[b].rows[id]))
            && id in run.states[c].rows && ClaimedAt(run, c, r, id, run.states[c].rows[id])
            && id in run.states[i + 1].rows
            && run.states[i + 1].rows[id] == run.states[c].rows[id].(status := run.states[b].rows[id].status)
            && run.states[i + 1].rows[id].Active()
            && (run.states[i + 1].rows[id] == run.states[c].rows[id]
                <==> run.states[b].rows[id].status == run.states[c].rows[id].status)
  {
    var s := run.states[i];
    var ruling := s.rulings[r];
    Reachable(run, i);
    assert RulingOk(s, ruling);
    AlwaysRemembers(run, i, r);
    b :| b < i && LoadedAt(run, b, r, ruling.dispute, ruling.phase.previous);
    c :| c < i && ClaimedAt(run, c, r, ruling.dispute, ruling.phase.before);
    RollbackRow(s, r);
  }

  /** The rollback finds nothing to undo exactly when the dispute was closed while the provider was asked. */
  lemma AbandonedIffClosed(run: Run, i: nat, r: nat)
    requires Valid(run) && i < |run.steps| && run.steps[i] == Rollback(r)
    ensures run.states[i + 1].rulings[r].phase == Ended(Abandoned)
            <==> run.states[i].rows[run.states[i].rulings[r].dispute].status.Closed?
    ensures run.states[i + 1].ledger == run.states[i].ledger && Unmoved(run.states[i].ledger, run.states[i].rulings[r].dispute)
  {
    Reachable(run, i);
    assert RulingOk(run.states[i], run.states[i].rulings[r]);
  }

  ghost predicate Unheld(s: State, id: nat) {
    forall r :: r in s.rulings && s.rulings[r].phase.Holding() ==> s.rulings[r].dispute != id
  }

  ghost predicate NotMoved(s: State, payment: nat) {
    forall k :: 0 <= k < |s.ledger| ==> s.ledger[k].payment != payment
  }

  /** A claim left behind on a closed dispute, its payment unmoved and no call left that could move it. */
  ghost predicate Frozen(s: State, id: nat, payment: nat) {
    && id in s.rows && s.rows[id].status.Closed? && s.rows[id].Claims(payment)
    && Unheld(s, id) && NotMoved(s, payment)
  }

  lemma ClosedRowUntouched(s: State, step: Step, id: nat)
    requires Enabled(s, step) && id in s.rows && s.rows[id].status.Closed? && Unheld(s, id)
    ensures id in Apply(s, step).rows && Apply(s, step).rows[id] == s.rows[id]
  {
    hide Apply;
    WritesOneRow(s, step);
  }

  lemma StaysUnheld(s: State, step: Step, id: nat)
    requires Enabled(s, step) && id in s.rows && s.rows[id].status.Closed? && Unheld(s, id)
    ensures Unheld(Apply(s, step), id)
  {
    var t := Apply(s, step);
    forall r | r in t.rulings && t.rulings[r].phase.Holding() ensures t.rulings[r].dispute != id {
      if r in s.rulings {
        PhaseStep(s, step, r);
      }
    }
  }

  lemma LedgerStep(s: State, step: Step)
    requires Enabled(s, step)
    ensures Apply(s, step).ledger == s.ledger ||
            (step.ProviderSucceeds? && Apply(s, step).ledger
               == s.ledger + [Movement(s.rulings[step.r].dispute, s.rulings[step.r].phase.plan.paymentId.value,
                                       s.rulings[step.r].phase.plan.action, MovedAmount(s, s.rulings[step.r].phase.plan))])
  {
    hide PlanMoneyAction, ClaimedElsewhere, ClaimedRow, RolledBackRow, RecordedRow, ClosedRow, RespondedRow, NewDispute;
    hide LinkedPayment;
  }

  lemma FrozenStep(s: State, step: Step, id: nat, payment: nat)
    requires Inv(s) && Enabled(s, step) && Frozen(s, id, payment)
    ensures Frozen(Apply(s, step), id, payment)
  {
    ClosedRowUntouched(s, step, id);
    StaysUnheld(s, step, id);
    LedgerStep(s, step);
    if step.ProviderSucceeds? {
      MoverClaims(s, step.r);
    }
    hide Apply, RulingOk, RulingsOk, LedgerOk, PaymentsOk, MovedAmount, RowOk;
  }

  /** Whoever moves money holds the claim on it. */
  lemma MoverClaims(s: State, r: nat)
    requires Inv(s) && Enabled(s, ProviderSucceeds(r))
    ensures var ruling := s.rulings[r];
            ruling.dispute in s.rows && s.rows[ruling.dispute].Claims(ruling.phase.plan.paymentId.value)
  {
    RulingHolds(s, r);
  }

  /** An abandoned claim blocks its payment for good: no later ruling ever moves that money. */
  lemma {:induction false} AbandonedClaimBlocks(run: Run, i: nat, j: nat, id: nat, payment: nat)
    requires Valid(run) && i <= j < |run.states|
    requires Frozen(run.states[i], id, payment)
    ensures Frozen(run.states[j], id, payment)
    decreases j
  {
    hide Apply, Enabled, Inv;
    if i < j {
      AbandonedClaimBlocks(run, i, j - 1, id, payment);
      Reachable(run, j - 1);
      FrozenStep(run.states[j - 1], run.steps[j - 1], id, payment);
    }
  }

  // ─── The queue's figures ───────────────────────────────────────────────────────

  /** `created_at` within the filing window; an absent bound does not filter. */
  predicate Filed(d: Dispute, from: Option<int>, to: Option<int>) {
    (from.Some? ==> d.createdAt >= from.value) && (to.Some? ==> d.createdAt <= to.value)
  }

  function FiledIds(rows: Rows, from: Option<int>, to: Option<int>): set<nat> {
    set id | id in rows && Filed(rows[id], from, to)
  }

  function ResolvedIds(rows: Rows, from: Option<int>, to: Option<int>): set<nat> {
    set id | id in FiledIds(rows, from, to) && rows[id].resolvedAt.Some?
  }

  function OpenIds(rows: Rows, from: Option<int>, to: Option<int>): set<nat> {
    set id | id in FiledIds(rows, from, to) && rows[id].Active()
  }

  function OverdueIds(rows: Rows, from: Option<int>, to: Option<int>, cutoff: int): set<nat> {
    set id | id in OpenIds(rows, from, to) && rows[id].createdAt < cutoff
  }

  /** No dispute is ever counted both as resolved and as open, nor left out of both. */
  lemma CountsAddUp(run: Run, i: nat, from: Option<int>, to: Option<int>, cutoff: int)
    requires Valid(run) && i < |run.states|
    ensures var rows := run.states[i].rows;
            && |ResolvedIds(rows, from, to)| + |OpenIds(rows, from, to)| == |FiledIds(rows, from, to)|
            && |OverdueIds(rows, from, to, cutoff)| <= |OpenIds(rows, from, to)|
  {
    Reachable(run, i);
    CountsOf(run.states[i].rows, from, to, cutoff);
  }

  /** On rows where open work is what has no resolved time. */
  lemma CountsOf(rows: Rows, from: Option<int>, to: Option<int>, cutoff: int)
    requires forall id :: id in rows ==> RowOk(rows[id])
    ensures |ResolvedIds(rows, from, to)| + |OpenIds(rows, from, to)| == |FiledIds(rows, from, to)|
    ensures |OverdueIds(rows, from, to, cutoff)| <= |OpenIds(rows, from, to)|
  {
    var resolved, open, overdue := ResolvedIds(rows, from, to), OpenIds(rows, from, to), OverdueIds(rows, from, to, cutoff);
    forall id | id in rows ensures rows[id].Active() <==> rows[id].resolvedAt.None? {
      assert RowOk(rows[id]);
    }
    assert resolved !! open && FiledIds(rows, from, to) == resolved + open;
    assert overdue <= open;
    assert overdue + (open - overdue) == open;
  }

  /** Open work is what no ruling has left anything on. */
  lemma OpenWorkIsClean(run: Run, i: nat, id: nat)
    requires Valid(run) && i < |run.states| && id in run.states[i].rows
    ensures var d := run.states[i].rows[id];
            && (d.Active() <==> d.resolvedAt.None?)
            && (d.Active() ==> d.Unruled())
            && (!d.Active() ==> d.resolvedById.Some?)
            && (d.outcome.Some? <==> d.resolution.Some?)
  {
    Reachable(run, i);
    assert RowOk(run.states[i].rows[id]);
  }

  // ─── A review that is lost ─────────────────────────────────────────────────────

  ghost function Last(run: Run): State
    requires |run.states| > 0
  {
    run.states[|run.states| - 1]
  }

  lemma Extend(run: Run, step: Step) returns (longer: Run)
    requires Valid(run) && Enabled(Last(run), step)
    ensures longer == Run(run.states + [Apply(Last(run), step)], run.steps + [step])
    ensures Valid(longer) && Last(longer) == Apply(Last(run), step)
  {
    longer := Run(run.states + [Apply(Last(run), step)], run.steps + [step]);
    forall i | 0 <= i < |longer.steps|
      ensures Enabled(longer.states[i], longer.steps[i])
      ensures longer.states[i + 1] == Apply(longer.states[i], longer.steps[i])
    {
      if i < |run.steps| {
        assert longer.states[i] == run.states[i] && longer.steps[i] == run.steps[i];
      }
    }
  }

  // The run below: dispute 1 is loaded OPEN for a refund of payment 7, then a review starts.
  const REFUND_7 := MoneyPlan(Refund, Some(7), Some(100), None)
  const FULL_REFUND := Verdict(RefundClient, "full refund", None, None)
  const FILED := NewDispute(5, 2, 0)
  const IN_REVIEW := FILED.(status := UnderReview)
  const RULED := ClaimedRow(IN_REVIEW, 9, 10, FULL_REFUND, REFUND_7)
  const AFTER_LOAD := Previous(Open, None, None, None)
  const PAYMENT_7 := Payment(7, Held, 100, None, 90, false)

  function OneRuling(row: Dispute, phase: Phase): State {
    State(map[5 := (2, 3)], map[1 := row], map[7 := PAYMENT_7], map[5 := 7],
          map[1 := Ruling(1, 9, FULL_REFUND, phase)], [])
  }

  lemma ReviewInBetween() returns (run: Run)
    ensures Valid(run)
    ensures |run.steps| == 3 && run.steps[2] == StartReview(1)
    ensures Last(run) == OneRuling(IN_REVIEW, Loaded(AFTER_LOAD))
  {
    run := Run([OneRuling(FILED, Loaded(AFTER_LOAD)).(rows := map[], rulings := map[])], []);
    run := Extend(run, Raise(1, 5, 2, 0));
    assert Last(run).rows == map[1 := FILED];
    run := Extend(run, Begin(1, 1, 9, FULL_REFUND));
    assert Last(run) == OneRuling(FILED, Loaded(AFTER_LOAD));
    run := Extend(run, StartReview(1));
  }

  lemma ReadInReview()
    ensures var s := OneRuling(IN_REVIEW, Loaded(AFTER_LOAD));
            && Enabled(s, ReadPayment(1))
            && Apply(s, ReadPayment(1)) == OneRuling(IN_REVIEW, PaymentRead(AFTER_LOAD, Some(PAYMENT_7)))
  {
  }

  lemma PlannedInReview()
    ensures var s := OneRuling(IN_REVIEW, PaymentRead(AFTER_LOAD, Some(PAYMENT_7)));
            && Enabled(s, DecidePlan(1))
            && Apply(s, DecidePlan(1)) == OneRuling(IN_REVIEW, Planned(AFTER_LOAD, REFUND_7))
  {
    var s := OneRuling(IN_REVIEW, PaymentRead(AFTER_LOAD, Some(PAYMENT_7)));
    assert PlanMoneyAction(s.rows, 1, Some(PAYMENT_7), FULL_REFUND) == Ok(REFUND_7);
    hide PlanMoneyAction;
  }

  lemma ClaimedInReview()
    ensures var s := OneRuling(IN_REVIEW, Planned(AFTER_LOAD, REFUND_7));
            && Enabled(s, Claim(1, 10))
            && Apply(s, Claim(1, 10)) == OneRuling(RULED, Claimed(AFTER_LOAD, REFUND_7, IN_REVIEW))
  {
    var s := OneRuling(IN_REVIEW, Planned(AFTER_LOAD, REFUND_7));
    assert !ClaimedElsewhere(s.rows, 1, 7);
    hide ClaimedElsewhere, ClaimedRow;
  }

  lemma DeclinedInReview()
    ensures var s := OneRuling(RULED, Claimed(AFTER_LOAD, REFUND_7, IN_REVIEW));
            && Enabled(s, ProviderFails(1))
            && Apply(s, ProviderFails(1)) == OneRuling(RULED, Declined(AFTER_LOAD, REFUND_7, IN_REVIEW))
  {
    hide ClaimedRow;
  }

  lemma UndoneInReview()
    ensures var s := OneRuling(RULED, Declined(AFTER_LOAD, REFUND_7, IN_REVIEW));
            && Enabled(s, Rollback(1))
            && Apply(s, Rollback(1)) == OneRuling(FILED, Ended(RolledBack))
  {
    assert RolledBackRow(RULED, AFTER_LOAD) == FILED;
  }

  /** A review started between the load and the claim of a ruling that then fails is silently undone. */
  lemma ReviewCanBeLost() returns (run: Run)
    ensures Valid(run)
    ensures |run.steps| == 8 && run.steps[2] == StartReview(1)
    ensures run.steps[3..] == [ReadPayment(1), DecidePlan(1), Claim(1, 10), ProviderFails(1), Rollback(1)]
    ensures 1 in run.states[3].rows && run.states[3].rows[1].status == UnderReview
    ensures 1 in run.states[8].rows && run.states[8].rows[1].status == Open
  {
    hide Apply, Enabled, Valid, ClaimedRow;
    run := ReviewInBetween();
    ReadInReview();
    run := Extend(run, ReadPayment(1));
    PlannedInReview();
    run := Extend(run, DecidePlan(1));
    ClaimedInReview();
    run := Extend(run, Claim(1, 10));
    DeclinedInReview();
    run := Extend(run, ProviderFails(1));
    UndoneInReview();
    run := Extend(run, Rollback(1));
  }
}

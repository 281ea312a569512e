/** Every step keeps the invariant, so every reachable state has it. */
module DisputeSafety {
  import opened Wrappers
  import opened DisputeRows
  import opened DisputeMoney
  import opened DisputeProtocol

  /** No dispute has been filed yet; the bookings and the payments are whatever they are. */
  ghost predicate Init(s: State) {
    s.rows == map[] && s.rulings == map[] && s.ledger == [] && PaymentsOk(s.payments)
  }

  // ─── One ruling moves ──────────────────────────────────────────────────────────

  /** What a ruling must satisfy does not depend on the other rulings. */
  lemma RulingMoves(s: State, r: nat, phase: Phase)
    requires RulingsOk(s) && r in s.rulings && RulingOk(s, s.rulings[r].(phase := phase))
    ensures RulingsOk(Goto(s, r, phase))
  {
    var t := Goto(s, r, phase);
    forall q | q in t.rulings ensures RulingOk(t, t.rulings[q]) {
      assert q == r || RulingOk(s, s.rulings[q]);
    }
  }

  lemma MoveRuling(s: State, r: nat, phase: Phase)
    requires Inv(s) && r in s.rulings
    requires RulingOk(s, s.rulings[r].(phase := phase))
    requires phase.Holding() ==> s.rulings[r].phase.Holding()
    ensures Inv(Goto(s, r, phase))
  {
    hide RulingOk, RulingsOk, LedgerOk, RowsOk, PaymentsOk;
    RulingMoves(s, r, phase);
  }

  /** A ruling may start to hold a dispute that no other ruling holds. */
  lemma WinRow(s: State, r: nat, phase: Phase)
    requires Inv(s) && r in s.rulings
    requires RulingOk(s, s.rulings[r].(phase := phase))
    requires forall q :: q in s.rulings && s.rulings[q].phase.Holding() ==> s.rulings[q].dispute != s.rulings[r].dispute
    ensures Inv(Goto(s, r, phase))
  {
    hide RulingOk, RulingsOk, LedgerOk, RowsOk, PaymentsOk;
    RulingMoves(s, r, phase);
  }

  // ─── One row changes ───────────────────────────────────────────────────────────

  lemma RulingsOverRow(s: State, id: nat, d: Dispute)
    requires RulingsOk(s)
    requires forall r :: r in s.rulings && s.rulings[r].phase.Holding() && s.rulings[r].dispute == id
                         ==> RulingOk(SetRow(s, id, d), s.rulings[r])
    ensures RulingsOk(SetRow(s, id, d))
  {
    var t := SetRow(s, id, d);
    forall r | r in t.rulings ensures RulingOk(t, t.rulings[r]) {
      assert RulingOk(s, s.rulings[r]);
    }
  }

  lemma LedgerOverRow(rows: Rows, ledger: seq<Movement>, id: nat, d: Dispute)
    requires LedgerOk(rows, ledger)
    requires forall k :: 0 <= k < |ledger| && ledger[k].dispute == id ==> MovementOk(rows[id := d], ledger[k])
    requires d.moneyAmount.Some? ==> Named(ledger, id)
    ensures LedgerOk(rows[id := d], ledger)
  {
    var after := rows[id := d];
    forall k | 0 <= k < |ledger| ensures MovementOk(after, ledger[k]) {
      assert MovementOk(rows, ledger[k]);
    }
  }

  lemma MoveRow(s: State, id: nat, d: Dispute)
    requires Inv(s) && RowOk(d) && IndexHolds(s.rows[id := d])
    requires forall r :: r in s.rulings && s.rulings[r].phase.Holding() && s.rulings[r].dispute == id
                         ==> RulingOk(SetRow(s, id, d), s.rulings[r])
    requires forall k :: 0 <= k < |s.ledger| && s.ledger[k].dispute == id ==> MovementOk(s.rows[id := d], s.ledger[k])
    requires d.moneyAmount.Some? ==> Named(s.ledger, id)
    ensures Inv(SetRow(s, id, d))
  {
    hide RulingOk, RulingsOk, LedgerOk, MovementOk, PaymentsOk, RowOk, IndexHolds, OneHolder;
    RulingsOverRow(s, id, d);
    LedgerOverRow(s.rows, s.ledger, id, d);
  }

  /** A row that claims no more than before leaves the index intact. */
  lemma IndexKept(rows: Rows, id: nat, d: Dispute)
    requires IndexHolds(rows)
    requires forall p: nat :: d.Claims(p) ==> id in rows && rows[id].Claims(p)
    ensures IndexHolds(rows[id := d])
  {
    var after := rows[id := d];
    forall i, j, p: nat {:trigger after[i].Claims(p), after[j].Claims(p)}
      | i in after && j in after && after[i].Claims(p) && after[j].Claims(p)
      ensures i == j
    {
      assert rows[i].Claims(p) && rows[j].Claims(p);
    }
  }

  /** While a dispute is open work no ruling holds it and no money has moved on it. */
  lemma ActiveIsFree(s: State, id: nat)
    requires Inv(s) && id in s.rows && s.rows[id].Active()
    ensures Unmoved(s.ledger, id)
    ensures forall r :: r in s.rulings && s.rulings[r].phase.Holding() ==> s.rulings[r].dispute != id
  {
    forall k | 0 <= k < |s.ledger| ensures s.ledger[k].dispute != id {
      assert MovementOk(s.rows, s.ledger[k]);
    }
    forall r | r in s.rulings && s.rulings[r].phase.Holding() ensures s.rulings[r].dispute != id {
      assert RulingOk(s, s.rulings[r]);
    }
  }

  /** A step that leaves the ruling columns of an active row alone. */
  lemma ActiveRowStep(s: State, id: nat, d: Dispute)
    requires Inv(s) && id in s.rows && s.rows[id].Active()
    requires RowOk(d) && d.Active()
    ensures Inv(SetRow(s, id, d))
  {
    hide RulingOk, RulingsOk, LedgerOk, MovementOk, PaymentsOk;
    ActiveIsFree(s, id);
    IndexKept(s.rows, id, d);
    MoveRow(s, id, d);
  }

  // ─── The steps of the other calls ────────────────────────────────────────────────

  lemma RaiseKeeps(s: State, id: nat, bookingId: nat, user: nat, now: int)
    requires Inv(s) && id !in s.rows
    ensures Inv(SetRow(s, id, NewDispute(bookingId, user, now)))
  {
    var d := NewDispute(bookingId, user, now);
    IndexKept(s.rows, id, d);
    forall k | 0 <= k < |s.ledger| ensures s.ledger[k].dispute != id {
      assert MovementOk(s.rows, s.ledger[k]);
    }
    forall r | r in s.rulings ensures s.rulings[r].dispute != id {
      assert RulingOk(s, s.rulings[r]);
    }
    MoveRow(s, id, d);
  }

  lemma RespondKeeps(s: State, id: nat, user: nat, text: string, now: int)
    requires Inv(s) && id in s.rows && s.rows[id].Active()
    ensures Inv(SetRow(s, id, RespondedRow(s.rows[id], user, text, now)))
  {
    assert RowOk(s.rows[id]);
    ActiveRowStep(s, id, RespondedRow(s.rows[id], user, text, now));
  }

  lemma StartReviewKeeps(s: State, id: nat)
    requires Inv(s) && id in s.rows && s.rows[id].status.Open?
    ensures Inv(SetRow(s, id, s.rows[id].(status := UnderReview)))
  {
    assert RowOk(s.rows[id]);
    ActiveRowStep(s, id, s.rows[id].(status := UnderReview));
  }

  lemma CloseKeeps(s: State, id: nat, admin: nat, now: int, notes: Option<string>)
    requires Inv(s) && id in s.rows && !s.rows[id].status.Closed?
    ensures Inv(SetRow(s, id, ClosedRow(s.rows[id], admin, now, notes)))
  {
    var d := ClosedRow(s.rows[id], admin, now, notes);
    assert RowOk(s.rows[id]);
    IndexKept(s.rows, id, d);
    forall r | r in s.rulings && s.rulings[r].phase.Holding() && s.rulings[r].dispute == id
      ensures RulingOk(SetRow(s, id, d), s.rulings[r])
    {
      assert RulingOk(s, s.rulings[r]);
    }
    forall k | 0 <= k < |s.ledger| && s.ledger[k].dispute == id ensures MovementOk(s.rows[id := d], s.ledger[k]) {
      assert MovementOk(s.rows, s.ledger[k]);
    }
    MoveRow(s, id, d);
  }

  lemma PaymentsChangeKeeps(s: State, payments: map<nat, Payment>, linked: map<nat, nat>)
    requires Inv(s) && Enabled(s, PaymentsChange(payments, linked))
    ensures Inv(s.(payments := payments, linked := linked))
  {
    hide LedgerOk, RowsOk, OneHolder;
    var t := s.(payments := payments, linked := linked);
    forall r | r in t.rulings ensures RulingOk(t, t.rulings[r]) {
      assert RulingOk(s, s.rulings[r]);
    }
  }

  // ─── The steps of a ruling ───────────────────────────────────────────────────────

  lemma BeginKeeps(s: State, r: nat, id: nat, admin: nat, verdict: Verdict)
    requires Inv(s) && Enabled(s, Begin(r, id, admin, verdict))
    ensures Inv(Apply(s, Begin(r, id, admin, verdict)))
  {
    hide LedgerOk, PaymentsOk, IndexHolds;
    var t := Apply(s, Begin(r, id, admin, verdict));
    assert RowOk(s.rows[id]);
    forall q | q in t.rulings ensures RulingOk(t, t.rulings[q]) {
      assert q == r || RulingOk(s, s.rulings[q]);
    }
  }

  lemma ReadPaymentKeeps(s: State, r: nat)
    requires Inv(s) && Enabled(s, ReadPayment(r))
    ensures Inv(Apply(s, ReadPayment(r)))
  {
    var ruling := s.rulings[r];
    assert RulingOk(s, ruling);
    MoveRuling(s, r, PaymentRead(ruling.phase.previous, LinkedPayment(s, s.rows[ruling.dispute].bookingId)));
  }

  lemma DecidePlanKeeps(s: State, r: nat)
    requires Inv(s) && Enabled(s, DecidePlan(r))
    ensures Inv(Apply(s, DecidePlan(r)))
  {
    hide PlanMoneyAction, RowsOk, LedgerOk, OneHolder;
    var ruling := s.rulings[r];
    assert RulingOk(s, ruling);
    PlanNeverSilent(s.rows, ruling.dispute, ruling.phase.payment, ruling.verdict);
    match PlanMoneyAction(s.rows, ruling.dispute, ruling.phase.payment, ruling.verdict) {
      case Ok(plan) => MoveRuling(s, r, Planned(ruling.phase.previous, plan));
      case Err(_) => MoveRuling(s, r, Ended(Rejected));
    }
  }

  /** The claim of a payment no other row claims keeps the index. */
  lemma ClaimKeepsIndex(rows: Rows, id: nat, d: Dispute, plan: MoneyPlan)
    requires IndexHolds(rows) && ClaimColumns(d, plan)
    requires plan.MovesMoney() ==> !ClaimedElsewhere(rows, id, plan.paymentId.value)
    ensures IndexHolds(rows[id := d])
  {
    var after := rows[id := d];
    forall i, j, p: nat {:trigger after[i].Claims(p), after[j].Claims(p)}
      | i in after && j in after && after[i].Claims(p) && after[j].Claims(p)
      ensures i == j
    {
      if i != j && (i == id || j == id) {
        assert false;
      }
    }
  }

  lemma ClaimKeeps(s: State, r: nat, now: int)
    requires Inv(s) && Enabled(s, Claim(r, now))
    ensures Inv(ApplyClaim(s, r, now))
  {
    hide Inv;
    var ruling := s.rulings[r];
    var plan := PlanOf(ruling.phase);
    RulingHolds(s, r);
    if !s.rows[ruling.dispute].Active() {
      MoveRuling(s, r, Ended(LostTheRow));
    } else if plan.MovesMoney() && ClaimedElsewhere(s.rows, ruling.dispute, plan.paymentId.value) {
      MoveRuling(s, r, Degraded(ruling.phase.previous));
    } else {
      WonClaimKeeps(s, r, now);
    }
  }

  lemma RulingHolds(s: State, r: nat)
    requires Inv(s) && r in s.rulings
    ensures RulingOk(s, s.rulings[r])
  {
  }

  lemma WonClaimKeeps(s: State, r: nat, now: int)
    requires Inv(s) && Enabled(s, Claim(r, now)) && s.rows[s.rulings[r].dispute].Active()
    requires var plan := PlanOf(s.rulings[r].phase);
             plan.MovesMoney() ==> !ClaimedElsewhere(s.rows, s.rulings[r].dispute, plan.paymentId.value)
    ensures Inv(ApplyClaim(s, r, now))
  {
    var ruling := s.rulings[r];
    var id := ruling.dispute;
    var row, plan := s.rows[id], PlanOf(ruling.phase);
    var d := ClaimedRow(row, ruling.admin, now, ruling.verdict, plan);
    var won := Claimed(ruling.phase.previous, plan, row);
    ActiveIsFree(s, id);
    ClaimMovesRow(s, id, d, plan);
    WonRulingOk(s, r, now);
    WonClaim(s, r, now);
    hide Inv, RulingOk, ClaimedRow, ClaimedElsewhere, ApplyClaim;
    WinRow(SetRow(s, id, d), r, won);
  }

  /** Winning the row is writing it and then moving the ruling. */
  lemma WonClaim(s: State, r: nat, now: int)
    requires Enabled(s, Claim(r, now)) && s.rows[s.rulings[r].dispute].Active()
    requires var plan := PlanOf(s.rulings[r].phase);
             plan.MovesMoney() ==> !ClaimedElsewhere(s.rows, s.rulings[r].dispute, plan.paymentId.value)
    ensures var ruling := s.rulings[r];
            var row, plan := s.rows[ruling.dispute], PlanOf(ruling.phase);
            ApplyClaim(s, r, now)
            == Goto(SetRow(s, ruling.dispute, ClaimedRow(row, ruling.admin, now, ruling.verdict, plan)), r,
                    Claimed(ruling.phase.previous, plan, row))
  {
    hide ClaimedElsewhere, ClaimedRow;
  }

  lemma ClaimMovesRow(s: State, id: nat, d: Dispute, plan: MoneyPlan)
    requires Inv(s) && id in s.rows && s.rows[id].Active() && RowOk(d) && ClaimColumns(d, plan)
    requires plan.MovesMoney() ==> !ClaimedElsewhere(s.rows, id, plan.paymentId.value)
    ensures Inv(SetRow(s, id, d))
  {
    ActiveIsFree(s, id);
    ClaimKeepsIndex(s.rows, id, d, plan);
    hide RulingOk, RulingsOk, LedgerOk, MovementOk, PaymentsOk, RowOk, IndexHolds;
    MoveRow(s, id, d);
  }

  /** What the winner of a claim may rely on. */
  lemma WonRulingOk(s: State, r: nat, now: int)
    requires Inv(s) && Enabled(s, Claim(r, now)) && s.rows[s.rulings[r].dispute].Active()
    requires Unmoved(s.ledger, s.rulings[r].dispute)
    ensures var ruling := s.rulings[r];
            var row, plan := s.rows[ruling.dispute], PlanOf(ruling.phase);
            var d := ClaimedRow(row, ruling.admin, now, ruling.verdict, plan);
            RulingOk(SetRow(s, ruling.dispute, d), ruling.(phase := Claimed(ruling.phase.previous, plan, row)))
  {
    RulingHolds(s, r);
    assert RowOk(s.rows[s.rulings[r].dispute]);
    hide RulingsOk, LedgerOk, PaymentsOk, IndexHolds, OneHolder;
  }

  lemma SkipMoneyKeeps(s: State, r: nat)
    requires Inv(s) && Enabled(s, SkipMoney(r))
    ensures Inv(Apply(s, SkipMoney(r)))
  {
    assert RulingOk(s, s.rulings[r]);
    MoveRuling(s, r, Done(None, s.rulings[r].phase.before));
  }

  lemma ProviderFailsKeeps(s: State, r: nat)
    requires Inv(s) && Enabled(s, ProviderFails(r))
    ensures Inv(Apply(s, ProviderFails(r)))
  {
    var phase := s.rulings[r].phase;
    assert RulingOk(s, s.rulings[r]);
    MoveRuling(s, r, Declined(phase.previous, phase.plan, phase.before));
  }

  lemma CrashKeeps(s: State, r: nat)
    requires Inv(s) && Enabled(s, Crash(r))
    ensures Inv(Apply(s, Crash(r)))
  {
    assert RulingOk(s, s.rulings[r]);
    MoveRuling(s, r, Ended(Crashed));
  }

  // A completed movement: first what it does to the ledger, then to the rulings.

  lemma LedgerTakes(rows: Rows, ledger: seq<Movement>, m: Movement)
    requires LedgerOk(rows, ledger) && MovementOk(rows, m) && Unmoved(ledger, m.dispute)
    ensures LedgerOk(rows, ledger + [m])
  {
    var longer := ledger + [m];
    forall k | 0 <= k < |longer| ensures MovementOk(rows, longer[k]) {
      assert k == |ledger| || longer[k] == ledger[k];
    }
    forall id | id in rows && rows[id].moneyAmount.Some? ensures Named(longer, id) {
      var k :| 0 <= k < |ledger| && ledger[k].dispute == id;
      assert longer[k].dispute == id;
    }
  }

  /** The other rulings hold other disputes, so a movement on this one is nothing to them. */
  lemma RulingsTake(s: State, r: nat, m: Movement, phase: Phase)
    requires RulingsOk(s) && OneHolder(s.rulings) && r in s.rulings
    requires s.rulings[r].phase.Holding() && s.rulings[r].dispute == m.dispute
    requires RulingOk(s.(ledger := s.ledger + [m]), s.rulings[r].(phase := phase))
    ensures RulingsOk(Goto(s, r, phase).(ledger := s.ledger + [m]))
  {
    var t := Goto(s, r, phase).(ledger := s.ledger + [m]);
    forall q | q in t.rulings ensures RulingOk(t, t.rulings[q]) {
      if q != r {
        assert RulingOk(s, s.rulings[q]);
        assert s.rulings[q].phase.Holding() ==> s.rulings[q].dispute != m.dispute;
      }
    }
  }

  lemma MovementIsDue(s: State, r: nat)
    requires Inv(s) && Enabled(s, ProviderSucceeds(r))
    ensures var ruling := s.rulings[r];
            var plan := ruling.phase.plan;
            var m := Movement(ruling.dispute, plan.paymentId.value, plan.action, MovedAmount(s, plan));
            var phase := Done(Some(Moved(plan.action, plan.amount.GetOr(0), plan.paymentId.value)), ruling.phase.before);
            && MovementOk(s.rows, m) && Unmoved(s.ledger, m.dispute)
            && RulingOk(s.(ledger := s.ledger + [m]), ruling.(phase := phase))
  {
    RulingHolds(s, r);
    hide Inv, RulingsOk;
    var ruling := s.rulings[r];
    var plan := ruling.phase.plan;
    var m := Movement(ruling.dispute, plan.paymentId.value, plan.action, MovedAmount(s, plan));
    assert (s.ledger + [m])[|s.ledger|] == m;
  }

  lemma ProviderSucceedsKeeps(s: State, r: nat)
    requires Inv(s) && Enabled(s, ProviderSucceeds(r))
    ensures Inv(Apply(s, ProviderSucceeds(r)))
  {
    var ruling := s.rulings[r];
    var plan := ruling.phase.plan;
    var m := Movement(ruling.dispute, plan.paymentId.value, plan.action, MovedAmount(s, plan));
    var phase := Done(Some(Moved(plan.action, plan.amount.GetOr(0), plan.paymentId.value)), ruling.phase.before);
    MovementIsDue(s, r);
    hide RulingOk, RulingsOk, LedgerOk, MovementOk, RowsOk, PaymentsOk, MovedAmount;
    LedgerTakes(s.rows, s.ledger, m);
    RulingsTake(s, r, m, phase);
    assert Apply(s, ProviderSucceeds(r)) == Goto(s, r, phase).(ledger := s.ledger + [m]);
  }

  // The record: first the ruling ends, then the row is written.

  lemma RecordOverLedger(s: State, r: nat)
    requires Inv(s) && Enabled(s, Record(r, true))
    ensures var id, moved := s.rulings[r].dispute, s.rulings[r].phase.moved;
            var d := RecordedRow(s.rows[id], moved);
            && (forall k :: 0 <= k < |s.ledger| && s.ledger[k].dispute == id ==> MovementOk(s.rows[id := d], s.ledger[k]))
            && (d.moneyAmount.Some? ==> Named(s.ledger, id))
  {
    hide RulingsOk, OneHolder, RowsOk, PaymentsOk;
    var id, moved := s.rulings[r].dispute, s.rulings[r].phase.moved;
    RulingHolds(s, r);
    if moved.Some? {
      var m := Movement(id, moved.value.paymentId, moved.value.action, moved.value.amount);
      var k :| 0 <= k < |s.ledger| && s.ledger[k] == m;
      assert MovementOk(s.rows, s.ledger[k]);
      assert forall j :: 0 <= j < |s.ledger| && s.ledger[j].dispute == id ==> j == k;
    }
  }

  lemma RecordOverRow(s: State, r: nat)
    requires Inv(s) && Enabled(s, Record(r, true))
    ensures var id := s.rulings[r].dispute;
            var d := RecordedRow(s.rows[id], s.rulings[r].phase.moved);
            RowOk(d) && IndexHolds(s.rows[id := d])
  {
    hide RulingsOk, OneHolder, PaymentsOk;
    var id, moved := s.rulings[r].dispute, s.rulings[r].phase.moved;
    RulingHolds(s, r);
    assert RowOk(s.rows[id]);
    if moved.Some? {
      var k :| 0 <= k < |s.ledger|
               && s.ledger[k] == Movement(id, moved.value.paymentId, moved.value.action, moved.value.amount);
      assert MovementOk(s.rows, s.ledger[k]);
    }
    IndexKept(s.rows, id, RecordedRow(s.rows[id], moved));
  }

  lemma RecordKeeps(s: State, r: nat, written: bool)
    requires Inv(s) && Enabled(s, Record(r, written))
    ensures Inv(Apply(s, Record(r, written)))
  {
    RulingHolds(s, r);
    var id := s.rulings[r].dispute;
    if !written {
      MoveRuling(s, r, Ended(RecordLost));
    } else {
      MoveRuling(s, r, Ended(Recorded));
      RecordOverLedger(s, r);
      RecordOverRow(s, r);
      NobodyElseHolds(s, r, Ended(Recorded));
      MoveRow(Goto(s, r, Ended(Recorded)), id, RecordedRow(s.rows[id], s.rulings[r].phase.moved));
    }
  }

  /** Once the ruling that holds a dispute has ended, no ruling holds it. */
  lemma NobodyElseHolds(s: State, r: nat, phase: Phase)
    requires OneHolder(s.rulings) && r in s.rulings && s.rulings[r].phase.Holding() && !phase.Holding()
    ensures forall q :: q in Goto(s, r, phase).rulings && Goto(s, r, phase).rulings[q].phase.Holding()
                        ==> Goto(s, r, phase).rulings[q].dispute != s.rulings[r].dispute
  {
  }

  lemma RollbackKeeps(s: State, r: nat)
    requires Inv(s) && Enabled(s, Rollback(r))
    ensures Inv(ApplyRollback(s, r))
  {
    var ruling := s.rulings[r];
    var row := s.rows[ruling.dispute];
    RulingHolds(s, r);
    if row.status.Resolved? && row.resolvedById == Some(ruling.admin) {
      UndoneKeeps(s, r);
    } else {
      MoveRuling(s, r, Ended(Abandoned));
    }
  }

  lemma UndoneKeeps(s: State, r: nat)
    requires Inv(s) && Enabled(s, Rollback(r))
    requires s.rows[s.rulings[r].dispute].status.Resolved?
    requires s.rows[s.rulings[r].dispute].resolvedById == Some(s.rulings[r].admin)
    ensures Inv(ApplyRollback(s, r))
  {
    var id := s.rulings[r].dispute;
    var d := RolledBackRow(s.rows[id], s.rulings[r].phase.previous);
    UndoneRowOk(s, r);
    NobodyElseHolds(s, r, Ended(RolledBack));
    MoveRuling(s, r, Ended(RolledBack));
    hide RulingOk, RulingsOk, LedgerOk, MovementOk, RowsOk, PaymentsOk, IndexHolds, RowOk, RolledBackRow;
    MoveRow(Goto(s, r, Ended(RolledBack)), id, d);
  }

  lemma UndoneRowOk(s: State, r: nat)
    requires Inv(s) && Enabled(s, Rollback(r)) && s.rows[s.rulings[r].dispute].status.Resolved?
    ensures var id := s.rulings[r].dispute;
            var d := RolledBackRow(s.rows[id], s.rulings[r].phase.previous);
            RowOk(d) && d.moneyAmount.None? && Unmoved(s.ledger, id) && IndexHolds(s.rows[id := d])
  {
    var ruling := s.rulings[r];
    RulingHolds(s, r);
    hide RulingsOk, LedgerOk, PaymentsOk, OneHolder;
    IndexKept(s.rows, ruling.dispute, RolledBackRow(s.rows[ruling.dispute], ruling.phase.previous));
  }

  /** Every step of every interleaving keeps the invariant. */
  lemma StepKeepsInv(s: State, step: Step)
    requires Inv(s) && Enabled(s, step)
    ensures Inv(Apply(s, step))
  {
    hide Inv;
    match step
    case Raise(id, bookingId, user, now) => RaiseKeeps(s, id, bookingId, user, now);
    case Respond(id, user, text, now) => RespondKeeps(s, id, user, text, now);
    case StartReview(id) => StartReviewKeeps(s, id);
    case Close(id, admin, now, notes) => CloseKeeps(s, id, admin, now, notes);
    case PaymentsChange(payments, linked) => PaymentsChangeKeeps(s, payments, linked);
    case Begin(r, id, admin, verdict) => BeginKeeps(s, r, id, admin, verdict);
    case ReadPayment(r) => ReadPaymentKeeps(s, r);
    case DecidePlan(r) => DecidePlanKeeps(s, r);
    case Claim(r, now) => ClaimKeeps(s, r, now);
    case SkipMoney(r) => SkipMoneyKeeps(s, r);
    case ProviderSucceeds(r) => ProviderSucceedsKeeps(s, r);
    case ProviderFails(r) => ProviderFailsKeeps(s, r);
    case Record(r, written) => RecordKeeps(s, r, written);
    case Rollback(r) => RollbackKeeps(s, r);
    case Crash(r) => CrashKeeps(s, r);
  }

  // ─── The parties ─────────────────────────────────────────────────────────────────

  /** Every dispute was raised by a party of its booking. */
  ghost predicate PartiesOk(s: State) {
    forall id :: id in s.rows ==> IsParty(s.parties, s.rows[id].bookingId, s.rows[id].raisedById)
  }
}

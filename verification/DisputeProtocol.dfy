/**
 * The ruling protocol as a step system. Every SQL statement is one atomic step, so any number of
 * rulings, closes, review starts, responses and payment changes interleave between them. A ruling
 * may stop for ever after any of its steps.
 */
module DisputeProtocol {
  import opened Wrappers
  import opened DisputeRows
  import opened DisputeMoney

  /** How a call of `resolve` ended. */
  datatype Ending = Rejected | LostTheRow | Recorded | RecordLost | RolledBack | Abandoned | Crashed

  /**
   * Where a call of `resolve` stands. `before` remembers the row as the claim found it; the service
   * does not keep it, the properties below speak about it.
   */
  datatype Phase =
    | Loaded(previous: Previous)
    | PaymentRead(previous: Previous, payment: Option<Payment>)
    | Planned(previous: Previous, plan: MoneyPlan)
    | Degraded(previous: Previous)
    | Claimed(previous: Previous, plan: MoneyPlan, before: Dispute)
    | Done(moved: Option<Moved>, before: Dispute)
    | Declined(previous: Previous, plan: MoneyPlan, before: Dispute)
    | Ended(ending: Ending)
  {
    /** The call has won the row and has neither recorded nor undone its ruling. */
    predicate Holding() {
      Claimed? || Done? || Declined?
    }
  }

  datatype Ruling = Ruling(dispute: nat, admin: nat, verdict: Verdict, phase: Phase)

  /** A completed movement of money, as the provider carried it out. */
  datatype Movement = Movement(dispute: nat, payment: nat, action: MoneyAction, amount: int)

  /** `parties` are the customer and the artisan of each booking; they never change. */
  datatype State = State(
    parties: map<nat, (nat, nat)>,
    rows: Rows,
    payments: map<nat, Payment>,
    linked: map<nat, nat>,
    rulings: map<nat, Ruling>,
    ledger: seq<Movement>)

  datatype Step =
    | Raise(id: nat, bookingId: nat, user: nat, now: int)
    | Respond(id: nat, user: nat, text: string, now: int)
    | StartReview(id: nat)
    | Close(id: nat, admin: nat, now: int, notes: Option<string>)
    | PaymentsChange(payments: map<nat, Payment>, linked: map<nat, nat>)
    | Begin(r: nat, id: nat, admin: nat, verdict: Verdict)
    | ReadPayment(r: nat)
    | DecidePlan(r: nat)
    | Claim(r: nat, now: int)
    | SkipMoney(r: nat)
    | ProviderSucceeds(r: nat)
    | ProviderFails(r: nat)
    | Record(r: nat, written: bool)
    | Rollback(r: nat)
    | Crash(r: nat)

  predicate IsParty(parties: map<nat, (nat, nat)>, bookingId: nat, user: nat) {
    bookingId in parties && (user == parties[bookingId].0 || user == parties[bookingId].1)
  }

  /** `findLinkedWork`: the newest payment of the booking's job. */
  function LinkedPayment(s: State, bookingId: nat): Option<Payment> {
    if bookingId in s.linked && s.linked[bookingId] in s.payments then Some(s.payments[s.linked[bookingId]]) else None
  }

  /** The plan a ruling brings to `claimForRuling`; after a sibling won the payment it moves nothing. */
  function PlanOf(phase: Phase): MoneyPlan
    requires phase.Planned? || phase.Degraded?
  {
    if phase.Planned? then phase.plan else DEGRADED
  }

  ghost predicate Enabled(s: State, step: Step) {
    match step
    case Raise(id, bookingId, user, _) => id !in s.rows && IsParty(s.parties, bookingId, user)
    case Respond(id, user, _, _) =>
      id in s.rows && s.rows[id].Active() && s.rows[id].response.None?
      && IsParty(s.parties, s.rows[id].bookingId, user) && user != s.rows[id].raisedById
    case StartReview(id) => id in s.rows && s.rows[id].status.Open?
    case Close(id, _, _, _) => id in s.rows && !s.rows[id].status.Closed?
    case PaymentsChange(payments, _) =>
      // Anything about a payment may change, but its id and the artisan's amount are fixed at creation.
      forall p :: (p in payments ==> payments[p].id == p)
                  && (p in s.payments ==> p in payments && payments[p].artisanAmount == s.payments[p].artisanAmount)
    case Begin(r, id, _, _) => r !in s.rulings && id in s.rows && s.rows[id].Active()
    case ReadPayment(r) => r in s.rulings && s.rulings[r].dispute in s.rows && s.rulings[r].phase.Loaded?
    case DecidePlan(r) => r in s.rulings && s.rulings[r].dispute in s.rows && s.rulings[r].phase.PaymentRead?
    case Claim(r, _) =>
      r in s.rulings && s.rulings[r].dispute in s.rows && (s.rulings[r].phase.Planned? || s.rulings[r].phase.Degraded?)
    case SkipMoney(r) =>
      r in s.rulings && s.rulings[r].phase.Claimed? && !s.rulings[r].phase.plan.CallsProvider()
    case ProviderSucceeds(r) =>
      r in s.rulings && s.rulings[r].phase.Claimed? && s.rulings[r].phase.plan.CallsProvider()
      && s.rulings[r].phase.plan.paymentId.value in s.payments
    case ProviderFails(r) =>
      r in s.rulings && s.rulings[r].phase.Claimed? && s.rulings[r].phase.plan.CallsProvider()
    case Record(r, _) => r in s.rulings && s.rulings[r].dispute in s.rows && s.rulings[r].phase.Done?
    case Rollback(r) => r in s.rulings && s.rulings[r].dispute in s.rows && s.rulings[r].phase.Declined?
    case Crash(r) => r in s.rulings
  }

  function SetRow(s: State, id: nat, d: Dispute): State {
    s.(rows := s.rows[id := d])
  }

  function Goto(s: State, r: nat, phase: Phase): State
    requires r in s.rulings
  {
    s.(rulings := s.rulings[r := s.rulings[r].(phase := phase)])
  }

  /** The money the provider moves: what it is told to refund, or what it owes the artisan when it releases. */
  function MovedAmount(s: State, plan: MoneyPlan): int
    requires plan.CallsProvider() && plan.paymentId.value in s.payments
  {
    if plan.action == Refund then plan.amount.GetOr(0) else s.payments[plan.paymentId.value].artisanAmount
  }

  function ApplyClaim(s: State, r: nat, now: int): State
    requires r in s.rulings && s.rulings[r].dispute in s.rows
    requires s.rulings[r].phase.Planned? || s.rulings[r].phase.Degraded?
  {
    var ruling := s.rulings[r];
    var row := s.rows[ruling.dispute];
    var plan := PlanOf(ruling.phase);
    if !row.Active() then
      Goto(s, r, Ended(LostTheRow))
    else if plan.MovesMoney() && ClaimedElsewhere(s.rows, ruling.dispute, plan.paymentId.value) then
      Goto(s, r, Degraded(ruling.phase.previous))
    else
      SetRow(Goto(s, r, Claimed(ruling.phase.previous, plan, row)),
             ruling.dispute, ClaimedRow(row, ruling.admin, now, ruling.verdict, plan))
  }

  function ApplyRollback(s: State, r: nat): State
    requires r in s.rulings && s.rulings[r].dispute in s.rows && s.rulings[r].phase.Declined?
  {
    var ruling := s.rulings[r];
    var row := s.rows[ruling.dispute];
    if row.status.Resolved? && row.resolvedById == Some(ruling.admin) then
      SetRow(Goto(s, r, Ended(RolledBack)), ruling.dispute, RolledBackRow(row, ruling.phase.previous))
    else
      Goto(s, r, Ended(Abandoned))
  }

  ghost function Apply(s: State, step: Step): State
    requires Enabled(s, step)
  {
    match step
    case Raise(id, bookingId, user, now) => SetRow(s, id, NewDispute(bookingId, user, now))
    case Respond(id, user, text, now) => SetRow(s, id, RespondedRow(s.rows[id], user, text, now))
    case StartReview(id) => SetRow(s, id, s.rows[id].(status := UnderReview))
    case Close(id, admin, now, notes) => SetRow(s, id, ClosedRow(s.rows[id], admin, now, notes))
    case PaymentsChange(payments, linked) => s.(payments := payments, linked := linked)
    case Begin(r, id, admin, verdict) =>
      s.(rulings := s.rulings[r := Ruling(id, admin, verdict, Loaded(Capture(s.rows[id])))])
    case ReadPayment(r) =>
      var ruling := s.rulings[r];
      Goto(s, r, PaymentRead(ruling.phase.previous, LinkedPayment(s, s.rows[ruling.dispute].bookingId)))
    case DecidePlan(r) =>
      var ruling := s.rulings[r];
      match PlanMoneyAction(s.rows, ruling.dispute, ruling.phase.payment, ruling.verdict) {
        case Ok(plan) => Goto(s, r, Planned(ruling.phase.previous, plan))
        case Err(_) => Goto(s, r, Ended(Rejected))
      }
    case Claim(r, now) => ApplyClaim(s, r, now)
    case SkipMoney(r) => Goto(s, r, Done(None, s.rulings[r].phase.before))
    case ProviderSucceeds(r) =>
      var ruling := s.rulings[r];
      var plan := ruling.phase.plan;
      var payment := plan.paymentId.value;
      Goto(s, r, Done(Some(Moved(plan.action, plan.amount.GetOr(0), payment)), ruling.phase.before))
      .(ledger := s.ledger + [Movement(ruling.dispute, payment, plan.action, MovedAmount(s, plan))])
    case ProviderFails(r) =>
      var phase := s.rulings[r].phase;
      Goto(s, r, Declined(phase.previous, phase.plan, phase.before))
    case Record(r, written) =>
      var ruling := s.rulings[r];
      if written then
        SetRow(Goto(s, r, Ended(Recorded)), ruling.dispute,
               RecordedRow(s.rows[ruling.dispute], ruling.phase.moved))
      else
        Goto(s, r, Ended(RecordLost))
    case Rollback(r) => ApplyRollback(s, r)
    case Crash(r) => Goto(s, r, Ended(Crashed))
  }

  // ─── The invariant ─────────────────────────────────────────────────────────────

  /** A row is open work exactly while no ruling or close is on it; an amount always names its movement. */
  ghost predicate RowOk(d: Dispute) {
    && (d.Active() <==> d.resolvedAt.None?)
    && (d.Active() ==> d.Unruled())
    && (!d.Active() ==> d.resolvedById.Some?)
    && (d.outcome.Some? <==> d.resolution.Some?)
    && (d.status.Resolved? ==> d.outcome.Some?)
    && (d.moneyAmount.Some? ==> d.moneyPaymentId.Some? && d.Claims(d.moneyPaymentId.value))
  }

  /** What a plan may ask of the payment it names. */
  ghost predicate PlanOk(s: State, plan: MoneyPlan) {
    plan.action == Release ==>
      && plan.paymentId.Some? && plan.paymentId.value in s.payments
      && plan.amount == Some(s.payments[plan.paymentId.value].artisanAmount)
  }

  ghost predicate PreviousOk(previous: Previous) {
    && (previous.status.Open? || previous.status.UnderReview?)
    && previous.outcome.None? && previous.resolution.None? && previous.adminNotes.None?
  }

  /** The money columns are those `claimForRuling` wrote for this plan. */
  ghost predicate ClaimColumns(d: Dispute, plan: MoneyPlan) {
    && d.moneyAction == (if plan.MovesMoney() then Some(plan.action) else None)
    && d.moneyPaymentId == (if plan.MovesMoney() then plan.paymentId else None)
    && d.moneyAmount == None
  }

  /** The ruling is on the row, or a close has been laid over it; nothing else. */
  ghost predicate RulingStands(d: Dispute, ruling: Ruling, before: Dispute) {
    && before.Active() && before.Unruled()
    && !d.Active()
    && (d.status.Resolved? ==>
        && d.resolvedById == Some(ruling.admin)
        && d == before.(status := Resolved, outcome := Some(ruling.verdict.outcome),
                        resolution := Some(ruling.verdict.resolution),
                        resolvedById := d.resolvedById, resolvedAt := d.resolvedAt, adminNotes := d.adminNotes,
                        moneyAction := d.moneyAction, moneyPaymentId := d.moneyPaymentId, moneyAmount := d.moneyAmount))
  }

  ghost predicate Unmoved(ledger: seq<Movement>, dispute: nat) {
    forall k :: 0 <= k < |ledger| ==> ledger[k].dispute != dispute
  }

  ghost predicate RulingOk(s: State, ruling: Ruling) {
    && ruling.dispute in s.rows
    && var d := s.rows[ruling.dispute];
    match ruling.phase {
      case Loaded(previous) => PreviousOk(previous)
      case PaymentRead(previous, payment) =>
        && PreviousOk(previous)
        && (payment.Some? ==> payment.value.id in s.payments
                              && s.payments[payment.value.id].artisanAmount == payment.value.artisanAmount)
      case Planned(previous, plan) => PreviousOk(previous) && PlanOk(s, plan)
      case Degraded(previous) => PreviousOk(previous)
      case Claimed(previous, plan, before) =>
        && PreviousOk(previous) && PlanOk(s, plan)
        && RulingStands(d, ruling, before) && ClaimColumns(d, plan) && Unmoved(s.ledger, ruling.dispute)
      case Declined(previous, plan, before) =>
        && PreviousOk(previous)
        && RulingStands(d, ruling, before) && ClaimColumns(d, plan) && Unmoved(s.ledger, ruling.dispute)
      case Done(moved, before) =>
        && RulingStands(d, ruling, before)
        && d.moneyAmount == None
        && (moved.None? ==> Unmoved(s.ledger, ruling.dispute))
        && (moved.Some? ==>
            Movement(ruling.dispute, moved.value.paymentId, moved.value.action, moved.value.amount) in s.ledger)
      case Ended(_) => true
    }
  }

  /** The dispute behind a movement is settled and still names the payment, with this amount or none yet. */
  ghost predicate MovementOk(rows: Rows, m: Movement) {
    && m.dispute in rows
    && var d := rows[m.dispute];
    && !d.Active() && m.action != NoMoney
    && d.moneyAction == Some(m.action) && d.moneyPaymentId == Some(m.payment)
    && (d.moneyAmount.Some? ==> d.moneyAmount == Some(m.amount))
  }

  ghost predicate RowsOk(rows: Rows) {
    && IndexHolds(rows)
    && forall id :: id in rows ==> RowOk(rows[id])
  }

  /** At most one ruling holds a dispute. */
  ghost predicate OneHolder(rulings: map<nat, Ruling>) {
    forall q, r ::
      (&& q in rulings && r in rulings
       && rulings[q].phase.Holding() && rulings[r].phase.Holding()
       && rulings[q].dispute == rulings[r].dispute)
      ==> q == r
  }

  ghost predicate RulingsOk(s: State) {
    forall r :: r in s.rulings ==> RulingOk(s, s.rulings[r])
  }

  ghost predicate Named(ledger: seq<Movement>, dispute: nat) {
    exists k :: 0 <= k < |ledger| && ledger[k].dispute == dispute
  }

  ghost predicate LedgerOk(rows: Rows, ledger: seq<Movement>) {
    && (forall k :: 0 <= k < |ledger| ==> MovementOk(rows, ledger[k]))
    && (forall j, k :: 0 <= j < k < |ledger| ==> ledger[j].dispute != ledger[k].dispute)
    && (forall id :: id in rows && rows[id].moneyAmount.Some? ==> Named(ledger, id))
  }

  ghost predicate PaymentsOk(payments: map<nat, Payment>) {
    forall p :: p in payments ==> payments[p].id == p
  }

  ghost predicate Inv(s: State) {
    && RowsOk(s.rows) && OneHolder(s.rulings) && RulingsOk(s)
    && LedgerOk(s.rows, s.ledger) && PaymentsOk(s.payments)
  }
}

/**
 * What a verdict would do to the payment, decided before anything is written,
 * and what the admin is shown about it beforehand.
 */
module DisputeMoney {
  import opened Wrappers
  import opened DisputeRows
  import opened PaymentRows

  /** Amounts are in pesewas; `transferCode` says whether one is set. */
  datatype Payment = Payment(
    id: nat, status: PaymentStatus, amount: int, refundedAmount: Option<int>, artisanAmount: int, transferCode: bool)
  {
    function Remaining(): int {
      amount - refundedAmount.GetOr(0)
    }
  }

  datatype PlanError = AmountWithMutual | AmountWithoutRefund | AmountExceedsRemaining

  function Skip(reason: SkipReason): MoneyPlan {
    MoneyPlan(NoMoney, None, None, Some(reason))
  }

  function PlanRefund(payment: Payment, requested: Option<int>): Result<MoneyPlan, PlanError> {
    if !(payment.status.Held? || payment.status.Released?) then
      Ok(Skip(NotRefundable))
    else if payment.Remaining() <= 0 then
      Ok(Skip(FullyRefunded))
    else
      var amount := requested.GetOr(payment.Remaining());
      if amount > payment.Remaining() then
        Err(AmountExceedsRemaining)
      else
        Ok(MoneyPlan(Refund, Some(payment.id), Some(amount), None))
  }

  function PlanRelease(payment: Payment): MoneyPlan {
    if payment.status.Released? then
      Skip(AlreadyReleased)
    else if payment.status.Held? && payment.transferCode then
      Skip(PayoutInitiated)
    else if !(payment.status.Held? || payment.status.PendingTransfer? || payment.status.TransferFailed?) then
      Skip(NothingWithheld)
    else
      MoneyPlan(Release, Some(payment.id), Some(payment.artisanAmount), None)
  }

  /** The sibling guard: another dispute of the booking holds the claim on the payment. */
  predicate SiblingClaims(rows: Rows, id: nat, payment: nat)
    requires id in rows
  {
    exists other :: other in rows && other != id
                    && rows[other].bookingId == rows[id].bookingId && rows[other].Claims(payment)
  }

  /** `planMoneyAction`, for the payment it finds linked to the booking. */
  function PlanMoneyAction(rows: Rows, id: nat, payment: Option<Payment>, verdict: Verdict)
    : Result<MoneyPlan, PlanError>
    requires id in rows
  {
    if verdict.outcome.Mutual? then
      if verdict.refundAmount.Some? then Err(AmountWithMutual) else Ok(Skip(MutualByDesign))
    else if verdict.refundAmount.Some? && !verdict.outcome.RefundClient? then
      Err(AmountWithoutRefund)
    else if payment.None? then
      Ok(Skip(NoLinkedPayment))
    else if SiblingClaims(rows, id, payment.value.id) then
      Ok(Skip(SiblingHoldsClaim))
    else if verdict.outcome.RefundClient? then
      PlanRefund(payment.value, verdict.refundAmount)
    else
      Ok(PlanRelease(payment.value))
  }

  /** What `findOne` shows the admin under `moneyOptions`. */
  datatype MoneyOptions = MoneyOptions(canRefund: bool, canRelease: bool, refundable: int, releasable: int)

  /** `planRefund` without the throw. */
  function PlanRefundSafely(payment: Payment): MoneyPlan {
    match PlanRefund(payment, None)
    case Ok(plan) => plan
    case Err(_) => Skip(NotRefundable)
  }

  /** `describeMoneyOptions`; the siblings are the other disputes of the booking. */
  function DescribeMoneyOptions(payment: Option<Payment>, siblings: set<Dispute>): MoneyOptions {
    if payment.None? then
      MoneyOptions(false, false, 0, 0)
    else if exists s :: s in siblings && s.Claims(payment.value.id) then
      MoneyOptions(false, false, 0, 0)
    else
      var refund := PlanRefundSafely(payment.value);
      var release := PlanRelease(payment.value);
      MoneyOptions(refund.action == Refund, release.action == Release, refund.amount.GetOr(0), release.amount.GetOr(0))
  }

  function Siblings(rows: Rows, id: nat): set<Dispute>
    requires id in rows
  {
    set other | other in rows && other != id && rows[other].bookingId == rows[id].bookingId :: rows[other]
  }

  /** The verdict the admin can pick without typing an amount. */
  function Plain(outcome: Outcome, resolution: string): Verdict {
    Verdict(outcome, resolution, None, None)
  }

  lemma SiblingGuardAgrees(rows: Rows, id: nat, payment: nat)
    requires id in rows
    ensures SiblingClaims(rows, id, payment) <==> exists s :: s in Siblings(rows, id) && s.Claims(payment)
  {
    if SiblingClaims(rows, id, payment) {
      var other :| other in rows && other != id
                   && rows[other].bookingId == rows[id].bookingId && rows[other].Claims(payment);
      assert rows[other] in Siblings(rows, id);
    }
  }

  /** What the admin is shown is what a ruling would do, in every state of the rows and the payment. */
  lemma OptionsMatchPlan(rows: Rows, id: nat, payment: Option<Payment>, resolution: string)
    requires id in rows
    ensures var shown := DescribeMoneyOptions(payment, Siblings(rows, id));
            var refund := PlanMoneyAction(rows, id, payment, Plain(RefundClient, resolution));
            var release := PlanMoneyAction(rows, id, payment, Plain(ReleaseArtisan, resolution));
            && refund.Ok? && release.Ok?
            && (shown.canRefund <==> refund.value.action == Refund)
            && (shown.canRelease <==> release.value.action == Release)
            && shown.refundable == (if refund.value.MovesMoney() then refund.value.amount.GetOr(0) else 0)
            && shown.releasable == (if release.value.MovesMoney() then release.value.amount.GetOr(0) else 0)
  {
    if payment.Some? {
      SiblingGuardAgrees(rows, id, payment.value.id);
    }
  }

  /** A typed amount is taken exactly when the shown balance covers it, and is then the amount moved. */
  lemma PartialRefundFitsShown(rows: Rows, id: nat, payment: Option<Payment>, verdict: Verdict)
    requires id in rows
    requires verdict.outcome.RefundClient? && verdict.refundAmount.Some?
    ensures var shown := DescribeMoneyOptions(payment, Siblings(rows, id));
            var plan := PlanMoneyAction(rows, id, payment, verdict);
            && (plan.Err? <==> shown.canRefund && verdict.refundAmount.value > shown.refundable)
            && (plan.Ok? && plan.value.MovesMoney() <==>
                shown.canRefund && verdict.refundAmount.value <= shown.refundable)
            && (plan.Ok? && plan.value.MovesMoney() ==>
                plan.value.amount == verdict.refundAmount && plan.value.amount.value <= payment.value.Remaining())
  {
    if payment.Some? {
      SiblingGuardAgrees(rows, id, payment.value.id);
    }
  }

  /** A plan moves money on the linked payment, or says why it moves none; it is never silent. */
  lemma PlanNeverSilent(rows: Rows, id: nat, payment: Option<Payment>, verdict: Verdict)
    requires id in rows
    ensures var plan := PlanMoneyAction(rows, id, payment, verdict);
            plan.Ok? ==>
              && (plan.value.action == NoMoney <==> plan.value.skipped.Some?)
              && (plan.value.action != NoMoney ==>
                  && payment.Some? && plan.value.paymentId == Some(payment.value.id) && plan.value.amount.Some?
                  && !SiblingClaims(rows, id, payment.value.id))
              && (plan.value.action == Release ==> plan.value.amount == Some(payment.value.artisanAmount))
              && (plan.value.action == Refund <==> plan.value.MovesMoney() && verdict.outcome.RefundClient?)
  {
  }
}

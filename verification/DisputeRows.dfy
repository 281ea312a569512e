/**
 * The dispute row, and what each single SQL statement of
 * src/disputes/disputes.service.ts writes to it.
 */
module DisputeRows {
  import opened Wrappers

  datatype Status = Open | UnderReview | Resolved | Closed

  datatype Outcome = RefundClient | ReleaseArtisan | Mutual

  datatype MoneyAction = NoMoney | Refund | Release

  datatype Dispute = Dispute(
    bookingId: nat,
    raisedById: nat,
    createdAt: int,
    status: Status,
    outcome: Option<Outcome>,
    resolution: Option<string>,
    adminNotes: Option<string>,
    resolvedById: Option<nat>,
    resolvedAt: Option<int>,
    moneyAction: Option<MoneyAction>,
    moneyAmount: Option<int>,
    moneyPaymentId: Option<nat>,
    response: Option<string>,
    respondedById: Option<nat>,
    respondedAt: Option<int>)
  {
    /** ACTIVE_STATUSES: the dispute still counts as open work. */
    predicate Active() {
      status.Open? || status.UnderReview?
    }

    /** The row is an entry of the partial unique index, under this payment. */
    predicate Claims(payment: nat) {
      moneyPaymentId == Some(payment) && moneyAction.Some? && moneyAction.value != NoMoney
    }

    /** No column that a ruling writes holds anything. */
    predicate Unruled() {
      && outcome.None? && resolution.None? && adminNotes.None?
      && resolvedById.None? && resolvedAt.None?
      && moneyAction.None? && moneyAmount.None? && moneyPaymentId.None?
    }
  }

  /** ResolveDisputeDto; amounts are in pesewas. */
  datatype Verdict = Verdict(outcome: Outcome, resolution: string, adminNotes: Option<string>, refundAmount: Option<int>)

  /** Why a verdict moves no money. */
  datatype SkipReason =
    | MutualByDesign
    | NoLinkedPayment
    | SiblingHoldsClaim
    | SiblingClaimedFirst
    | NotRefundable
    | FullyRefunded
    | AlreadyReleased
    | PayoutInitiated
    | NothingWithheld

  datatype MoneyPlan = MoneyPlan(
    action: MoneyAction, paymentId: Option<nat>, amount: Option<int>, skipped: Option<SkipReason>)
  {
    /** The test `claimForRuling` makes. */
    predicate MovesMoney() {
      action != NoMoney && paymentId.Some?
    }

    /** The test `moveClaimedMoney` makes; a payment id of 0 is falsy. */
    predicate CallsProvider() {
      action != NoMoney && paymentId.Some? && paymentId.value != 0
    }
  }

  /** The plan put in place of one whose payment a sibling claimed first. */
  const DEGRADED := MoneyPlan(NoMoney, None, None, Some(SiblingClaimedFirst))

  /** A completed movement, as `moveClaimedMoney` reports it. */
  datatype Moved = Moved(action: MoneyAction, amount: int, paymentId: nat)

  /** The columns `resolve` captures when it loads the row, for the rollback. */
  datatype Previous = Previous(
    status: Status, outcome: Option<Outcome>, resolution: Option<string>, adminNotes: Option<string>)

  function Capture(d: Dispute): Previous {
    Previous(d.status, d.outcome, d.resolution, d.adminNotes)
  }

  function NewDispute(bookingId: nat, userId: nat, now: int): Dispute {
    Dispute(bookingId, userId, now, Open,
            None, None, None, None, None, None, None, None, None, None, None)
  }

  /** The SET list of `claimForRuling`. */
  function ClaimedRow(d: Dispute, admin: nat, now: int, verdict: Verdict, plan: MoneyPlan): Dispute {
    d.(status := Resolved,
       outcome := Some(verdict.outcome),
       resolution := Some(verdict.resolution),
       resolvedById := Some(admin),
       resolvedAt := Some(now),
       adminNotes := if Truthy(verdict.adminNotes) then verdict.adminNotes else d.adminNotes,
       moneyAction := if plan.MovesMoney() then Some(plan.action) else None,
       moneyPaymentId := if plan.MovesMoney() then plan.paymentId else None,
       moneyAmount := None)
  }

  /** The SET list of the rollback in `moveClaimedMoney`. */
  function RolledBackRow(d: Dispute, previous: Previous): Dispute {
    d.(status := previous.status,
       outcome := previous.outcome,
       resolution := previous.resolution,
       adminNotes := previous.adminNotes,
       resolvedById := None,
       resolvedAt := None,
       moneyAction := None,
       moneyAmount := None,
       moneyPaymentId := None)
  }

  /** The SET list of `recordMoneyResult`. */
  function RecordedRow(d: Dispute, moved: Option<Moved>): Dispute {
    match moved
    case Some(m) =>
      d.(moneyAction := Some(m.action), moneyAmount := Some(m.amount), moneyPaymentId := Some(m.paymentId))
    case None =>
      d.(moneyAction := Some(NoMoney), moneyAmount := None, moneyPaymentId := None)
  }

  /** The SET list of `close`. */
  function ClosedRow(d: Dispute, admin: nat, now: int, notes: Option<string>): Dispute {
    d.(status := Closed,
       resolvedById := Some(admin),
       resolvedAt := Some(now),
       adminNotes := if Truthy(notes) then notes else d.adminNotes)
  }

  /** The SET list of `respond`. */
  function RespondedRow(d: Dispute, user: nat, text: string, now: int): Dispute {
    d.(response := Some(text), respondedById := Some(user), respondedAt := Some(now))
  }

  type Rows = map<nat, Dispute>

  /** `uq_disputes_money_payment`: one claiming row a payment. */
  ghost predicate IndexHolds(rows: Rows) {
    forall i, j, p: nat {:trigger rows[i].Claims(p), rows[j].Claims(p)} ::
      i in rows && j in rows && rows[i].Claims(p) && rows[j].Claims(p) ==> i == j
  }

  /** Writing a claim of `payment` to row `id` would violate the index. */
  predicate ClaimedElsewhere(rows: Rows, id: nat, payment: nat) {
    exists other :: other in rows && other != id && rows[other].Claims(payment)
  }
}

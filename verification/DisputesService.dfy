/** The service methods themselves, run without interference: each ties the table after the call to the table before. */
module DisputesService {
  import opened Wrappers
  import opened DisputeRows
  import opened DisputeMoney
  import opened DisputeProtocol
  import opened DisputeSafety

  datatype ClaimResult = ClaimWon | LostToAnotherRuling | PaymentClaimedBySibling

  datatype ResolveError =
    | DisputeNotFound
    | AlreadySettled(status: Status)
    | AmountRejected(why: PlanError)
    | LostRace
    | ProviderDeclined(settledMeanwhile: bool)

  datatype RaiseError = BookingNotFound | NotAParticipant | NotDisputable | AlreadyRaised

  datatype PartyError = NotAParty | RaiserCannotRespond | NoLongerOpen(status: Status) | AlreadyResponded | ChangedMeanwhile

  /** The plan `resolve` ends up with: nothing moves when another row turns out to hold the payment. */
  function EffectivePlan(rows: Rows, id: nat, plan: MoneyPlan): MoneyPlan {
    if plan.MovesMoney() && ClaimedElsewhere(rows, id, plan.paymentId.value) then DEGRADED else plan
  }

  /** The first reason against filing, if there is one. */
  function RaiseRefusal(
    rows: Rows, parties: map<nat, (nat, nat)>, finished: set<nat>, bookingId: nat, user: nat): Option<RaiseError>
  {
    if bookingId !in parties then Some(BookingNotFound)
    else if !IsParty(parties, bookingId, user) then Some(NotAParticipant)
    else if bookingId !in finished then Some(NotDisputable)
    else if exists d :: d in rows.Values && d.bookingId == bookingId && d.raisedById == user then Some(AlreadyRaised)
    else None
  }

  class Service {
    var rows: Rows
    var payments: map<nat, Payment>
    var linked: map<nat, nat>
    /** Customer and artisan of each booking, and the bookings that are COMPLETED or CANCELLED. */
    var parties: map<nat, (nat, nat)>
    var finished: set<nat>
    ghost var ledger: seq<Movement>

    ghost predicate Valid()
      reads this
    {
      && IndexHolds(rows)
      && (forall id :: id in rows ==> RowOk(rows[id]))
      && (forall p :: p in payments ==> payments[p].id == p)
    }

    function Linked(id: nat): Option<Payment>
      requires id in rows
      reads this
    {
      var bookingId := rows[id].bookingId;
      if bookingId in linked && linked[bookingId] in payments then Some(payments[linked[bookingId]]) else None
    }

    method Raise(id: nat, bookingId: nat, user: nat, now: int) returns (error: Option<RaiseError>)
      requires Valid() && id !in rows
      modifies this`rows
      ensures Valid()
      ensures error == RaiseRefusal(old(rows), parties, finished, bookingId, user)
      ensures rows == if error.None? then old(rows)[id := NewDispute(bookingId, user, now)] else old(rows)
    {
      if bookingId !in parties {
        return Some(BookingNotFound);
      }
      var (customer, artisan) := parties[bookingId];
      if user != customer && user != artisan {
        return Some(NotAParticipant);
      }
      if bookingId !in finished {
        return Some(NotDisputable);
      }
      if exists other :: other in rows && rows[other].bookingId == bookingId && rows[other].raisedById == user {
        ghost var other :| other in rows && rows[other].bookingId == bookingId && rows[other].raisedById == user;
        assert rows[other] in rows.Values;
        return Some(AlreadyRaised);
      }
      IndexKept(rows, id, NewDispute(bookingId, user, now));
      rows := rows[id := NewDispute(bookingId, user, now)];
      return None;
    }

    method StartReview(id: nat) returns (started: bool)
      requires Valid()
      modifies this`rows
      ensures Valid()
      ensures started <==> id in old(rows) && old(rows)[id].status.Open?
      ensures rows == if started then old(rows)[id := old(rows)[id].(status := UnderReview)] else old(rows)
    {
      started := id in rows && rows[id].status.Open?;
      if started {
        IndexKept(rows, id, rows[id].(status := UnderReview));
        rows := rows[id := rows[id].(status := UnderReview)];
      }
    }

    method Respond(id: nat, user: nat, text: string, now: int) returns (error: Option<PartyError>)
      requires Valid()
      modifies this`rows
      ensures Valid()
      ensures error.None? ==>
                && id in old(rows) && old(rows)[id].bookingId in parties
                && (user == parties[old(rows)[id].bookingId].0 || user == parties[old(rows)[id].bookingId].1)
                && user != old(rows)[id].raisedById
                && old(rows)[id].Active() && old(rows)[id].response.None?
                && rows == old(rows)[id := RespondedRow(old(rows)[id], user, text, now)]
      ensures error.Some? ==> rows == old(rows)
      ensures id in old(rows) && old(rows)[id].bookingId in parties
              && (user == parties[old(rows)[id].bookingId].0 || user == parties[old(rows)[id].bookingId].1)
              && user != old(rows)[id].raisedById && old(rows)[id].Active() && old(rows)[id].response.None?
              ==> error.None?
    {
      if id !in rows || rows[id].bookingId !in parties {
        return Some(NotAParty);
      }
      var d := rows[id];
      var (customer, artisan) := parties[d.bookingId];
      if user != customer && user != artisan {
        return Some(NotAParty);
      }
      if user == d.raisedById {
        return Some(RaiserCannotRespond);
      }
      if !d.Active() {
        return Some(NoLongerOpen(d.status));
      }
      if Truthy(d.response) {
        return Some(AlreadyResponded);
      }
      // The guard of the UPDATE; an empty response passes the check above but not this one.
      if d.response.Some? {
        return Some(ChangedMeanwhile);
      }
      IndexKept(rows, id, RespondedRow(d, user, text, now));
      rows := rows[id := RespondedRow(d, user, text, now)];
      return None;
    }

    method Close(id: nat, admin: nat, now: int, notes: Option<string>) returns (closed: bool)
      requires Valid()
      modifies this`rows
      ensures Valid()
      ensures closed <==> id in old(rows) && !old(rows)[id].status.Closed?
      ensures rows == if closed then old(rows)[id := ClosedRow(old(rows)[id], admin, now, notes)] else old(rows)
    {
      closed := id in rows && !rows[id].status.Closed?;
      if closed {
        assert RowOk(rows[id]);
        IndexKept(rows, id, ClosedRow(rows[id], admin, now, notes));
        rows := rows[id := ClosedRow(rows[id], admin, now, notes)];
      }
    }

    method ClaimForRuling(id: nat, admin: nat, now: int, verdict: Verdict, plan: MoneyPlan) returns (claim: ClaimResult)
      requires Valid() && id in rows
      modifies this`rows
      ensures Valid()
      ensures claim.LostToAnotherRuling? <==> !old(rows)[id].Active()
      ensures claim.PaymentClaimedBySibling? <==>
                old(rows)[id].Active() && plan.MovesMoney() && ClaimedElsewhere(old(rows), id, plan.paymentId.value)
      ensures rows == if claim.ClaimWon? then old(rows)[id := ClaimedRow(old(rows)[id], admin, now, verdict, plan)]
                      else old(rows)
    {
      if !rows[id].Active() {
        return LostToAnotherRuling;
      }
      // The unique index answers before anything is written.
      if plan.MovesMoney() && ClaimedElsewhere(rows, id, plan.paymentId.value) {
        return PaymentClaimedBySibling;
      }
      assert RowOk(rows[id]);
      var d := ClaimedRow(rows[id], admin, now, verdict, plan);
      ClaimKeepsIndex(rows, id, d, plan);
      rows := rows[id := d];
      return ClaimWon;
    }

    /** Step 3 of `resolve`; `accepts` is the provider's answer. */
    method MoveClaimedMoney(id: nat, admin: nat, plan: MoneyPlan, previous: Previous, accepts: bool)
      returns (r: Result<Option<Moved>, ResolveError>)
      requires Valid() && id in rows && PreviousOk(previous)
      modifies this`rows, this`ledger
      ensures Valid()
      ensures !plan.CallsProvider() ==> r == Ok(None) && rows == old(rows) && ledger == old(ledger)
      ensures plan.CallsProvider() ==> (r.Ok? <==> accepts && plan.paymentId.value in payments)
      ensures plan.CallsProvider() && r.Ok? ==>
                && rows == old(rows)
                && r.value == Some(Moved(plan.action, plan.amount.GetOr(0), plan.paymentId.value))
                && ledger == old(ledger) + [Movement(id, plan.paymentId.value, plan.action,
                     if plan.action == Refund then plan.amount.GetOr(0) else payments[plan.paymentId.value].artisanAmount)]
      ensures r.Err? ==>
                && ledger == old(ledger)
                && r == Err(ProviderDeclined(!(old(rows)[id].status.Resolved? && old(rows)[id].resolvedById == Some(admin))))
                && rows == if r.error.settledMeanwhile then old(rows) else old(rows)[id := RolledBackRow(old(rows)[id], previous)]
    {
      if !plan.CallsProvider() {
        return Ok(None);
      }
      if accepts && plan.paymentId.value in payments {
        var amount := if plan.action == Refund then plan.amount.GetOr(0) else payments[plan.paymentId.value].artisanAmount;
        ledger := ledger + [Movement(id, plan.paymentId.value, plan.action, amount)];
        return Ok(Some(Moved(plan.action, plan.amount.GetOr(0), plan.paymentId.value)));
      }
      var affected := rows[id].status.Resolved? && rows[id].resolvedById == Some(admin);
      if affected {
        IndexKept(rows, id, RolledBackRow(rows[id], previous));
        rows := rows[id := RolledBackRow(rows[id], previous)];
      }
      return Err(ProviderDeclined(!affected));
    }

    /** Step 4 of `resolve`; when the database refuses the write, that is logged and nothing else happens. */
    method RecordMoneyResult(id: nat, moved: Option<Moved>, accepted: bool)
      requires Valid() && id in rows && !rows[id].Active()
      requires moved.Some? ==> moved.value.action != NoMoney && rows[id].Claims(moved.value.paymentId)
      modifies this`rows
      ensures Valid()
      ensures rows == if accepted then old(rows)[id := RecordedRow(old(rows)[id], moved)] else old(rows)
    {
      assert RowOk(rows[id]);
      if accepted {
        IndexKept(rows, id, RecordedRow(rows[id], moved));
        rows := rows[id := RecordedRow(rows[id], moved)];
      }
    }

    /** Step 2 of `resolve`: when another row turns out to hold the payment, the verdict is claimed without money. */
    method ClaimForVerdict(id: nat, admin: nat, now: int, verdict: Verdict, planned: MoneyPlan)
      returns (claim: ClaimResult, plan: MoneyPlan)
      requires Valid() && id in rows && rows[id].Active()
      modifies this`rows
      ensures Valid() && claim.ClaimWon? && plan == EffectivePlan(old(rows), id, planned)
      ensures rows == old(rows)[id := ClaimedRow(old(rows)[id], admin, now, verdict, plan)]
    {
      plan := planned;
      claim := ClaimForRuling(id, admin, now, verdict, plan);
      if claim.PaymentClaimedBySibling? {
        plan := DEGRADED;
        claim := ClaimForRuling(id, admin, now, verdict, plan);
      }
    }

    /** Steps 3 and 4 of `resolve`, for the winner of the claim; `before` is the row as the claim found it. */
    method CarryOut(id: nat, admin: nat, now: int, verdict: Verdict, plan: MoneyPlan, before: Dispute, accepts: bool, recorded: bool)
      returns (r: Result<Option<Moved>, ResolveError>)
      requires Valid() && id in rows && RowOk(before) && before.Active()
      requires rows[id] == ClaimedRow(before, admin, now, verdict, plan)
      requires plan.CallsProvider() ==> plan.paymentId.value in payments
      modifies this`rows, this`ledger
      ensures Valid()
      ensures r == (if !plan.CallsProvider() then Ok(None)
                    else if accepts then Ok(Some(Moved(plan.action, plan.amount.GetOr(0), plan.paymentId.value)))
                    else Err(ProviderDeclined(false)))
      ensures r.Err? ==> rows == old(rows)[id := before] && ledger == old(ledger)
      ensures r.Ok? ==> rows == if recorded then old(rows)[id := RecordedRow(old(rows)[id], r.value)] else old(rows)
      ensures r.Ok? && r.value.None? ==> ledger == old(ledger)
      ensures r.Ok? && r.value.Some? ==>
                ledger == old(ledger) + [Movement(id, plan.paymentId.value, plan.action,
                  if plan.action == Refund then plan.amount.GetOr(0) else payments[plan.paymentId.value].artisanAmount)]
    {
      ClaimUndone(before, admin, now, verdict, plan);
      hide IndexHolds, RolledBackRow;
      r := MoveClaimedMoney(id, admin, plan, Capture(before), accepts);
      if r.Ok? {
        RecordMoneyResult(id, r.value, recorded);
      }
    }

    /**
     * The whole of `resolve`. A call that fails, for whatever reason, leaves the table as it was and
     * moves nothing; a call that succeeds settles its own row only, and moves exactly what it records. When
     * the record is lost, the claim on the payment stands and the amount is missing.
     */
    method Resolve(id: nat, admin: nat, now: int, verdict: Verdict, accepts: bool, recorded: bool)
      returns (r: Result<Option<Moved>, ResolveError>)
      requires Valid()
      modifies this`rows, this`ledger
      ensures Valid()
      ensures r.Err? ==> rows == old(rows) && ledger == old(ledger)
      ensures r.Ok? ==>
                && id in old(rows) && old(rows)[id].Active()
                && id in rows && rows == old(rows)[id := rows[id]]
                && rows[id].status.Resolved? && rows[id].outcome == Some(verdict.outcome)
                && rows[id].resolution == Some(verdict.resolution)
                && rows[id].resolvedById == Some(admin) && rows[id].resolvedAt == Some(now)
                && rows[id].response == old(rows)[id].response
      ensures r.Ok? && r.value.None? ==>
                && ledger == old(ledger) && rows[id].moneyAmount.None?
                && (recorded ==> rows[id].moneyAction == Some(NoMoney) && rows[id].moneyPaymentId.None?)
      ensures r.Ok? && r.value.Some? ==>
                && var m := Movement(id, r.value.value.paymentId, r.value.value.action, r.value.value.amount);
                && ledger == old(ledger) + [m]
                && rows[id].moneyAction == Some(m.action) && rows[id].moneyPaymentId == Some(m.payment)
                && rows[id].moneyAmount == (if recorded then Some(m.amount) else None)
                && !ClaimedElsewhere(rows, id, m.payment)
      ensures id !in old(rows) ==> r == Err(DisputeNotFound)
      ensures id in old(rows) && !old(rows)[id].Active() ==> r == Err(AlreadySettled(old(rows)[id].status))
      ensures id in old(rows) && old(rows)[id].Active() ==>
                match PlanMoneyAction(old(rows), id, old(Linked(id)), verdict)
                case Err(why) => r == Err(AmountRejected(why))
                case Ok(planned) =>
                  var plan := EffectivePlan(old(rows), id, planned);
                  if !plan.CallsProvider() then r == Ok(None)
                  else if accepts then r == Ok(Some(Moved(plan.action, plan.amount.GetOr(0), plan.paymentId.value)))
                  else r == Err(ProviderDeclined(false))
    {
      if id !in rows {
        return Err(DisputeNotFound);
      }
      var dispute := rows[id];
      if !dispute.Active() {
        return Err(AlreadySettled(dispute.status));
      }
      assert RowOk(dispute);
      var payment := Linked(id);
      PlanNeverSilent(rows, id, payment, verdict);
      var planned := PlanMoneyAction(rows, id, payment, verdict);
      if planned.Err? {
        return Err(AmountRejected(planned.error));
      }
      hide IndexHolds, ClaimedElsewhere;
      var claim, plan := ClaimForVerdict(id, admin, now, verdict, planned.value);
      if !claim.ClaimWon? {
        return Err(LostRace);
      }
      hide RowOk, PlanMoneyAction;
      r := CarryOut(id, admin, now, verdict, plan, dispute, accepts, recorded);
      if r.Ok? && r.value.Some? {
        ClaimOnlyElsewhere(old(rows), id, rows[id], r.value.value.paymentId);
      }
    }
  }

  lemma ClaimUndone(d: Dispute, admin: nat, now: int, verdict: Verdict, plan: MoneyPlan)
    requires RowOk(d) && d.Active()
    ensures RolledBackRow(ClaimedRow(d, admin, now, verdict, plan), Capture(d)) == d
  {
  }

  /** What other rows claim does not depend on this one. */
  lemma ClaimOnlyElsewhere(rows: Rows, id: nat, d: Dispute, payment: nat)
    ensures ClaimedElsewhere(rows[id := d], id, payment) == ClaimedElsewhere(rows, id, payment)
  {
    if ClaimedElsewhere(rows, id, payment) {
      var other :| other in rows && other != id && rows[other].Claims(payment);
      assert other in rows[id := d] && rows[id := d][other].Claims(payment);
    }
  }
}

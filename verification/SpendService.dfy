/**
 * The queries behind every figure of a customer's spending: the SpendService of
 * src/customer-insights/spend.util.ts. Amounts are in pesewas; `at` is the instant a payment is dated by.
 */
module SpendService {
  import opened Wrappers
  import opened PaymentRows
  import opened Seqs
  import opened Totals
  import opened Buckets
  import opened Calendar

  datatype Payment = Payment(
    customer: nat, status: PaymentStatus, at: int, amount: int, refunded: int,
    category: int, channel: Option<string>)

  predicate IsHeld(status: PaymentStatus) {
    status.Held? || status.PendingTransfer? || status.TransferFailed?
  }

  predicate IsCounted(status: PaymentStatus) {
    IsHeld(status) || status.Released? || status.Refunded?
  }

  function Net(p: Payment): int {
    p.amount - p.refunded
  }

  function Gross(p: Payment): int {
    p.amount
  }

  function RefundedOf(p: Payment): int {
    p.refunded
  }

  function ReleasedOf(p: Payment): int {
    if p.status.Released? then Net(p) else 0
  }

  function One(p: Payment): int {
    1
  }

  // ─── Which payments ────────────────────────────────────────────────────────────

  predicate CountsFor(p: Payment, me: nat) {
    p.customer == me && IsCounted(p.status)
  }

  /** The bounds of a query: the start is inclusive, the end is so unless `endExclusive`. */
  datatype Span = Span(from: Option<int>, to: Option<int>, endExclusive: bool)

  predicate InSpan(at: int, span: Span) {
    && (span.from.Some? ==> span.from.value <= at)
    && (span.to.Some? ==> if span.endExclusive then at < span.to.value else at <= span.to.value)
  }

  function Selected(me: nat, span: Span): Payment -> bool {
    (p: Payment) => CountsFor(p, me) && InSpan(p.at, span)
  }

  /** `counted`. */
  function Counted(payments: seq<Payment>, me: nat, span: Span): (paid: seq<Payment>)
    ensures forall p :: p in paid <==> p in payments && CountsFor(p, me) && InSpan(p.at, span)
  {
    Filter(Selected(me, span), payments)
  }

  function Within(from: Option<int>, to: int): Span {
    Span(from, Some(to), false)
  }

  function Ever(): Span {
    Span(None, None, false)
  }

  function HasPaymentsEver(payments: seq<Payment>, me: nat): bool {
    Counted(payments, me, Ever()) != []
  }

  function HeldCents(payments: seq<Payment>, me: nat): int {
    SumOf(Filter((p: Payment) => p.customer == me && IsHeld(p.status), payments), Net)
  }

  function Earliest(paid: seq<Payment>): (at: int)
    requires paid != []
    ensures forall p :: p in paid ==> at <= p.at
    ensures exists p :: p in paid && p.at == at
  {
    assert paid == [paid[0]] + paid[1..];
    if |paid| == 1 then
      assert paid[0] in paid;
      paid[0].at
    else
      var rest := Earliest(paid[1..]);
      assert paid[0] in paid;
      assert exists p :: p in paid && p.at == rest by {
        var p :| p in paid[1..] && p.at == rest;
        assert p in paid;
      }
      if paid[0].at <= rest then paid[0].at else rest
  }

  /** `firstPaymentDate`. */
  function FirstPaymentDate(payments: seq<Payment>, me: nat): Option<int> {
    var paid := Counted(payments, me, Ever());
    if paid == [] then None else Some(Earliest(paid))
  }

  // ─── Sums ──────────────────────────────────────────────────────────────────────

  datatype SpendTotals = SpendTotals(gross: int, refunded: int, net: int, released: int, count: int)

  function TotalsOf(payments: seq<Payment>, me: nat, span: Span): SpendTotals {
    var paid := Counted(payments, me, span);
    var gross, refunded := SumOf(paid, Gross), SumOf(paid, RefundedOf);
    SpendTotals(gross, refunded, gross - refunded, SumOf(paid, ReleasedOf), |paid|)
  }

  function NetCentsBetween(payments: seq<Payment>, me: nat, from: int, to: int): int {
    SumOf(Counted(payments, me, Span(Some(from), Some(to), true)), Net)
  }

  /** The bucket a payment is grouped under: `date_trunc` of its date. */
  function KeyOf(starts: int -> int): Payment -> int
    requires Increasing(starts)
  {
    (p: Payment) => BucketStart(starts, DayOf(p.at))
  }

  datatype BucketNet = BucketNet(cents: int, count: int)

  /** `netByBucket`: one entry for each bucket that has a payment. */
  function NetByBucket(payments: seq<Payment>, me: nat, starts: int -> int, span: Span): map<int, BucketNet>
    requires Increasing(starts)
  {
    var paid, key := Counted(payments, me, span), KeyOf(starts);
    map b | b in (set p | p in paid :: key(p)) :: BucketNet(SumAt(paid, key, Net, b), SumAt(paid, key, One, b))
  }

  /** What the report reads for a bucket, with nothing where there is no entry. */
  function Hit(found: map<int, BucketNet>, bucket: int): BucketNet {
    if bucket in found then found[bucket] else BucketNet(0, 0)
  }

  lemma HitIsSum(payments: seq<Payment>, me: nat, starts: int -> int, span: Span, b: int)
    requires Increasing(starts)
    ensures var paid, key := Counted(payments, me, span), KeyOf(starts);
            Hit(NetByBucket(payments, me, starts, span), b) == BucketNet(SumAt(paid, key, Net, b), SumAt(paid, key, One, b))
  {
    var paid, key := Counted(payments, me, span), KeyOf(starts);
    if b !in NetByBucket(payments, me, starts, span) {
      assert forall p :: p in paid ==> key(p) in (set p | p in paid :: key(p));
      SumAtNone(paid, key, Net, b);
      SumAtNone(paid, key, One, b);
    }
  }

  lemma {:induction false} NetIsDifference(paid: seq<Payment>)
    ensures SumOf(paid, Net) == SumOf(paid, Gross) - SumOf(paid, RefundedOf)
    ensures SumOf(paid, One) == |paid|
  {
    if paid != [] {
      NetIsDifference(paid[1..]);
    }
  }

  /** Two spans that meet take each payment exactly once. */
  lemma {:induction false} SpansJoin(payments: seq<Payment>, me: nat, a: int, b: int, to: int, weight: Payment -> int)
    requires a <= b <= to
    ensures SumOf(Counted(payments, me, Within(Some(a), to)), weight)
            == SumOf(Counted(payments, me, Span(Some(a), Some(b), true)), weight)
               + SumOf(Counted(payments, me, Within(Some(b), to)), weight)
  {
    if payments != [] {
      SpansJoin(payments[1..], me, a, b, to, weight);
      SumOfFilter(Selected(me, Within(Some(a), to)), payments, weight);
      SumOfFilter(Selected(me, Span(Some(a), Some(b), true)), payments, weight);
      SumOfFilter(Selected(me, Within(Some(b), to)), payments, weight);
    }
  }
}

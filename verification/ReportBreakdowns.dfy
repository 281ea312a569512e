/** The breakdowns split the same payments as the totals of the report, so they add up to the same money. */
module ReportBreakdowns {
  import opened Wrappers
  import opened Totals
  import opened SpendService
  import opened Breakdown
  import opened Channels

  function CategoryOf(p: Payment): int {
    p.category
  }

  function ChannelOf(p: Payment): Option<string> {
    p.channel
  }

  /** `GROUP BY` over the counted payments: `rows` has one row for each of the `keys`. */
  ghost predicate Groups<R, K>(
      rows: seq<R>, keys: seq<K>, paid: seq<Payment>, key: Payment -> K, cents: R -> int, count: R -> int)
  {
    && |rows| == |keys|
    && (forall i, j :: 0 <= i < j < |keys| ==> keys[i] != keys[j])
    && (forall p :: p in paid ==> key(p) in keys)
    && (forall i :: 0 <= i < |rows| ==> cents(rows[i]) == SumAt(paid, key, Net, keys[i]))
    && (forall i :: 0 <= i < |rows| ==> count(rows[i]) == SumAt(paid, key, One, keys[i]))
  }

  lemma GroupsAddUp<R, K>(
      payments: seq<Payment>, me: nat, span: Span,
      rows: seq<R>, keys: seq<K>, key: Payment -> K, cents: R -> int, count: R -> int)
    requires Groups(rows, keys, Counted(payments, me, span), key, cents, count)
    ensures SumOf(rows, cents) == TotalsOf(payments, me, span).net
    ensures SumOf(rows, count) == TotalsOf(payments, me, span).count
  {
    var paid := Counted(payments, me, span);
    GroupedRowsAddUp(rows, keys, paid, key, Net, cents);
    GroupedRowsAddUp(rows, keys, paid, key, One, count);
    Regroup(keys, paid, key, Net);
    Regroup(keys, paid, key, One);
    NetIsDifference(paid);
  }

  /** `byCategory` and `byChannel` of one report hold its net spend and its payments, and shares of the whole. */
  method Breakdowns(
      payments: seq<Payment>, me: nat, span: Span,
      categories: seq<CategoryRow>, ghost services: seq<int>,
      channels: seq<ChannelRow>, ghost methodsUsed: seq<Option<string>>)
    returns (byCategory: seq<Printed>, byChannel: seq<Printed>)
    requires Groups(categories, services, Counted(payments, me, span), CategoryOf, CategoryCents, CategoryCount)
    requires Groups(channels, methodsUsed, Counted(payments, me, span), ChannelOf, RowCents, RowCount)
    ensures SumOf(byCategory, PrintedCents) == SumOf(byChannel, PrintedCents) == TotalsOf(payments, me, span).net
    ensures SumOf(byCategory, PrintedCount) == SumOf(byChannel, PrintedCount) == TotalsOf(payments, me, span).count
    ensures TotalsOf(payments, me, span).net > 0 ==>
              && -|byCategory| <= 2 * (SumOf(byCategory, PrintedShare) - 1000) <= |byCategory| <= 7
              && -|byChannel| <= 2 * (SumOf(byChannel, PrintedShare) - 1000) <= |byChannel| <= 4
  {
    var total := TotalsOf(payments, me, span).net;
    GroupsAddUp(payments, me, span, categories, services, CategoryOf, CategoryCents, CategoryCount);
    GroupsAddUp(payments, me, span, channels, methodsUsed, ChannelOf, RowCents, RowCount);
    ghost var named, rest, groups, shown;
    byCategory, named, rest := MapCategories(categories, total);
    byChannel, groups, shown := MapChannels(channels, total);
  }
}

/** The breakdowns of the report: `mapCategories` and `mapChannels` of src/customer-insights/customer-analytics.service.ts. */
module Breakdown {
  import opened Wrappers
  import opened Seqs
  import opened Totals
  import opened Money

  // ─── The order of names ────────────────────────────────────────────────────────

  predicate TextLeq(a: string, b: string) {
    if a == "" then true
    else if b == "" then false
    else if a[0] != b[0] then a[0] < b[0]
    else TextLeq(a[1..], b[1..])
  }

  lemma {:induction false} TextTotal(a: string, b: string)
    ensures TextLeq(a, b) || TextLeq(b, a)
  {
    if a != "" && b != "" && a[0] == b[0] {
      TextTotal(a[1..], b[1..]);
    }
  }

  lemma {:induction false} TextTransitive(a: string, b: string, c: string)
    requires TextLeq(a, b) && TextLeq(b, c)
    ensures TextLeq(a, c)
  {
    if a != "" && a[0] == b[0] && b[0] == c[0] {
      TextTransitive(a[1..], b[1..], c[1..]);
    }
  }

  /** Larger amounts first, then by name. */
  datatype Line = Line(id: Option<nat>, name: string, cents: int, count: int)

  predicate Before(a: Line, b: Line) {
    a.cents > b.cents || (a.cents == b.cents && TextLeq(a.name, b.name))
  }

  lemma BeforeIsOrder()
    ensures TotalPreorder(Before)
  {
    forall a: Line, b: Line ensures Before(a, b) || Before(b, a) {
      TextTotal(a.name, b.name);
    }
    forall a: Line, b: Line, c: Line | Before(a, b) && Before(b, c) ensures Before(a, c) {
      if a.cents == b.cents == c.cents {
        TextTransitive(a.name, b.name, c.name);
      }
    }
  }

  function Cents(line: Line): int {
    line.cents
  }

  function Count(line: Line): int {
    line.count
  }

  // ─── What is printed ───────────────────────────────────────────────────────────

  /** One line of the response; the share is in thousandths. */
  datatype Printed = Printed(id: Option<nat>, name: string, netSpent: string, count: int, share: int)

  function PrintedCents(p: Printed): int {
    ToCents(p.netSpent)
  }

  function PrintedCount(p: Printed): int {
    p.count
  }

  function PrintedShare(p: Printed): int {
    p.share
  }

  function Print(line: Line, totalCents: int): Printed {
    Printed(line.id, line.name, CentsToMoney(line.cents), line.count, ShareOf(line.cents, totalCents))
  }

  function PrintAll(lines: seq<Line>, totalCents: int): (out: seq<Printed>)
    ensures |out| == |lines| && forall i :: 0 <= i < |lines| ==> out[i] == Print(lines[i], totalCents)
  {
    if lines == [] then [] else [Print(lines[0], totalCents)] + PrintAll(lines[1..], totalCents)
  }

  /** Printing loses nothing: read back, the lines hold the same amounts, counts and shares. */
  lemma {:induction false} PrintKeeps(lines: seq<Line>, totalCents: int)
    ensures var out := PrintAll(lines, totalCents);
            && SumOf(out, PrintedCents) == SumOf(lines, Cents)
            && SumOf(out, PrintedCount) == SumOf(lines, Count)
            && (forall p :: p in out ==> PrintedShare(p) == ShareOf(PrintedCents(p), totalCents))
  {
    var out := PrintAll(lines, totalCents);
    if lines != [] {
      MoneyRoundTrip(lines[0].cents);
      PrintKeeps(lines[1..], totalCents);
      assert out[1..] == PrintAll(lines[1..], totalCents);
      assert out == [out[0]] + out[1..];
    }
  }

  /** What every breakdown promises about the rows it was given. */
  ghost predicate Conserves<R>(out: seq<Printed>, rows: seq<R>, cents: R -> int, count: R -> int, totalCents: int) {
    && SumOf(out, PrintedCents) == SumOf(rows, cents)
    && SumOf(out, PrintedCount) == SumOf(rows, count)
    && (totalCents > 0 && SumOf(rows, cents) == totalCents ==>
          -|out| <= 2 * (SumOf(out, PrintedShare) - 1000) <= |out|)
    && (totalCents == 0 ==> forall p :: p in out ==> p.share == 0)
  }

  lemma PrintConserves<R>(lines: seq<Line>, rows: seq<R>, cents: R -> int, count: R -> int, totalCents: int)
    requires SumOf(lines, Cents) == SumOf(rows, cents) && SumOf(lines, Count) == SumOf(rows, count)
    ensures Conserves(PrintAll(lines, totalCents), rows, cents, count, totalCents)
  {
    PrintKeeps(lines, totalCents);
    var out := PrintAll(lines, totalCents);
    if totalCents > 0 && SumOf(rows, cents) == totalCents {
      SharesAddUp(out, PrintedCents, PrintedShare, totalCents);
    }
  }

  // ─── Categories ────────────────────────────────────────────────────────────────

  const TOP_CATEGORIES := 6

  datatype CategoryRow = CategoryRow(serviceId: Option<nat>, serviceName: Option<string>, net: string, count: int)

  function CategoryCents(row: CategoryRow): int {
    ToCents(row.net)
  }

  function CategoryCount(row: CategoryRow): int {
    row.count
  }

  function CategoryLine(row: CategoryRow): Line {
    Line(row.serviceId, row.serviceName.GetOr("Other"), ToCents(row.net), row.count)
  }

  function CategoryLines(rows: seq<CategoryRow>): (lines: seq<Line>)
    ensures |lines| == |rows| && forall i :: 0 <= i < |rows| ==> lines[i] == CategoryLine(rows[i])
  {
    if rows == [] then [] else [CategoryLine(rows[0])] + CategoryLines(rows[1..])
  }

  lemma {:induction false} CategoryLinesKeep(rows: seq<CategoryRow>)
    ensures SumOf(CategoryLines(rows), Cents) == SumOf(rows, CategoryCents)
    ensures SumOf(CategoryLines(rows), Count) == SumOf(rows, CategoryCount)
  {
    if rows != [] {
      CategoryLinesKeep(rows[1..]);
      assert CategoryLines(rows)[1..] == CategoryLines(rows[1..]);
    }
  }

  lemma TopAndRest(items: seq<Line>, k: nat)
    requires k <= |items|
    ensures SumOf(items, Cents) == SumOf(items[..k], Cents) + SumOf(items[k..], Cents)
    ensures SumOf(items, Count) == SumOf(items[..k], Count) + SumOf(items[k..], Count)
  {
    assert items == items[..k] + items[k..];
    SumOfJoin(items[..k], items[k..], Cents);
    SumOfJoin(items[..k], items[k..], Count);
  }

  /**
   * `mapCategories`: the six largest are named, in order, and one "Other" holds the rest. `named` and
   * `rest` are how the rows were divided.
   */
  method MapCategories(rows: seq<CategoryRow>, totalCents: int)
    returns (out: seq<Printed>, ghost named: seq<Line>, ghost rest: seq<Line>)
    ensures multiset(named) + multiset(rest) == multiset(CategoryLines(rows))
    ensures SortedBy(Before, named) && forall a, b :: a in named && b in rest ==> Before(a, b)
    ensures |named| == if |rows| < TOP_CATEGORIES then |rows| else TOP_CATEGORIES
    ensures |out| == |named| + (if rest == [] then 0 else 1)
    ensures forall i :: 0 <= i < |named| ==> out[i] == Print(named[i], totalCents)
    ensures rest != [] ==>
              out[|named|] == Print(Line(None, "Other", SumOf(rest, Cents), SumOf(rest, Count)), totalCents)
    ensures Conserves(out, rows, CategoryCents, CategoryCount, totalCents)
  {
    hide Before, Sort, CategoryLines, SumOf, Print, Conserves;
    BeforeIsOrder();
    var items := Sort(Before, CategoryLines(rows));
    SortKeepsElements(Before, CategoryLines(rows));
    var k := if |items| < TOP_CATEGORIES then |items| else TOP_CATEGORIES;
    var top, others := items[..k], items[k..];
    named, rest := top, others;
    assert items == top + others;
    if others != [] {
      top := top + [OtherLine(others)];
    }
    out := PrintAll(top, totalCents);
    FoldedKeeps(rows, items, k);
    PrintConserves(top, rows, CategoryCents, CategoryCount, totalCents);
  }

  function OtherLine(others: seq<Line>): Line {
    Line(None, "Other", SumOf(others, Cents), SumOf(others, Count))
  }

  function Folded(items: seq<Line>, k: nat): seq<Line>
    requires k <= |items|
  {
    if items[k..] == [] then items[..k] else items[..k] + [OtherLine(items[k..])]
  }

  /** Folding the tail of the sorted list into one line keeps the sums of the rows. */
  lemma FoldedKeeps(rows: seq<CategoryRow>, items: seq<Line>, k: nat)
    requires multiset(items) == multiset(CategoryLines(rows)) && k <= |items|
    ensures SumOf(Folded(items, k), Cents) == SumOf(rows, CategoryCents)
    ensures SumOf(Folded(items, k), Count) == SumOf(rows, CategoryCount)
  {
    CategoryLinesKeep(rows);
    SumOfPermutation(items, CategoryLines(rows), Cents);
    SumOfPermutation(items, CategoryLines(rows), Count);
    TopAndRest(items, k);
    if items[k..] != [] {
      SumOfJoin(items[..k], [OtherLine(items[k..])], Cents);
      SumOfJoin(items[..k], [OtherLine(items[k..])], Count);
    }
  }
}

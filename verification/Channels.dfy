/** The payment methods of the report: `channelGroup` and `mapChannels`. */
module Channels {
  import opened Wrappers
  import opened Seqs
  import opened Totals
  import opened Money
  import opened Breakdown

  datatype ChannelGroup = MobileMoney | Card | Bank | Other

  function NameOf(group: ChannelGroup): string {
    match group
    case MobileMoney => "mobile_money"
    case Card => "card"
    case Bank => "bank"
    case Other => "other"
  }

  function Lower(c: char): char {
    if 'A' <= c <= 'Z' then c + ' ' else c
  }

  /** `toLowerCase`, for the letters A to Z. */
  function LowerCase(text: string): (low: string)
    ensures |low| == |text| && forall i :: 0 <= i < |text| ==> low[i] == Lower(text[i])
  {
    if text == "" then "" else [Lower(text[0])] + LowerCase(text[1..])
  }

  function ChannelGroupOf(channel: Option<string>): ChannelGroup {
    var low := LowerCase(channel.GetOr(""));
    if low == "mobile_money" then MobileMoney
    else if low == "card" then Card
    else if low == "bank" || low == "bank_transfer" then Bank
    else Other
  }

  /** Folding twice changes nothing, so the four names are the whole vocabulary of the response. */
  lemma GroupNamesAreFixed(channel: Option<string>)
    ensures ChannelGroupOf(Some(NameOf(ChannelGroupOf(channel)))) == ChannelGroupOf(channel)
    ensures LowerCase(NameOf(ChannelGroupOf(channel))) == NameOf(ChannelGroupOf(channel))
  {
    var name := NameOf(ChannelGroupOf(channel));
    assert forall i :: 0 <= i < |name| ==> Lower(name[i]) == name[i];
    assert LowerCase(name) == name;
  }

  datatype ChannelRow = ChannelRow(channel: Option<string>, net: string, count: int)

  function RowCents(row: ChannelRow): int {
    ToCents(row.net)
  }

  function RowCount(row: ChannelRow): int {
    row.count
  }

  function RowGroup(row: ChannelRow): ChannelGroup {
    ChannelGroupOf(row.channel)
  }

  /** An entry of the map the loop fills. */
  datatype Entry = Entry(group: ChannelGroup, cents: int, count: int)

  function EntryGroup(e: Entry): ChannelGroup {
    e.group
  }

  function EntryCents(e: Entry): int {
    e.cents
  }

  function EntryCount(e: Entry): int {
    e.count
  }

  ghost predicate OnePerGroup(entries: seq<Entry>) {
    forall i, j :: 0 <= i < j < |entries| ==> entries[i].group != entries[j].group
  }

  /** Where the map holds the group, or its size if it does not. */
  function PlaceOf(entries: seq<Entry>, group: ChannelGroup): (i: nat)
    ensures i <= |entries|
    ensures i < |entries| ==> entries[i].group == group
    ensures forall j :: 0 <= j < i ==> entries[j].group != group
  {
    if entries == [] || entries[0].group == group then 0 else 1 + PlaceOf(entries[1..], group)
  }

  /** `groups.get(g) ?? zero`, changed and put back: in place, or as the newest entry. */
  function Put(entries: seq<Entry>, group: ChannelGroup, cents: int, count: int): (more: seq<Entry>)
    requires OnePerGroup(entries)
    ensures OnePerGroup(more)
  {
    var i := PlaceOf(entries, group);
    if i < |entries| then entries[i := Entry(group, entries[i].cents + cents, entries[i].count + count)]
    else entries + [Entry(group, cents, count)]
  }

  lemma PutAdds(entries: seq<Entry>, group: ChannelGroup, cents: int, count: int, g: ChannelGroup)
    requires OnePerGroup(entries)
    ensures var more := Put(entries, group, cents, count);
            && SumAt(more, EntryGroup, EntryCents, g) == SumAt(entries, EntryGroup, EntryCents, g) + (if g == group then cents else 0)
            && SumAt(more, EntryGroup, EntryCount, g) == SumAt(entries, EntryGroup, EntryCount, g) + (if g == group then count else 0)
  {
    var i := PlaceOf(entries, group);
    if i < |entries| {
      var e := Entry(group, entries[i].cents + cents, entries[i].count + count);
      SumAtReplace(entries, i, e, EntryGroup, EntryCents, g);
      SumAtReplace(entries, i, e, EntryGroup, EntryCount, g);
    } else {
      SumAtPush(entries, Entry(group, cents, count), EntryGroup, EntryCents, g);
      SumAtPush(entries, Entry(group, cents, count), EntryGroup, EntryCount, g);
    }
  }

  ghost predicate SameSums(entries: seq<Entry>, rows: seq<ChannelRow>, g: ChannelGroup) {
    && SumAt(entries, EntryGroup, EntryCents, g) == SumAt(rows, RowGroup, RowCents, g)
    && SumAt(entries, EntryGroup, EntryCount, g) == SumAt(rows, RowGroup, RowCount, g)
  }

  /** The entries hold, group by group, what the rows hold. */
  ghost predicate Folds(entries: seq<Entry>, rows: seq<ChannelRow>) {
    && OnePerGroup(entries)
    && (forall e :: e in entries ==> exists r :: r in rows && RowGroup(r) == e.group)
    && (forall r :: r in rows ==> exists e :: e in entries && e.group == RowGroup(r))
    && (forall g :: SameSums(entries, rows, g))
  }

  lemma FoldStep(entries: seq<Entry>, before: seq<ChannelRow>, row: ChannelRow)
    requires Folds(entries, before)
    ensures Folds(Put(entries, RowGroup(row), RowCents(row), RowCount(row)), before + [row])
  {
    forall g ensures SameSums(Put(entries, RowGroup(row), RowCents(row), RowCount(row)), before + [row], g) {
      FoldSums(entries, before, row, g);
    }
    FoldGroups(entries, before, row);
  }

  lemma FoldSums(entries: seq<Entry>, before: seq<ChannelRow>, row: ChannelRow, g: ChannelGroup)
    requires OnePerGroup(entries) && SameSums(entries, before, g)
    ensures SameSums(Put(entries, RowGroup(row), RowCents(row), RowCount(row)), before + [row], g)
  {
    PutAdds(entries, RowGroup(row), RowCents(row), RowCount(row), g);
    SumAtPush(before, row, RowGroup, RowCents, g);
    SumAtPush(before, row, RowGroup, RowCount, g);
  }

  lemma FoldGroups(entries: seq<Entry>, before: seq<ChannelRow>, row: ChannelRow)
    requires OnePerGroup(entries)
    requires forall e :: e in entries ==> exists r :: r in before && RowGroup(r) == e.group
    requires forall r :: r in before ==> exists e :: e in entries && e.group == RowGroup(r)
    ensures var more := Put(entries, RowGroup(row), RowCents(row), RowCount(row));
            && (forall e :: e in more ==> exists r :: r in before + [row] && RowGroup(r) == e.group)
            && (forall r :: r in before + [row] ==> exists e :: e in more && e.group == RowGroup(r))
  {
    PutGroups(entries, RowGroup(row), RowCents(row), RowCount(row));
    hide Put;
    var more := Put(entries, RowGroup(row), RowCents(row), RowCount(row));
    assert row in before + [row];
    forall e | e in more ensures exists r :: r in before + [row] && RowGroup(r) == e.group {
      if e.group != RowGroup(row) {
        var r :| r in before && RowGroup(r) == e.group;
        assert r in before + [row];
      }
    }
    forall r | r in before + [row] ensures exists e :: e in more && e.group == RowGroup(r) {
      if RowGroup(r) != RowGroup(row) {
        var e :| e in entries && e.group == RowGroup(r);
        assert e in more;
      }
    }
  }

  /** Putting leaves the entries of other groups, and there is one of this group. */
  lemma PutGroups(entries: seq<Entry>, group: ChannelGroup, cents: int, count: int)
    requires OnePerGroup(entries)
    ensures forall e: Entry :: e.group != group ==> (e in Put(entries, group, cents, count) <==> e in entries)
    ensures exists e :: e in Put(entries, group, cents, count) && e.group == group
  {
    var more, place := Put(entries, group, cents, count), PlaceOf(entries, group);
    assert more[place].group == group && more[place] in more;
    forall e | e in entries && e.group != group ensures e in more {
      var j :| 0 <= j < |entries| && entries[j] == e;
      assert more[j] == e;
    }
  }

  lemma {:induction false} OverGroups(groups: seq<ChannelGroup>, entries: seq<Entry>, rows: seq<ChannelRow>)
    requires Folds(entries, rows)
    ensures SumOver(groups, entries, EntryGroup, EntryCents) == SumOver(groups, rows, RowGroup, RowCents)
    ensures SumOver(groups, entries, EntryGroup, EntryCount) == SumOver(groups, rows, RowGroup, RowCount)
  {
    if groups != [] {
      OverGroups(groups[1..], entries, rows);
      assert SameSums(entries, rows, groups[0]);
    }
  }

  /** So nothing is lost over all groups together either. */
  lemma FoldConserves(entries: seq<Entry>, rows: seq<ChannelRow>)
    requires Folds(entries, rows)
    ensures SumOf(entries, EntryCents) == SumOf(rows, RowCents)
    ensures SumOf(entries, EntryCount) == SumOf(rows, RowCount)
  {
    var all := [MobileMoney, Card, Bank, Other];
    assert forall g: ChannelGroup :: g in all by {
      forall g: ChannelGroup ensures g in all {
        assert g == all[0] || g == all[1] || g == all[2] || g == all[3];
      }
    }
    OverGroups(all, entries, rows);
    Regroup(all, entries, EntryGroup, EntryCents);
    Regroup(all, entries, EntryGroup, EntryCount);
    Regroup(all, rows, RowGroup, RowCents);
    Regroup(all, rows, RowGroup, RowCount);
  }

  // ─── The response ──────────────────────────────────────────────────────────────

  function EntryLine(e: Entry): Line {
    Line(None, NameOf(e.group), e.cents, e.count)
  }

  function EntryLines(entries: seq<Entry>): (lines: seq<Line>)
    ensures |lines| == |entries| && forall i :: 0 <= i < |entries| ==> lines[i] == EntryLine(entries[i])
  {
    if entries == [] then [] else [EntryLine(entries[0])] + EntryLines(entries[1..])
  }

  lemma {:induction false} EntryLinesKeep(entries: seq<Entry>)
    ensures SumOf(EntryLines(entries), Cents) == SumOf(entries, EntryCents)
    ensures SumOf(EntryLines(entries), Count) == SumOf(entries, EntryCount)
  {
    if entries != [] {
      EntryLinesKeep(entries[1..]);
      assert EntryLines(entries)[1..] == EntryLines(entries[1..]);
    }
  }

  predicate EntryBefore(a: Entry, b: Entry) {
    Before(EntryLine(a), EntryLine(b))
  }

  lemma EntryBeforeIsOrder()
    ensures TotalPreorder(EntryBefore)
  {
    BeforeIsOrder();
    forall a: Entry, b: Entry ensures EntryBefore(a, b) || EntryBefore(b, a) {
      assert Before(EntryLine(a), EntryLine(b)) || Before(EntryLine(b), EntryLine(a));
    }
    forall a: Entry, b: Entry, c: Entry | EntryBefore(a, b) && EntryBefore(b, c) ensures EntryBefore(a, c) {
      assert Before(EntryLine(a), EntryLine(b)) && Before(EntryLine(b), EntryLine(c));
    }
  }

  lemma ShownConserves(groups: seq<Entry>, shown: seq<Entry>, rows: seq<ChannelRow>, totalCents: int)
    requires Folds(groups, rows) && multiset(shown) == multiset(groups)
    ensures Conserves(PrintAll(EntryLines(shown), totalCents), rows, RowCents, RowCount, totalCents)
  {
    FoldConserves(groups, rows);
    SumOfPermutation(shown, groups, EntryCents);
    SumOfPermutation(shown, groups, EntryCount);
    EntryLinesKeep(shown);
    PrintConserves(EntryLines(shown), rows, RowCents, RowCount, totalCents);
  }

  lemma FoldNothing()
    ensures Folds([], [])
  {
  }

  /** One turn of the loop. */
  method AddRow(entries: seq<Entry>, ghost before: seq<ChannelRow>, row: ChannelRow) returns (more: seq<Entry>)
    requires Folds(entries, before)
    ensures Folds(more, before + [row])
  {
    FoldStep(entries, before, row);
    more := Put(entries, RowGroup(row), RowCents(row), RowCount(row));
  }

  /** The loop that fills the map. */
  method CollectGroups(rows: seq<ChannelRow>) returns (entries: seq<Entry>)
    ensures Folds(entries, rows)
  {
    entries := [];
    FoldNothing();
    assert rows[..0] == [];
    for i := 0 to |rows|
      invariant Folds(entries, rows[..i])
    {
      assert rows[..i + 1] == rows[..i] + [rows[i]];
      entries := AddRow(entries, rows[..i], rows[i]);
    }
    assert rows[..|rows|] == rows;
  }

  /**
   * `mapChannels`: one line for each group that has a row, largest first. `groups` is what the loop
   * collected and `shown` the same in the order of the response.
   */
  method MapChannels(rows: seq<ChannelRow>, totalCents: int)
    returns (out: seq<Printed>, ghost groups: seq<Entry>, ghost shown: seq<Entry>)
    ensures Folds(groups, rows)
    ensures multiset(shown) == multiset(groups) && SortedBy(EntryBefore, shown)
    ensures out == PrintAll(EntryLines(shown), totalCents) && |out| <= 4
    ensures Conserves(out, rows, RowCents, RowCount, totalCents)
  {
    var entries := CollectGroups(rows);
    AtMostFour(entries);
    EntryBeforeIsOrder();
    var ordered := Sort(EntryBefore, entries);
    SortKeepsElements(EntryBefore, entries);
    groups, shown := entries, ordered;
    ShownConserves(groups, shown, rows, totalCents);
    out := PrintAll(EntryLines(ordered), totalCents);
  }

  lemma AtMostFour(entries: seq<Entry>)
    requires OnePerGroup(entries)
    ensures |entries| <= 4
  {
    if |entries| > 4 {
      TwoAlike(entries[0].group, entries[1].group, entries[2].group, entries[3].group, entries[4].group);
    }
  }

  lemma TwoAlike(a: ChannelGroup, b: ChannelGroup, c: ChannelGroup, d: ChannelGroup, e: ChannelGroup)
    ensures a == b || a == c || a == d || a == e || b == c || b == d || b == e || c == d || c == e || d == e
  {
  }
}

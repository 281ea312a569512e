/** Clock-time intervals of src/availability/availability-summary.ts, in seconds from midnight. */
module Intervals {
  import opened Seqs

  /** The half-open time from `start` up to `end`. */
  datatype Window = Window(start: int, end: int)

  /** The overlap test of the booking lock and of the weekly-hours check. */
  predicate Overlaps(o: Window, start: int, end: int) {
    o.start < end && o.end > start
  }

  predicate Within(w: Window, start: int, end: int) {
    w.start <= start && end <= w.end
  }

  /** The test `create` makes of the picker's windows. */
  predicate FitsSome(windows: seq<Window>, start: int, end: int) {
    exists w :: w in windows && Within(w, start, end)
  }

  predicate NoneOverlaps(occupied: seq<Window>, start: int, end: int) {
    forall o :: o in occupied ==> !Overlaps(o, start, end)
  }

  predicate StartsNoLater(a: Window, b: Window) {
    a.start <= b.start
  }

  function Max(a: int, b: int): int {
    if a > b then a else b
  }

  /** What is left from `cursor` to `end` after the intervals, which come in order of their starts. */
  function Pieces(cursor: int, end: int, occupied: seq<Window>): seq<Window>
    decreases |occupied|
  {
    if occupied == [] then
      if cursor < end then [Window(cursor, end)] else []
    else
      (if occupied[0].start > cursor then [Window(cursor, occupied[0].start)] else [])
      + Pieces(Max(cursor, occupied[0].end), end, occupied[1..])
  }

  lemma StartsOrder()
    ensures TotalPreorder(StartsNoLater)
  {
  }

  function InOrder(start: int, end: int, occupied: seq<Window>): seq<Window> {
    StartsOrder();
    Sort(StartsNoLater, Filter((o: Window) => o.end > start && o.start < end, occupied))
  }

  function FreeWindows(start: int, end: int, occupied: seq<Window>): seq<Window> {
    Pieces(start, end, InOrder(start, end, occupied))
  }

  lemma Unfold(cursor: int, end: int, occupied: seq<Window>, i: nat, done: seq<Window>)
    requires i < |occupied|
    ensures var gap := if occupied[i].start > cursor then [Window(cursor, occupied[i].start)] else [];
            done + Pieces(cursor, end, occupied[i..])
            == done + gap + Pieces(Max(cursor, occupied[i].end), end, occupied[i + 1..])
  {
    assert occupied[i..][1..] == occupied[i + 1..];
  }

  /** `subtractOccupied`: the cursor walks over the overlapping intervals and leaves the gaps behind. */
  method SubtractOccupied(start: int, end: int, occupied: seq<Window>) returns (result: seq<Window>)
    ensures result == FreeWindows(start, end, occupied)
  {
    var overlapping := InOrder(start, end, occupied);
    result := [];
    var cursor := start;
    ghost var expected := Pieces(start, end, overlapping);
    assert expected == result + Pieces(cursor, end, overlapping[0..]) by {
      assert overlapping[0..] == overlapping;
    }
    for i := 0 to |overlapping|
      invariant expected == result + Pieces(cursor, end, overlapping[i..])
    {
      var o := overlapping[i];
      ghost var next := Max(cursor, o.end);
      ghost var gap := if o.start > cursor then [Window(cursor, o.start)] else [];
      assert expected == result + gap + Pieces(next, end, overlapping[i + 1..]) by {
        Unfold(cursor, end, overlapping, i, result);
      }
      var gapStart := if o.start > cursor then o.start else cursor;
      if gapStart > cursor {
        result := result + [Window(cursor, gapStart)];
      } else {
        assert result + gap == result;
      }
      if o.end > cursor {
        cursor := o.end;
      }
      assert cursor == next;
    }
    assert overlapping[|overlapping|..] == [];
    if cursor < end {
      result := result + [Window(cursor, end)];
    }
  }

  lemma {:induction false} PiecesFit(cursor: int, end: int, occupied: seq<Window>, a: int, b: int)
    requires a < b && SortedBy(StartsNoLater, occupied)
    requires forall o :: o in occupied ==> o.start < end
    ensures FitsSome(Pieces(cursor, end, occupied), a, b)
            <==> cursor <= a && b <= end && NoneOverlaps(occupied, a, b)
    decreases |occupied|
  {
    var pieces := Pieces(cursor, end, occupied);
    if occupied == [] {
      if cursor <= a && b <= end {
        assert Within(Window(cursor, end), a, b) && Window(cursor, end) in pieces;
      }
    } else {
      var o, rest := occupied[0], occupied[1..];
      var later := Pieces(Max(cursor, o.end), end, rest);
      PiecesFit(Max(cursor, o.end), end, rest, a, b);
      assert occupied == [o] + rest;
      assert forall x :: x in rest ==> o.start <= x.start;
      if FitsSome(pieces, a, b) {
        var w :| w in pieces && Within(w, a, b);
        assert w in later || w == Window(cursor, o.start);
      }
      if cursor <= a && b <= end && NoneOverlaps(occupied, a, b) {
        if b <= o.start {
          assert Within(Window(cursor, o.start), a, b) && Window(cursor, o.start) in pieces;
        } else {
          assert !Overlaps(o, a, b);
          var w :| w in later && Within(w, a, b);
          assert w in pieces;
        }
      }
    }
  }

  /**
   * A stretch of time fits one of the windows exactly when it lies in the working hours and overlaps
   * nothing that is occupied. So the picker's windows and the lock's overlap test never disagree, and
   * no window could be made longer or joined to another. This needs nothing of the occupied
   * intervals: they may come in any order, overlap, or be empty.
   */
  lemma FreeExactly(start: int, end: int, occupied: seq<Window>, a: int, b: int)
    requires a < b
    ensures FitsSome(FreeWindows(start, end, occupied), a, b)
            <==> start <= a && b <= end && NoneOverlaps(occupied, a, b)
  {
    var kept := Filter((o: Window) => o.end > start && o.start < end, occupied);
    StartsOrder();
    SortKeepsElements(StartsNoLater, kept);
    PiecesFit(start, end, InOrder(start, end, occupied), a, b);
    if start <= a && b <= end {
      assert NoneOverlaps(kept, a, b) <==> NoneOverlaps(occupied, a, b) by {
        forall o | o in occupied && o !in kept ensures !Overlaps(o, a, b) {
        }
      }
    }
  }

  /** An instant is in a window exactly when it is a working instant that no interval contains. */
  lemma InstantFree(start: int, end: int, occupied: seq<Window>, t: int)
    ensures (exists w :: w in FreeWindows(start, end, occupied) && w.start <= t < w.end)
            <==> start <= t < end && forall o :: o in occupied ==> !(o.start <= t < o.end)
  {
    FreeExactly(start, end, occupied, t, t + 1);
    var windows := FreeWindows(start, end, occupied);
    assert FitsSome(windows, t, t + 1) <==> exists w :: w in windows && w.start <= t < w.end by {
      if w :| w in windows && w.start <= t < w.end {
        assert Within(w, t, t + 1);
      }
    }
    assert NoneOverlaps(occupied, t, t + 1) <==> forall o :: o in occupied ==> !(o.start <= t < o.end) by {
      forall o | o in occupied ensures Overlaps(o, t, t + 1) <==> o.start <= t < o.end {
      }
    }
  }

  /** Windows in order of time, not empty and not overlapping; `apart` when there is time between any two. */
  ghost predicate Ordered(windows: seq<Window>, apart: bool) {
    && (forall w :: w in windows ==> w.start < w.end)
    && (forall i, j :: 0 <= i < j < |windows| ==>
          windows[i].end <= windows[j].start && (apart ==> windows[i].end < windows[j].start))
  }

  ghost predicate Inside(windows: seq<Window>, start: int, end: int) {
    forall w :: w in windows ==> start <= w.start && w.end <= end
  }

  /** A window in front of windows that all start later. */
  lemma OrderedFrom(w: Window, later: seq<Window>, from: int, end: int, apart: bool)
    requires Ordered(later, apart) && Inside(later, from, end)
    requires w.start < w.end <= from && w.end <= end && (apart ==> w.end < from)
    ensures Ordered([w] + later, apart) && Inside([w] + later, w.start, end)
  {
    var pieces := [w] + later;
    forall i, j | 0 <= i < j < |pieces|
      ensures pieces[i].end <= pieces[j].start && (apart ==> pieces[i].end < pieces[j].start)
    {
      assert pieces[j] == later[j - 1] && later[j - 1] in later;
      assert i > 0 ==> pieces[i] == later[i - 1];
    }
  }

  lemma {:induction false} PiecesOrdered(cursor: int, end: int, occupied: seq<Window>, apart: bool)
    requires SortedBy(StartsNoLater, occupied)
    requires forall o :: o in occupied ==> o.start < end && o.start <= o.end && (apart ==> o.start < o.end)
    ensures Ordered(Pieces(cursor, end, occupied), apart)
    ensures Inside(Pieces(cursor, end, occupied), cursor, end)
    decreases |occupied|
  {
    if occupied != [] {
      var o, rest := occupied[0], occupied[1..];
      var later := Pieces(Max(cursor, o.end), end, rest);
      PiecesOrdered(Max(cursor, o.end), end, rest, apart);
      if o.start > cursor {
        OrderedFrom(Window(cursor, o.start), later, Max(cursor, o.end), end, apart);
      }
    }
  }

  /** The windows are non-empty, in order, disjoint and inside the working hours; and apart, when every interval takes time. */
  lemma FreeWindowsOrdered(start: int, end: int, occupied: seq<Window>, apart: bool)
    requires forall o :: o in occupied ==> o.start <= o.end && (apart ==> o.start < o.end)
    ensures Ordered(FreeWindows(start, end, occupied), apart)
    ensures Inside(FreeWindows(start, end, occupied), start, end)
  {
    StartsOrder();
    SortKeepsElements(StartsNoLater, Filter((o: Window) => o.end > start && o.start < end, occupied));
    PiecesOrdered(start, end, InOrder(start, end, occupied), apart);
  }
}

/** What the failure counts mean over any history of calls. */
module LoginFailureRuns {
  import opened Wrappers
  import opened LoginFailures

  /** The clock never goes back. */
  ghost predicate ClockRuns(log: seq<Op>) {
    forall i, j :: 0 <= i < j < |log| && !log[i].Drop? && !log[j].Drop? ==> log[i].now <= log[j].now
  }

  ghost predicate NotAfter(log: seq<Op>, t: int) {
    forall op :: op in log && !op.Drop? ==> op.now <= t
  }

  /** The failures logged for a key from `lo` to `hi`. */
  function Failures(log: seq<Op>, key: Key, lo: int, hi: int): nat {
    if log == [] then 0
    else
      var op := log[|log| - 1];
      Failures(log[..|log| - 1], key, lo, hi) + (if op.Bump? && op.key == key && lo <= op.now <= hi then 1 else 0)
  }

  lemma ClockSoFar(log: seq<Op>)
    requires log != [] && ClockRuns(log)
    ensures ClockRuns(log[..|log| - 1])
    ensures !log[|log| - 1].Drop? ==> NotAfter(log[..|log| - 1], log[|log| - 1].now)
  {
  }

  // ─── What one failure does to the entries ────────────────────────────────────────

  /** The entry of a key that had none, or only an expired one. */
  function Opened(left: seq<Entry>, key: Key, now: int): seq<Entry> {
    Evicted(left) + [Entry(key, 1, now)]
  }

  lemma OpenedShape(left: seq<Entry>, key: Key, now: int)
    requires Unique(left) && forall e :: e in left ==> e.key != key
    ensures Unique(Opened(left, key, now))
    ensures |left| <= MAX_KEYS ==> |Opened(left, key, now)| <= MAX_KEYS
    ensures forall e :: e in Opened(left, key, now) ==> e in left || e == Entry(key, 1, now)
  {
    assert forall e :: e in Evicted(left) ==> e in left;
  }

  lemma OpenedOrder(left: seq<Entry>, key: Key, now: int)
    requires Ordered(left) && forall e :: e in left ==> e.firstAt <= now
    ensures Ordered(Opened(left, key, now))
  {
    assert forall e :: e in Evicted(left) ==> e in left;
  }

  lemma RecountShape(left: seq<Entry>, key: Key, count: nat)
    ensures Unique(left) ==> Unique(Recount(left, key, count))
    ensures Ordered(left) ==> Ordered(Recount(left, key, count))
    ensures forall e :: e in left && e.key != key ==> e in Recount(left, key, count)
  {
    var out := Recount(left, key, count);
    forall e | e in left && e.key != key ensures e in out {
      var i :| 0 <= i < |left| && left[i] == e;
      assert out[i] == e;
    }
  }

  lemma RecountMember(left: seq<Entry>, key: Key, count: nat, e: Entry)
    requires Unique(left) && e in Recount(left, key, count)
    ensures if e.key == key then
              Find(left, key).Some? && e == Find(left, key).value.(count := count)
            else
              e in left
  {
    var out := Recount(left, key, count);
    var i :| 0 <= i < |out| && out[i] == e;
    assert left[i] in left;
    OnlyOne(left, i);
  }

  lemma {:induction false} OnlyOne(entries: seq<Entry>, i: nat)
    requires Unique(entries) && i < |entries|
    ensures Find(entries, entries[i].key) == Some(entries[i])
  {
    if i > 0 {
      assert entries[0].key != entries[i].key;
      OnlyOne(entries[1..], i - 1);
    }
  }

  // ─── Bounded memory ────────────────────────────────────────────────────────────

  ghost predicate Bounded(entries: seq<Entry>) {
    Unique(entries) && |entries| <= MAX_KEYS && forall e :: e in entries ==> e.count >= 1
  }

  lemma OpenedBound(left: seq<Entry>, key: Key, now: int)
    requires Bounded(left) && forall e :: e in left ==> e.key != key
    ensures Bounded(Opened(left, key, now))
  {
    OpenedShape(left, key, now);
  }

  lemma RecountBound(left: seq<Entry>, key: Key, count: nat)
    requires Bounded(left)
    ensures Bounded(Recount(left, key, count + 1))
  {
    RecountShape(left, key, count + 1);
    forall e | e in Recount(left, key, count + 1) ensures e.count >= 1 {
      RecountMember(left, key, count + 1, e);
    }
  }

  lemma {:induction false} WithoutShape(entries: seq<Entry>, key: Key)
    requires Unique(entries)
    ensures Unique(Without(entries, key))
    ensures Ordered(entries) ==> Ordered(Without(entries, key))
  {
    if entries != [] {
      var first, tail := entries[0], entries[1..];
      WithoutFirst(first, tail, key);
      assert entries == [first] + tail;
      hide Without;
      WithoutShape(tail, key);
      if first.key != key {
        FrontShape(first, tail, Without(tail, key));
      }
    }
  }

  lemma WithoutFirst(first: Entry, tail: seq<Entry>, key: Key)
    ensures Without([first] + tail, key) == if first.key == key then Without(tail, key) else [first] + Without(tail, key)
  {
    assert ([first] + tail)[1..] == tail;
  }

  lemma FrontShape(first: Entry, tail: seq<Entry>, kept: seq<Entry>)
    requires Unique([first] + tail) && Unique(kept) && forall e :: e in kept ==> e in tail
    ensures Unique([first] + kept)
    ensures Ordered([first] + tail) && Ordered(kept) ==> Ordered([first] + kept)
  {
    var out, all := [first] + kept, [first] + tail;
    forall j | 0 < j < |out| ensures out[0].key != out[j].key && (Ordered(all) ==> out[0].firstAt <= out[j].firstAt) {
      assert kept[j - 1] in tail;
      var i :| 0 <= i < |tail| && tail[i] == kept[j - 1];
      assert all[0].key != all[i + 1].key;
    }
  }

  /** After `read`, the entry of the key is live or gone. */
  lemma ReadShape(entries: seq<Entry>, key: Key, now: int)
    requires Bounded(entries)
    ensures var left := AfterRead(entries, key, now);
            && Bounded(left)
            && (Ordered(entries) ==> Ordered(left))
            && (forall e :: e in left ==> e in entries)
            && (forall e :: e in entries && e.key != key ==> e in left)
            && (CountAt(entries, key, now) == 0 ==> forall e :: e in left ==> e.key != key)
            && (CountAt(entries, key, now) > 0 ==> left == entries && Find(entries, key).Some?)
  {
    WithoutShape(entries, key);
  }

  lemma BumpIs(entries: seq<Entry>, key: Key, now: int)
    ensures var left, count := AfterRead(entries, key, now), CountAt(entries, key, now);
            AfterBump(entries, key, now) == if count == 0 then Opened(left, key, now) else Recount(left, key, count + 1)
  {
    hide AfterRead, CountAt, Recount, Evicted;
  }

  lemma BumpKeepsBound(entries: seq<Entry>, key: Key, now: int)
    requires Bounded(entries)
    ensures Bounded(AfterBump(entries, key, now))
  {
    hide AfterRead, CountAt, Recount, AfterBump, Opened, Bounded, Find;
    BumpIs(entries, key, now);
    ReadShape(entries, key, now);
    var left, count := AfterRead(entries, key, now), CountAt(entries, key, now);
    if count == 0 {
      OpenedBound(left, key, now);
    } else {
      RecountBound(left, key, count);
    }
  }

  /** Whatever is called and whatever the clock does: one entry a key, and never more than the limit. */
  lemma {:induction false} NeverOverfull(log: seq<Op>)
    ensures Bounded(Replay(log))
  {
    if log != [] {
      var before, op := Replay(log[..|log| - 1]), log[|log| - 1];
      NeverOverfull(log[..|log| - 1]);
      match op {
        case Bump(key, now) => BumpKeepsBound(before, key, now);
        case Read(key, now) => ReadShape(before, key, now);
        case Drop(key) => WithoutShape(before, key);
      }
    }
  }

  // ─── Order and eviction ────────────────────────────────────────────────────────

  /** Each entry dates from a logged failure of its key, and the entries stand in the order of those dates. */
  ghost predicate Dated(log: seq<Op>, entries: seq<Entry>) {
    Ordered(entries) && forall e :: e in entries ==> Bump(e.key, e.firstAt) in log
  }

  lemma OpenedDated(log: seq<Op>, left: seq<Entry>, key: Key, now: int)
    requires Bounded(left) && Dated(log, left) && NotAfter(log, now) && forall e :: e in left ==> e.key != key
    ensures Dated(log + [Bump(key, now)], Opened(left, key, now))
  {
    assert forall e :: e in left ==> Bump(e.key, e.firstAt).now <= now;
    OpenedShape(left, key, now);
    OpenedOrder(left, key, now);
  }

  lemma RecountDated(log: seq<Op>, left: seq<Entry>, key: Key, count: nat)
    requires Bounded(left) && Dated(log, left)
    ensures Dated(log, Recount(left, key, count))
  {
    RecountShape(left, key, count);
    forall e | e in Recount(left, key, count) ensures Bump(e.key, e.firstAt) in log {
      RecountMember(left, key, count, e);
    }
  }

  lemma BumpKeepsOrder(log: seq<Op>, entries: seq<Entry>, key: Key, now: int)
    requires Bounded(entries) && Dated(log, entries) && NotAfter(log, now)
    ensures Dated(log + [Bump(key, now)], AfterBump(entries, key, now))
  {
    hide AfterRead, CountAt, Recount, Evicted, Bounded;
    ReadShape(entries, key, now);
    var left, count := AfterRead(entries, key, now), CountAt(entries, key, now);
    if count == 0 {
      OpenedDated(log, left, key, now);
    } else {
      RecountDated(log, left, key, count + 1);
    }
  }

  lemma {:induction false} OldestFirst(log: seq<Op>)
    requires ClockRuns(log)
    ensures Dated(log, Replay(log))
  {
    if log != [] {
      var prefix, op := log[..|log| - 1], log[|log| - 1];
      var before := Replay(prefix);
      ClockSoFar(log);
      OldestFirst(prefix);
      NeverOverfull(prefix);
      assert log == prefix + [op];
      match op {
        case Bump(key, now) => BumpKeepsOrder(prefix, before, key, now);
        case Read(key, now) => ReadShape(before, key, now);
        case Drop(key) => WithoutShape(before, key);
      }
    }
  }

  /** A failure forgets another key only when the map is full, and then it is the one whose window is oldest. */
  lemma EvictionTakesOldest(log: seq<Op>, key: Key, now: int, e: Entry)
    requires ClockRuns(log) && NotAfter(log, now)
    requires e in Replay(log) && e.key != key && e !in Replay(log + [Bump(key, now)])
    ensures |Replay(log)| == MAX_KEYS == |Replay(log + [Bump(key, now)])|
    ensures forall other :: other in Replay(log) ==> e.firstAt <= other.firstAt
    ensures forall other :: other in Replay(log) && other != e ==> other in Replay(log + [Bump(key, now)])
  {
    var entries := Replay(log);
    OldestFirst(log);
    NeverOverfull(log);
    ReplayOne(log, Bump(key, now));
    BumpEvicts(entries, key, now, e);
  }

  lemma BumpEvicts(entries: seq<Entry>, key: Key, now: int, e: Entry)
    requires Bounded(entries) && Ordered(entries)
    requires e in entries && e.key != key && e !in AfterBump(entries, key, now)
    ensures |entries| == MAX_KEYS == |AfterBump(entries, key, now)| && e == entries[0]
    ensures AfterBump(entries, key, now) == entries[1..] + [Entry(key, 1, now)]
  {
    var left, count := AfterRead(entries, key, now), CountAt(entries, key, now);
    assert e in left;
    RecountShape(left, key, count + 1);
    assert count == 0;
    assert e !in Evicted(left);
    assert |left| >= MAX_KEYS;
    assert Find(entries, key).None? by {
      if Find(entries, key).Some? {
        ShorterWithout(entries, key);
      }
    }
    assert left == entries;
    assert entries == [entries[0]] + entries[1..];
  }

  lemma {:induction false} ShorterWithout(entries: seq<Entry>, key: Key)
    requires Find(entries, key).Some?
    ensures |Without(entries, key)| < |entries|
  {
    if entries[0].key != key {
      ShorterWithout(entries[1..], key);
    }
  }

  // ─── A challenge is deserved ───────────────────────────────────────────────────────

  ghost predicate Counted(log: seq<Op>, entries: seq<Entry>, hi: int) {
    forall e :: e in entries ==> e.count <= Failures(log, e.key, e.firstAt, hi)
  }

  lemma {:induction false} Logged(log: seq<Op>, hi: int)
    requires ClockRuns(log) && NotAfter(log, hi)
    ensures Counted(log, Replay(log), hi)
  {
    if log != [] {
      var prefix, op := log[..|log| - 1], log[|log| - 1];
      var before := Replay(prefix);
      ClockSoFar(log);
      Logged(prefix, hi);
      OldestFirst(prefix);
      NeverOverfull(prefix);
      if op.Bump? {
        BumpKeepsCounted(log, before, op.key, op.now, hi);
      }
    }
  }

  lemma BumpKeepsCounted(log: seq<Op>, before: seq<Entry>, key: Key, now: int, hi: int)
    requires log != [] && log[|log| - 1] == Bump(key, now) && now <= hi && Bounded(before)
    requires NotAfter(log[..|log| - 1], now) && Dated(log[..|log| - 1], before)
    requires Counted(log[..|log| - 1], before, hi)
    ensures Counted(log, AfterBump(before, key, now), hi)
  {
    ReadShape(before, key, now);
    var left, count := AfterRead(before, key, now), CountAt(before, key, now);
    if count == 0 {
      OpenedShape(left, key, now);
      assert Counted(log, Opened(left, key, now), hi);
    } else {
      RecountCounted(log, before, key, now, hi);
    }
  }

  lemma RecountCounted(log: seq<Op>, before: seq<Entry>, key: Key, now: int, hi: int)
    requires log != [] && log[|log| - 1] == Bump(key, now) && now <= hi && Bounded(before)
    requires NotAfter(log[..|log| - 1], now) && Dated(log[..|log| - 1], before)
    requires Counted(log[..|log| - 1], before, hi) && Find(before, key).Some?
    ensures Counted(log, Recount(before, key, Find(before, key).value.count + 1), hi)
  {
    hide Find, Recount;
    var found := Find(before, key).value;
    assert Bump(found.key, found.firstAt).now <= now;
    forall e | e in Recount(before, key, found.count + 1) ensures e.count <= Failures(log, e.key, e.firstAt, hi) {
      RecountMember(before, key, found.count + 1, e);
    }
  }

  lemma {:induction false} WiderWindow(log: seq<Op>, key: Key, lo: int, lower: int, hi: int)
    requires lower <= lo
    ensures Failures(log, key, lo, hi) <= Failures(log, key, lower, hi)
  {
    if log != [] {
      WiderWindow(log[..|log| - 1], key, lo, lower, hi);
    }
  }

  lemma ReachedIsDeserved(log: seq<Op>, key: Key, now: int)
    requires ClockRuns(log) && NotAfter(log, now) && Reached(Replay(log), key, now)
    ensures Failures(log, key, now - WINDOW_MS, now) >= THRESHOLD
  {
    Logged(log, now);
    var e := Find(Replay(log), key).value;
    assert e in Replay(log);
    WiderWindow(log, key, e.firstAt, now - WINDOW_MS, now);
  }

  /** A challenge is asked for only after three failures of the address, or of the client, in the last 15 minutes. */
  lemma ChallengeIsDeserved(log: seq<Op>, email: string, ip: Option<string>, now: int)
    requires ClockRuns(log) && NotAfter(log, now) && ReachedEither(Replay(log), email, ip, now)
    ensures Failures(log, EmailKey(email), now - WINDOW_MS, now) >= THRESHOLD
            || (Truthy(ip) && Failures(log, IpKey(ip.value), now - WINDOW_MS, now) >= THRESHOLD)
  {
    if Reached(Replay(log), EmailKey(email), now) {
      ReachedIsDeserved(log, EmailKey(email), now);
    } else {
      ReachedIsDeserved(log, IpKey(ip.value), now);
    }
  }

  /** A success forgets the address and changes no client's count. */
  lemma SuccessSparesClients(log: seq<Op>, email: string, ip: string, now: int)
    ensures var after := Replay(log + [Drop(EmailKey(email))]);
            && CountAt(after, EmailKey(email), now) == 0
            && CountAt(after, IpKey(ip), now) == CountAt(Replay(log), IpKey(ip), now)
  {
    ReplayOne(log, Drop(EmailKey(email)));
    FindOther(Replay(log), EmailKey(email), IpKey(ip));
  }

  // ─── What exactly is counted ─────────────────────────────────────────────────────

  /** How many of the times lie in the window that opens at `start`, from the first on. */
  function Within(times: seq<int>, start: int): (k: nat)
    ensures k <= |times|
    ensures forall i :: 0 <= i < k ==> times[i] - start <= WINDOW_MS
    ensures k < |times| ==> times[k] - start > WINDOW_MS
  {
    if times == [] || times[0] - start > WINDOW_MS then 0 else 1 + Within(times[1..], start)
  }

  /**
   * Failures fall into windows: one opens at the first failure, takes all those of the next 15 minutes,
   * and the next opens at the first failure after that. This is the last window.
   */
  function LastWindow(times: seq<int>): (run: seq<int>)
    ensures times != [] ==> run != []
    decreases |times|
  {
    if times == [] then []
    else
      var k := Within(times, times[0]);
      if k == |times| then times else LastWindow(times[k..])
  }

  lemma {:induction false} WithinGrows(times: seq<int>, t: int, start: int)
    ensures Within(times + [t], start)
            == if Within(times, start) == |times| && t - start <= WINDOW_MS then |times| + 1 else Within(times, start)
  {
    if times == [] {
      assert [t][1..] == [];
      assert times + [t] == [t];
    } else {
      WithinGrows(times[1..], t, start);
      assert (times + [t])[1..] == times[1..] + [t];
    }
  }

  /** One more failure joins the last window or opens the next. */
  lemma {:induction false} WindowGrows(times: seq<int>, t: int)
    ensures LastWindow(times + [t])
            == if times == [] || t - LastWindow(times)[0] > WINDOW_MS then [t] else LastWindow(times) + [t]
    decreases |times|
  {
    if times == [] {
      assert times + [t] == [t];
    } else {
      var more := times + [t];
      var k := Within(times, times[0]);
      WithinGrows(times, t, times[0]);
      if k == |times| {
        if t - times[0] > WINDOW_MS {
          assert more[k..] == [t];
        }
      } else {
        WindowGrows(times[k..], t);
        assert more[k..] == times[k..] + [t];
      }
    }
  }

  /** When a key failed, since it was last forgotten. */
  function Times(log: seq<Op>, key: Key): seq<int> {
    if log == [] then []
    else
      var op, before := log[|log| - 1], Times(log[..|log| - 1], key);
      if op.key != key then before
      else match op
        case Bump(_, now) => before + [now]
        case Read(_, _) => before
        case Drop(_) => []
  }

  /** The failures of the last window, if it is still open. */
  function OpenCount(times: seq<int>, now: int): nat {
    var run := LastWindow(times);
    if run == [] || now - run[0] > WINDOW_MS then 0 else |run|
  }

  /** The keys that failed in the 15 minutes from `t` on. */
  function KeysIn(log: seq<Op>, t: int): set<Key> {
    if log == [] then {}
    else
      var op := log[|log| - 1];
      KeysIn(log[..|log| - 1], t) + (if op.Bump? && t <= op.now <= t + WINDOW_MS then {op.key} else {})
  }

  /** No 15 minutes see failures of more keys than the map can hold. */
  ghost predicate Sparse(log: seq<Op>) {
    forall t: int :: |KeysIn(log, t)| <= MAX_KEYS
  }

  function KeysOf(entries: seq<Entry>): set<Key> {
    set e | e in entries :: e.key
  }

  lemma {:induction false} AsManyKeys(entries: seq<Entry>)
    requires Unique(entries)
    ensures |KeysOf(entries)| == |entries|
  {
    if entries != [] {
      var first, tail := entries[0], entries[1..];
      assert entries == [first] + tail;
      assert forall e :: e in tail ==> e.key != first.key;
      AsManyKeys(tail);
      assert KeysOf(entries) == KeysOf(tail) + {first.key};
    }
  }

  lemma SparseSoFar(log: seq<Op>)
    requires log != [] && Sparse(log)
    ensures Sparse(log[..|log| - 1])
  {
    var prefix := log[..|log| - 1];
    forall t: int ensures |KeysIn(prefix, t)| <= MAX_KEYS {
      SubsetSize(KeysIn(prefix, t), KeysIn(log, t));
    }
  }

  lemma {:induction false} LoggedKey(log: seq<Op>, op: Op, t: int)
    requires op in log && op.Bump? && t <= op.now <= t + WINDOW_MS
    ensures op.key in KeysIn(log, t)
  {
    if log[|log| - 1] != op {
      assert log == log[..|log| - 1] + [log[|log| - 1]];
      LoggedKey(log[..|log| - 1], op, t);
    }
  }

  lemma {:induction false} SubsetSize(small: set<Key>, large: set<Key>)
    requires small <= large
    ensures |small| <= |large|
  {
    if small != {} {
      var k :| k in small;
      SubsetSize(small - {k}, large - {k});
    }
  }

  lemma {:induction false} FindInPush(entries: seq<Entry>, e: Entry, key: Key)
    ensures Find(entries + [e], key)
            == if Find(entries, key).Some? then Find(entries, key) else if e.key == key then Some(e) else None
  {
    if entries == [] {
      assert entries + [e] == [e];
      assert [e][1..] == [];
    } else {
      FindInPush(entries[1..], e, key);
      assert (entries + [e])[1..] == entries[1..] + [e];
    }
  }

  lemma {:induction false} FindRecounted(entries: seq<Entry>, key: Key, count: nat, other: Key)
    ensures Find(Recount(entries, key, count), other)
            == if Find(entries, other).Some? then Some(Recounted(Find(entries, other).value, key, count)) else None
  {
    if entries != [] {
      FindRecounted(entries[1..], key, count, other);
      assert Recount(entries, key, count)[1..] == Recount(entries[1..], key, count);
    }
  }

  /** What the map holds of a key is its last window, unless that is closed. */
  ghost predicate Tracks(log: seq<Op>, found: Option<Entry>, key: Key) {
    var run := LastWindow(Times(log, key));
    if found.Some? then run != [] && found.value == Entry(key, |run|, run[0])
    else run == [] || exists op :: op in log && !op.Drop? && op.now - run[0] > WINDOW_MS
  }

  lemma TracksOn(prefix: seq<Op>, op: Op, found: Option<Entry>, key: Key)
    requires Tracks(prefix, found, key) && op.key != key
    ensures Tracks(prefix + [op], found, key)
  {
    assert (prefix + [op])[..|prefix|] == prefix;
    assert Times(prefix + [op], key) == Times(prefix, key);
    assert forall o :: o in prefix ==> o in prefix + [op];
  }

  lemma OthersAfterDrop(prefix: seq<Op>, entries: seq<Entry>, key: Key, other: Key)
    requires Tracks(prefix, Find(entries, other), other) && key != other
    ensures Tracks(prefix + [Drop(key)], Find(Without(entries, key), other), other)
  {
    FindOther(entries, key, other);
    TracksOn(prefix, Drop(key), Find(entries, other), other);
  }

  lemma OthersAfterRead(prefix: seq<Op>, entries: seq<Entry>, key: Key, now: int, other: Key)
    requires Tracks(prefix, Find(entries, other), other) && key != other
    ensures Tracks(prefix + [Read(key, now)], Find(AfterRead(entries, key, now), other), other)
  {
    FindOther(entries, key, other);
    TracksOn(prefix, Read(key, now), Find(entries, other), other);
  }

  /** A failure that is counted in an open window touches no other key. */
  lemma OthersAfterRecount(prefix: seq<Op>, entries: seq<Entry>, key: Key, now: int, count: nat, other: Key)
    requires Tracks(prefix, Find(entries, other), other) && key != other
    ensures Tracks(prefix + [Bump(key, now)], Find(Recount(entries, key, count), other), other)
  {
    FindRecounted(entries, key, count, other);
    TracksOn(prefix, Bump(key, now), Find(entries, other), other);
  }

  /**
   * When a full map forgets its oldest window, that window is closed: were it open, all the windows of
   * the map would have opened within the last 15 minutes, and with the new key that is one key too many.
   */
  lemma EvictedIsClosed(prefix: seq<Op>, entries: seq<Entry>, key: Key, now: int)
    requires Sparse(prefix + [Bump(key, now)]) && NotAfter(prefix, now)
    requires Bounded(entries) && Dated(prefix, entries) && |entries| >= MAX_KEYS
    requires forall e :: e in entries ==> e.key != key
    ensures Expired(entries[0], now)
  {
    var t := entries[0].firstAt;
    if !Expired(entries[0], now) {
      var log := prefix + [Bump(key, now)];
      assert entries[0] in entries && Bump(entries[0].key, t).now <= now;
      LoggedKey(log, Bump(key, now), t);
      var held := KeysOf(entries);
      AsManyKeys(entries);
      forall k | k in held ensures k in KeysIn(log, t) {
        var e :| e in entries && e.key == k;
        assert Bump(e.key, e.firstAt) in prefix && Bump(e.key, e.firstAt).now <= now;
        LoggedKey(log, Bump(e.key, e.firstAt), t);
      }
      assert |held + {key}| == |held| + 1;
      SubsetSize(held + {key}, KeysIn(log, t));
    }
  }

  lemma OthersAfterOpening(prefix: seq<Op>, left: seq<Entry>, key: Key, now: int, other: Key)
    requires Sparse(prefix + [Bump(key, now)]) && NotAfter(prefix, now)
    requires Bounded(left) && Dated(prefix, left) && forall e :: e in left ==> e.key != key
    requires Tracks(prefix, Find(left, other), other) && key != other
    ensures Tracks(prefix + [Bump(key, now)], Find(Opened(left, key, now), other), other)
  {
    FindInPush(Evicted(left), Entry(key, 1, now), other);
    if |left| >= MAX_KEYS && left[0].key == other {
      EvictedIsClosed(prefix, left, key, now);
      OnlyOne(left, 0);
      assert forall e :: e in left[1..] ==> e.key != other;
      NotFoundIn(left[1..], other);
      ClosedTracks(prefix, Bump(key, now), left[0], other);
    } else {
      TracksOn(prefix, Bump(key, now), Find(left, other), other);
    }
  }

  /** A window may be forgotten once it is closed. */
  lemma ClosedTracks(prefix: seq<Op>, op: Op, e: Entry, key: Key)
    requires Tracks(prefix, Some(e), key) && op.key != key && !op.Drop? && Expired(e, op.now)
    ensures Tracks(prefix + [op], None, key)
  {
    TracksOn(prefix, op, Some(e), key);
    assert op in prefix + [op];
  }

  /** What one step leaves of another key. */
  lemma OthersTracked(prefix: seq<Op>, op: Op, other: Key)
    requires ClockRuns(prefix + [op]) && Sparse(prefix + [op]) && op.key != other
    requires Tracks(prefix, Find(Replay(prefix), other), other)
    ensures Tracks(prefix + [op], Find(After(Replay(prefix), op), other), other)
  {
    var entries := Replay(prefix);
    match op {
      case Drop(key) => OthersAfterDrop(prefix, entries, key, other);
      case Read(key, now) => OthersAfterRead(prefix, entries, key, now, other);
      case Bump(key, now) => OthersAfterBump(prefix, key, now, other);
    }
  }

  lemma OthersAfterBump(prefix: seq<Op>, key: Key, now: int, other: Key)
    requires ClockRuns(prefix + [Bump(key, now)]) && Sparse(prefix + [Bump(key, now)]) && key != other
    requires Tracks(prefix, Find(Replay(prefix), other), other)
    ensures Tracks(prefix + [Bump(key, now)], Find(AfterBump(Replay(prefix), key, now), other), other)
  {
    hide Tracks, Sparse, Evicted, Recount, Find, Without, Replay, Unique;
    var entries := Replay(prefix);
    ClockUpTo(prefix, Bump(key, now));
    NeverOverfull(prefix);
    OldestFirst(prefix);
    ReadShape(entries, key, now);
    FindOther(entries, key, other);
    var left, count := AfterRead(entries, key, now), CountAt(entries, key, now);
    if count == 0 {
      assert Find(left, other) == Find(entries, other);
      OthersAfterOpening(prefix, left, key, now, other);
    } else {
      OthersAfterRecount(prefix, entries, key, now, count + 1, other);
    }
  }

  lemma ClockUpTo(prefix: seq<Op>, op: Op)
    requires ClockRuns(prefix + [op])
    ensures ClockRuns(prefix) && (!op.Drop? ==> NotAfter(prefix, op.now))
  {
    ClockSoFar(prefix + [op]);
    assert (prefix + [op])[..|prefix|] == prefix;
  }

  function Raised(found: Option<Entry>, key: Key, now: int): Entry {
    if found.None? || Expired(found.value, now) then Entry(key, 1, now)
    else found.value.(count := found.value.count + 1)
  }

  /** What a failure leaves of its own key. */
  lemma BumpedEntry(entries: seq<Entry>, key: Key, now: int)
    requires Bounded(entries)
    ensures Find(AfterBump(entries, key, now), key) == Some(Raised(Find(entries, key), key, now))
  {
    var found := Find(entries, key);
    assert found.Some? ==> found.value.count >= 1;
    if CountAt(entries, key, now) == 0 {
      ReadShape(entries, key, now);
      OpenedEntry(AfterRead(entries, key, now), key, now);
    } else {
      RaisedEntry(entries, key, now);
    }
  }

  lemma RaisedEntry(entries: seq<Entry>, key: Key, now: int)
    requires CountAt(entries, key, now) > 0
    ensures Find(AfterBump(entries, key, now), key) == Some(Raised(Find(entries, key), key, now))
  {
    FindRecounted(entries, key, CountAt(entries, key, now) + 1, key);
  }

  /** The new entry is pushed after the eviction, so it is there whatever had to go. */
  lemma OpenedEntry(left: seq<Entry>, key: Key, now: int)
    requires forall e :: e in left ==> e.key != key
    ensures Find(Opened(left, key, now), key) == Some(Entry(key, 1, now))
  {
    assert forall e :: e in Evicted(left) ==> e in left;
    NotFoundIn(Evicted(left), key);
    FindInPush(Evicted(left), Entry(key, 1, now), key);
  }

  lemma BumpTracks(prefix: seq<Op>, found: Option<Entry>, key: Key, now: int)
    requires Tracks(prefix, found, key) && NotAfter(prefix, now)
    ensures Tracks(prefix + [Bump(key, now)], Some(Raised(found, key, now)), key)
  {
    var log := prefix + [Bump(key, now)];
    assert log[..|prefix|] == prefix;
    assert Times(log, key) == Times(prefix, key) + [now];
    WindowGrows(Times(prefix, key), now);
    assert LastWindow([]) == [];
  }

  lemma GoneTracks(prefix: seq<Op>, op: Op, found: Option<Entry>, key: Key)
    requires Tracks(prefix, found, key) && op.key == key && !op.Bump?
    ensures op.Drop? ==> Tracks(prefix + [op], None, key)
    ensures op.Read? ==>
              Tracks(prefix + [op], if found.Some? && Expired(found.value, op.now) then None else found, key)
  {
    var log := prefix + [op];
    assert log[..|prefix|] == prefix;
    assert op in log && forall o :: o in prefix ==> o in log;
    assert LastWindow([]) == [];
    if op.Read? {
      assert Times(log, key) == Times(prefix, key);
    } else {
      assert Times(log, key) == [];
    }
  }

  lemma {:induction false} NotFoundIn(entries: seq<Entry>, key: Key)
    requires forall e :: e in entries ==> e.key != key
    ensures Find(entries, key).None?
  {
  }

  lemma {:induction false} MapTracksWindows(log: seq<Op>, key: Key)
    requires ClockRuns(log) && Sparse(log)
    ensures Tracks(log, Find(Replay(log), key), key)
  {
    if log != [] {
      var prefix, op := log[..|log| - 1], log[|log| - 1];
      assert log == prefix + [op];
      ClockSoFar(log);
      SparseSoFar(log);
      MapTracksWindows(prefix, key);
      if op.key != key {
        OthersTracked(prefix, op, key);
      } else {
        OwnTracked(prefix, op);
      }
    } else {
      assert LastWindow([]) == [];
    }
  }

  lemma OwnTracked(prefix: seq<Op>, op: Op)
    requires ClockRuns(prefix + [op]) && Tracks(prefix, Find(Replay(prefix), op.key), op.key)
    ensures Tracks(prefix + [op], Find(After(Replay(prefix), op), op.key), op.key)
  {
    hide Tracks, Replay, AfterBump;
    var before := Replay(prefix);
    ClockUpTo(prefix, op);
    NeverOverfull(prefix);
    if op.Bump? {
      BumpedEntry(before, op.key, op.now);
      BumpTracks(prefix, Find(before, op.key), op.key, op.now);
    } else {
      GoneTracks(prefix, op, Find(before, op.key), op.key);
      NotFoundIn(Without(before, op.key), op.key);
    }
  }

  /**
   * While no 15 minutes see failures of more than 50,000 keys, the count of a key is the number of
   * failures in its last window, for as long as that is open; however many keys failed in all.
   */
  lemma CountIsOpenWindow(log: seq<Op>, key: Key, now: int)
    requires ClockRuns(log) && NotAfter(log, now) && Sparse(log)
    ensures CountAt(Replay(log), key, now) == OpenCount(Times(log, key), now)
  {
    MapTracksWindows(log, key);
    var run := LastWindow(Times(log, key));
    if Find(Replay(log), key).None? && run != [] {
      var op :| op in log && !op.Drop? && op.now - run[0] > WINDOW_MS;
      assert op.now <= now;
    }
  }

  /** So a challenge is asked for exactly when three failures of one of the two fall in one open window. */
  lemma ChallengeIffOpenWindow(log: seq<Op>, email: string, ip: Option<string>, now: int)
    requires ClockRuns(log) && NotAfter(log, now) && Sparse(log)
    ensures ReachedEither(Replay(log), email, ip, now)
            <==> OpenCount(Times(log, EmailKey(email)), now) >= THRESHOLD
                 || (Truthy(ip) && OpenCount(Times(log, IpKey(ip.value)), now) >= THRESHOLD)
  {
    CountIsOpenWindow(log, EmailKey(email), now);
    if Truthy(ip) {
      CountIsOpenWindow(log, IpKey(ip.value), now);
    }
  }

  /**
   * The window is fixed, not sliding: three failures in the last 15 minutes do not by themselves ask
   * for a challenge, because the first of them may belong to the window before.
   */
  lemma WindowDoesNotSlide(email: string)
    ensures var k := EmailKey(email);
            var log := [Bump(k, 0), Bump(k, 890_000), Bump(k, 900_001), Bump(k, 900_002)];
            && ClockRuns(log)
            && Failures(log, k, 900_003 - WINDOW_MS, 900_003) == 3
            && !ReachedEither(Replay(log), email, None, 900_003)
  {
    var k := EmailKey(email);
    var a, b, c, d := Bump(k, 0), Bump(k, 890_000), Bump(k, 900_001), Bump(k, 900_002);
    var log := [a, b, c, d];
    var lo, hi := 900_003 - WINDOW_MS, 900_003;
    assert log[..3] == [a, b, c] && [a, b, c][..2] == [a, b] && [a, b][..1] == [a] && [a][..0] == [];
    assert Replay([a]) == [Entry(k, 1, 0)];
    assert Replay([a, b]) == [Entry(k, 2, 0)];
    assert Without([Entry(k, 2, 0)], k) == [];
    assert Replay([a, b, c]) == [Entry(k, 1, 900_001)];
    assert Replay(log) == [Entry(k, 2, 900_001)];
    assert Failures([a], k, lo, hi) == 0;
    assert Failures([a, b], k, lo, hi) == 1;
    assert Failures([a, b, c], k, lo, hi) == 2;
  }

  // ─── The bound is needed ─────────────────────────────────────────────────────────

  function KeyNo(i: nat): Key {
    IpKey(seq(i + 1, _ => 'x'))
  }

  lemma KeysDiffer(i: nat, j: nat)
    requires i != j
    ensures KeyNo(i) != KeyNo(j)
  {
    assert |KeyNo(i).ip| != |KeyNo(j).ip|;
  }

  /** Three failures of `victim`, then one failure each of `n` other keys, all at once. */
  function Crowd(victim: Key, n: nat): seq<Op> {
    if n == 0 then [Bump(victim, 0), Bump(victim, 0), Bump(victim, 0)]
    else Crowd(victim, n - 1) + [Bump(KeyNo(n - 1), 0)]
  }

  function Held(n: nat): seq<Entry> {
    if n == 0 then [] else Held(n - 1) + [Entry(KeyNo(n - 1), 1, 0)]
  }

  function FirstKeys(n: nat): set<Key> {
    if n == 0 then {} else FirstKeys(n - 1) + {KeyNo(n - 1)}
  }

  lemma {:induction false} LaterIsNew(n: nat, m: nat)
    requires n <= m
    ensures KeyNo(m) !in FirstKeys(n) && forall k :: k in FirstKeys(n) ==> k.IpKey?
  {
    if n > 0 {
      LaterIsNew(n - 1, m);
      KeysDiffer(n - 1, m);
    }
  }

  lemma {:induction false} HeldKeys(n: nat)
    ensures |Held(n)| == n && forall e :: e in Held(n) ==> e.key in FirstKeys(n)
  {
    hide KeyNo;
    if n > 0 {
      HeldKeys(n - 1);
    }
  }

  lemma ThreeInMap(victim: Key)
    ensures Replay(Crowd(victim, 0)) == [Entry(victim, 3, 0)]
  {
    var b := Bump(victim, 0);
    assert [b, b, b] == [b, b] + [b] && [b, b] == [b] + [b] && [b] == [] + [b];
    hide Replay, AfterBump;
    FirstAlone(victim);
    ReplayOne([b], b);
    BumpAlone(victim, 1);
    ReplayOne([b, b], b);
    BumpAlone(victim, 2);
  }

  lemma FirstAlone(key: Key)
    ensures Replay([Bump(key, 0)]) == [Entry(key, 1, 0)]
  {
    assert [Bump(key, 0)][..0] == [];
    assert Find([], key).None?;
  }

  lemma BumpAlone(key: Key, n: nat)
    requires n > 0
    ensures AfterBump([Entry(key, n, 0)], key, 0) == [Entry(key, n + 1, 0)]
  {
    assert Find([Entry(key, n, 0)], key) == Some(Entry(key, n, 0));
    assert Recount([Entry(key, n, 0)], key, n + 1) == [Entry(key, n + 1, 0)];
  }

  lemma ThreeTimes(victim: Key)
    ensures Times(Crowd(victim, 0), victim) == [0, 0, 0]
  {
    var b := Bump(victim, 0);
    assert [b, b, b][..2] == [b, b] && [b, b][..1] == [b] && [b][..0] == [];
    assert Times([b], victim) == [] + [0] == [0];
    assert Times([b, b], victim) == [0] + [0] == [0, 0];
    assert Times([b, b, b], victim) == [0, 0] + [0] == [0, 0, 0];
  }

  lemma ThreeOfOneKey(victim: Key)
    ensures KeysIn(Crowd(victim, 0), 0) == {victim}
  {
    var b := Bump(victim, 0);
    assert [b, b, b][..2] == [b, b] && [b, b][..1] == [b] && [b][..0] == [];
    assert KeysIn([b], 0) == {victim} && KeysIn([b, b], 0) == {victim};
  }

  lemma {:induction false} CrowdAtOnce(victim: Key, n: nat)
    ensures forall op :: op in Crowd(victim, n) ==> op.Bump? && op.now == 0
    ensures ClockRuns(Crowd(victim, n)) && NotAfter(Crowd(victim, n), 0)
  {
    if n > 0 {
      CrowdAtOnce(victim, n - 1);
    }
    assert forall i :: 0 <= i < |Crowd(victim, n)| ==> Crowd(victim, n)[i] in Crowd(victim, n);
  }

  lemma CrowdGrows(victim: Key, n: nat)
    ensures Crowd(victim, n + 1) != [] && Crowd(victim, n + 1)[..|Crowd(victim, n + 1)| - 1] == Crowd(victim, n)
    ensures Crowd(victim, n + 1)[|Crowd(victim, n + 1)| - 1] == Bump(KeyNo(n), 0)
  {
  }

  lemma {:induction false} CrowdTimes(victim: Key, n: nat)
    requires victim.EmailKey?
    ensures Times(Crowd(victim, n), victim) == [0, 0, 0]
  {
    if n == 0 {
      ThreeTimes(victim);
    } else {
      CrowdTimes(victim, n - 1);
      CrowdGrows(victim, n - 1);
    }
  }

  lemma {:induction false} CrowdKeys(victim: Key, n: nat)
    ensures KeysIn(Crowd(victim, n), 0) == {victim} + FirstKeys(n)
  {
    if n == 0 {
      ThreeOfOneKey(victim);
    } else {
      CrowdKeys(victim, n - 1);
      CrowdGrows(victim, n - 1);
      hide Crowd, KeyNo;
    }
  }

  /** n + 1 keys in one window. */
  lemma {:induction false} CrowdSize(victim: Key, n: nat)
    requires victim.EmailKey?
    ensures |{victim} + FirstKeys(n)| == n + 1
  {
    hide KeyNo;
    LaterIsNew(n, n);
    if n > 0 {
      CrowdSize(victim, n - 1);
      LaterIsNew(n - 1, n - 1);
      assert {victim} + FirstKeys(n) == ({victim} + FirstKeys(n - 1)) + {KeyNo(n - 1)};
    }
  }

  lemma CrowdNew(victim: Key, n: nat)
    requires victim.EmailKey?
    ensures AfterBump([Entry(victim, 3, 0)] + Held(n), KeyNo(n), 0) == Opened([Entry(victim, 3, 0)] + Held(n), KeyNo(n), 0)
  {
    HeldKeys(n);
    LaterIsNew(n, n);
    var entries := [Entry(victim, 3, 0)] + Held(n);
    assert forall e :: e in entries ==> e.key != KeyNo(n);
    NotFoundIn(entries, KeyNo(n));
  }

  lemma {:induction false} CrowdFills(victim: Key, n: nat)
    requires victim.EmailKey? && n < MAX_KEYS
    ensures Replay(Crowd(victim, n)) == [Entry(victim, 3, 0)] + Held(n)
  {
    hide Crowd, Replay;
    if n == 0 {
      ThreeInMap(victim);
    } else {
      CrowdFills(victim, n - 1);
      CrowdStep(victim, n - 1);
      HeldKeys(n - 1);
      var entries := [Entry(victim, 3, 0)] + Held(n - 1);
      assert Evicted(entries) == entries;
      assert entries + [Entry(KeyNo(n - 1), 1, 0)] == [Entry(victim, 3, 0)] + Held(n);
    }
  }

  lemma CrowdStep(victim: Key, n: nat)
    requires victim.EmailKey? && Replay(Crowd(victim, n)) == [Entry(victim, 3, 0)] + Held(n)
    ensures Replay(Crowd(victim, n + 1)) == Evicted([Entry(victim, 3, 0)] + Held(n)) + [Entry(KeyNo(n), 1, 0)]
  {
    hide Replay, AfterBump, Evicted, Held;
    ReplayOne(Crowd(victim, n), Bump(KeyNo(n), 0));
    CrowdNew(victim, n);
  }

  /**
   * With one key more than the bound allows, an open window is lost: three failures just now, and no
   * challenge. So no larger bound would do.
   */
  lemma OneKeyTooMany(email: string, n: nat)
    requires n == MAX_KEYS
    ensures var victim := EmailKey(email);
            var log := Crowd(victim, n);
            && ClockRuns(log) && NotAfter(log, 0) && |KeysIn(log, 0)| == MAX_KEYS + 1
            && OpenCount(Times(log, victim), 0) == 3
            && !ReachedEither(Replay(log), email, None, 0)
  {
    var victim := EmailKey(email);
    hide Crowd, Replay, Times, KeysIn, ClockRuns, NotAfter, Held, FirstKeys, KeyNo;
    CrowdAtOnce(victim, n);
    CrowdTimes(victim, n);
    CrowdKeys(victim, n);
    CrowdSize(victim, n);
    OpenThree();
    CrowdOverflows(victim, n);
    HeldKeys(n);
    LaterIsNew(n, n);
    NotFoundIn(Held(n), victim);
  }

  lemma CrowdOverflows(victim: Key, n: nat)
    requires victim.EmailKey? && n == MAX_KEYS
    ensures Replay(Crowd(victim, n)) == Held(n)
  {
    hide Crowd, Replay;
    CrowdFills(victim, n - 1);
    CrowdStep(victim, n - 1);
    HeldKeys(n - 1);
    assert ([Entry(victim, 3, 0)] + Held(n - 1))[1..] == Held(n - 1);
  }

  lemma OpenThree()
    ensures OpenCount([0, 0, 0], 0) == 3
  {
    assert [0, 0, 0][1..] == [0, 0] && [0, 0][1..] == [0] && [0][1..] == [];
    assert Within([0], 0) == 1 && Within([0, 0], 0) == 2;
  }
}

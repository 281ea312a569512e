/** Failed logins by address and by client: src/auth/login-failure-tracker.service.ts. */
module LoginFailures {
  import opened Wrappers

  const MAX_KEYS := 50_000
  const WINDOW_MS := 15 * 60_000
  const THRESHOLD := 3

  /** The address is the normalised one; its digest stands for it. */
  datatype Key = EmailKey(address: string) | IpKey(ip: string)

  function KeyOfIp(ip: Option<string>): Option<Key> {
    if Truthy(ip) then Some(IpKey(ip.value)) else None
  }

  datatype Entry = Entry(key: Key, count: nat, firstAt: int)

  // ─── The map, in insertion order ─────────────────────────────────────────────────

  ghost predicate Unique(entries: seq<Entry>) {
    forall i, j :: 0 <= i < j < |entries| ==> entries[i].key != entries[j].key
  }

  /** Oldest window first. */
  ghost predicate Ordered(entries: seq<Entry>) {
    forall i, j :: 0 <= i < j < |entries| ==> entries[i].firstAt <= entries[j].firstAt
  }

  function Find(entries: seq<Entry>, key: Key): (found: Option<Entry>)
    ensures found.Some? ==> found.value in entries && found.value.key == key
    ensures found.None? ==> forall e :: e in entries ==> e.key != key
  {
    if entries == [] then None else if entries[0].key == key then Some(entries[0]) else Find(entries[1..], key)
  }

  /** `entries.delete(key)`. */
  function Without(entries: seq<Entry>, key: Key): (rest: seq<Entry>)
    ensures forall e :: e in rest <==> e in entries && e.key != key
    ensures |rest| <= |entries|
  {
    if entries == [] then []
    else
      assert entries == [entries[0]] + entries[1..];
      (if entries[0].key == key then [] else [entries[0]]) + Without(entries[1..], key)
  }

  function Recounted(e: Entry, key: Key, count: nat): Entry {
    if e.key == key then e.(count := count) else e
  }

  /** A changed entry keeps its place. */
  function Recount(entries: seq<Entry>, key: Key, count: nat): (out: seq<Entry>)
    ensures |out| == |entries|
    ensures forall i :: 0 <= i < |entries| ==> out[i] == Recounted(entries[i], key, count)
  {
    seq(|entries|, i requires 0 <= i < |entries| => Recounted(entries[i], key, count))
  }

  // ─── What a call does to it ────────────────────────────────────────────────────────

  predicate Expired(e: Entry, now: int) {
    now - e.firstAt > WINDOW_MS
  }

  /** The count `read` returns. */
  function CountAt(entries: seq<Entry>, key: Key, now: int): nat {
    var found := Find(entries, key);
    if found.None? || Expired(found.value, now) then 0 else found.value.count
  }

  function AfterRead(entries: seq<Entry>, key: Key, now: int): seq<Entry> {
    var found := Find(entries, key);
    if found.Some? && Expired(found.value, now) then Without(entries, key) else entries
  }

  /** Room for one more: the oldest insertion goes when the map is full. */
  function Evicted(entries: seq<Entry>): (rest: seq<Entry>)
    ensures |rest| < MAX_KEYS || |rest| == |entries| - 1
  {
    if |entries| >= MAX_KEYS then entries[1..] else entries
  }

  function AfterBump(entries: seq<Entry>, key: Key, now: int): seq<Entry> {
    var left := AfterRead(entries, key, now);
    var count := CountAt(entries, key, now);
    if count == 0 then Evicted(left) + [Entry(key, 1, now)] else Recount(left, key, count + 1)
  }

  /** One step on one key: a failure is counted, a count is read, a key is forgotten. */
  datatype Op = Bump(key: Key, now: int) | Read(key: Key, now: int) | Drop(key: Key)

  function After(entries: seq<Entry>, op: Op): seq<Entry> {
    match op
    case Bump(key, now) => AfterBump(entries, key, now)
    case Read(key, now) => AfterRead(entries, key, now)
    case Drop(key) => Without(entries, key)
  }

  /** The map after a whole history. */
  function Replay(log: seq<Op>): seq<Entry> {
    if log == [] then [] else After(Replay(log[..|log| - 1]), log[|log| - 1])
  }

  lemma ReplayOne(log: seq<Op>, op: Op)
    ensures Replay(log + [op]) == After(Replay(log), op)
  {
    assert (log + [op])[..|log|] == log;
  }

  lemma ReplayBump(log: seq<Op>, key: Key, now: int)
    ensures var entries := Replay(log);
            var left, count := AfterRead(entries, key, now), CountAt(entries, key, now);
            Replay(log + [Bump(key, now)])
            == if count == 0 then Evicted(left) + [Entry(key, 1, now)] else Recount(left, key, count + 1)
  {
    hide AfterRead, CountAt, Recount, Evicted, Replay;
    ReplayOne(log, Bump(key, now));
  }

  /** Nothing happens for a client without an address. */
  function BumpOps(key: Option<Key>, now: int): seq<Op> {
    if key.None? then [] else [Bump(key.value, now)]
  }

  function ReadOps(key: Option<Key>, now: int): seq<Op> {
    if key.None? then [] else [Read(key.value, now)]
  }

  /** The steps of `recordFailure`. */
  function FailureOps(email: string, ip: Option<string>, now: int): seq<Op> {
    [Bump(EmailKey(email), now)] + BumpOps(KeyOfIp(ip), now)
  }

  /** The steps of `requiresChallenge`: the client's count is read only if the address's is below the threshold. */
  function CheckOps(entries: seq<Entry>, email: string, ip: Option<string>, now: int): seq<Op> {
    [Read(EmailKey(email), now)]
    + if Reached(entries, EmailKey(email), now) then [] else ReadOps(KeyOfIp(ip), now)
  }

  predicate Reached(entries: seq<Entry>, key: Key, now: int) {
    CountAt(entries, key, now) >= THRESHOLD
  }

  predicate ReachedEither(entries: seq<Entry>, email: string, ip: Option<string>, now: int) {
    Reached(entries, EmailKey(email), now) || (Truthy(ip) && Reached(entries, IpKey(ip.value), now))
  }

  // ─── The service ─────────────────────────────────────────────────────────────────

  class LoginFailureTracker {
    var entries: seq<Entry>
    /** Everything that ever happened to the map. */
    ghost var log: seq<Op>

    ghost predicate Valid()
      reads this
    {
      entries == Replay(log)
    }

    constructor ()
      ensures Valid() && log == []
    {
      entries, log := [], [];
    }

    method ReadKey(key: Option<Key>, now: int) returns (count: nat)
      requires Valid()
      modifies this
      ensures Valid() && log == old(log) + ReadOps(key, now)
      ensures count == if key.None? then 0 else CountAt(old(entries), key.value, now)
      ensures key.Some? ==> entries == AfterRead(old(entries), key.value, now)
    {
      if key.None? {
        return 0;
      }
      ReplayOne(log, Read(key.value, now));
      log := log + [Read(key.value, now)];
      var found := Find(entries, key.value);
      if found.None? {
        return 0;
      }
      if Expired(found.value, now) {
        entries := Without(entries, key.value);
        return 0;
      }
      return found.value.count;
    }

    method BumpKey(key: Option<Key>, now: int)
      requires Valid()
      modifies this
      ensures Valid() && log == old(log) + BumpOps(key, now)
    {
      if key.Some? {
        BumpPresent(key.value, now);
      } else {
        assert log + BumpOps(key, now) == log;
      }
    }

    method BumpPresent(key: Key, now: int)
      requires Valid()
      modifies this
      ensures Valid() && log == old(log) + [Bump(key, now)]
    {
      hide After, AfterBump, AfterRead, CountAt, Recount, Evicted, Replay;
      ghost var before := log;
      var count := ReadKey(Some(key), now);
      CountFailure(key, count, now);
      ReplayBump(before, key, now);
      log := before + [Bump(key, now)];
    }

    method CountFailure(key: Key, count: nat, now: int)
      modifies `entries
      ensures entries
              == if count == 0 then Evicted(old(entries)) + [Entry(key, 1, now)] else Recount(old(entries), key, count + 1)
    {
      if count == 0 {
        if |entries| >= MAX_KEYS {
          entries := entries[1..];
        }
        entries := entries + [Entry(key, 1, now)];
      } else {
        entries := Recount(entries, key, count + 1);
      }
    }

    method RequiresChallenge(email: string, ip: Option<string>, now: int) returns (needed: bool)
      requires Valid()
      modifies this
      ensures Valid() && log == old(log) + CheckOps(old(entries), email, ip, now)
      ensures needed <==> ReachedEither(old(entries), email, ip, now)
    {
      var byEmail := ReadKey(Some(EmailKey(email)), now);
      if byEmail >= THRESHOLD {
        return true;
      }
      ReadLeavesOthers(old(entries), EmailKey(email), KeyOfIp(ip).GetOr(EmailKey(email)), now);
      var byIp := ReadKey(KeyOfIp(ip), now);
      return byIp >= THRESHOLD;
    }

    method RecordFailure(email: string, ip: Option<string>, now: int)
      requires Valid()
      modifies this
      ensures Valid() && log == old(log) + FailureOps(email, ip, now)
    {
      BumpKey(Some(EmailKey(email)), now);
      BumpKey(KeyOfIp(ip), now);
    }

    method RecordSuccess(email: string)
      requires Valid()
      modifies this
      ensures Valid() && log == old(log) + [Drop(EmailKey(email))]
    {
      entries := Without(entries, EmailKey(email));
      ReplayOne(log, Drop(EmailKey(email)));
      log := log + [Drop(EmailKey(email))];
    }
  }

  /** Forgetting one key leaves what is found for another. */
  lemma {:induction false} FindOther(entries: seq<Entry>, key: Key, other: Key)
    requires key != other
    ensures Find(Without(entries, key), other) == Find(entries, other)
  {
    if entries != [] {
      FindOther(entries[1..], key, other);
      if entries[0].key != key {
        assert Without(entries, key) == [entries[0]] + Without(entries[1..], key);
        assert Without(entries, key)[1..] == Without(entries[1..], key);
      } else {
        assert Without(entries, key) == Without(entries[1..], key);
      }
    }
  }

  lemma ReadLeavesOthers(entries: seq<Entry>, key: Key, other: Key, now: int)
    ensures key != other ==> CountAt(AfterRead(entries, key, now), other, now) == CountAt(entries, other, now)
  {
    if key != other {
      FindOther(entries, key, other);
    }
  }
}

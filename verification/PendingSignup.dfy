/** Social signups that wait for their details: src/auth/pending-social-signup.service.ts. */
module PendingSignup {
  import opened Wrappers

  const TTL_MS := 15 * 60 * 1000

  datatype Role = Customer | Artisan

  datatype Signup = Signup(email: string, provider: string, providerId: string, suggestedRole: Option<Role>)

  datatype Entry = Entry(signup: Signup, createdAt: int)

  predicate Expired(e: Entry, now: int) {
    now - e.createdAt > TTL_MS
  }

  // ─── What each call makes of the map ─────────────────────────────────────────────

  function Swept(entries: map<string, Entry>, now: int): map<string, Entry> {
    map k | k in entries && !Expired(entries[k], now) :: entries[k]
  }

  /** What `peek` and `take` return. */
  function Seen(entries: map<string, Entry>, key: string, now: int): Option<Entry> {
    if key in entries && !Expired(entries[key], now) then Some(entries[key]) else None
  }

  function AfterPeek(entries: map<string, Entry>, key: string, now: int): map<string, Entry> {
    if key in entries && Expired(entries[key], now) then entries - {key} else entries
  }

  function AfterRestore(entries: map<string, Entry>, key: string, e: Entry, now: int): map<string, Entry> {
    if Expired(e, now) then entries else entries[key := e]
  }

  class PendingSocialSignupService {
    var entries: map<string, Entry>

    constructor ()
      ensures entries == map[]
    {
      entries := map[];
    }

    method CleanupExpired(now: int)
      modifies this
      ensures entries == Swept(old(entries), now)
    {
      var keys := entries.Keys;
      while keys != {}
        invariant keys <= old(entries).Keys
        invariant forall k :: k in entries <==> k in old(entries) && (k in keys || !Expired(old(entries)[k], now))
        invariant forall k :: k in entries ==> entries[k] == old(entries)[k]
        decreases |keys|
      {
        var k :| k in keys;
        if Expired(entries[k], now) {
          entries := entries - {k};
        }
        keys := keys - {k};
      }
    }

    /** The key is drawn at random by the source. */
    method Create(key: string, signup: Signup, now: int)
      modifies this
      ensures entries == Swept(old(entries), now)[key := Entry(signup, now)]
    {
      CleanupExpired(now);
      entries := entries[key := Entry(signup, now)];
    }

    method Peek(key: Option<string>, now: int) returns (found: Option<Entry>)
      modifies this
      ensures !Truthy(key) ==> found.None? && entries == old(entries)
      ensures Truthy(key) ==>
                found == Seen(old(entries), key.value, now) && entries == AfterPeek(old(entries), key.value, now)
    {
      if !Truthy(key) || key.value !in entries {
        return None;
      }
      var entry := entries[key.value];
      if Expired(entry, now) {
        entries := entries - {key.value};
        return None;
      }
      return Some(entry);
    }

    method Take(key: Option<string>, now: int) returns (found: Option<Entry>)
      modifies this
      ensures !Truthy(key) ==> found.None? && entries == old(entries)
      ensures Truthy(key) ==> found == Seen(old(entries), key.value, now) && entries == old(entries) - {key.value}
    {
      found := Peek(key, now);
      if found.Some? {
        entries := entries - {key.value};
      }
      assert Truthy(key) ==> entries == old(entries) - {key.value};
    }

    method Restore(key: string, entry: Entry, now: int)
      modifies this
      ensures entries == AfterRestore(old(entries), key, entry, now)
    {
      if Expired(entry, now) {
        return;
      }
      entries := entries[key := entry];
    }

    method Discard(key: Option<string>)
      modifies this
      ensures entries == if Truthy(key) then old(entries) - {key.value} else old(entries)
    {
      if Truthy(key) {
        entries := entries - {key.value};
      }
    }
  }

  // ─── The client ──────────────────────────────────────────────────────────────────

  datatype CompletionError = SignupExpired | RoleRequired | ServicesNotFound | EmailAlreadyExists | RegistrationFailed

  /** What the world answers during one completion: the other services, and the clock at each use of the store. */
  datatype Answers = Answers(
    servicesExist: bool, emailRegistered: bool, registers: bool, peekedAt: int, takenAt: int, restoredAt: int)

  predicate Alive(entries: map<string, Entry>, key: Option<string>, now: int) {
    Truthy(key) && key.value in entries && !Expired(entries[key.value], now)
  }

  /** The first thing that stands in the way, or the account to make and its role. */
  function Outcome(entries: map<string, Entry>, key: Option<string>, role: Option<Role>, chosenServices: bool, a: Answers)
    : Result<(Signup, Role), CompletionError>
  {
    if !Alive(entries, key, a.peekedAt) then Err(SignupExpired)
    else
      var signup := entries[key.value].signup;
      var chosen := if role.Some? then role else signup.suggestedRole;
      if chosen.None? then Err(RoleRequired)
      else if chosen.value.Artisan? && chosenServices && !a.servicesExist then Err(ServicesNotFound)
      else if !Alive(entries, key, a.takenAt) then Err(SignupExpired)
      else if a.emailRegistered then Err(EmailAlreadyExists)
      else if !a.registers then Err(RegistrationFailed)
      else Ok((signup, chosen.value))
  }

  /**
   * `completeSocialSignup` with no other call in between. A mistake that the user can correct leaves the
   * signup where it was, unless it has expired meanwhile; only success and a registered address use it up.
   */
  method CompleteSocialSignup(
      store: PendingSocialSignupService, key: Option<string>, role: Option<Role>, chosenServices: bool, a: Answers)
    returns (r: Result<(Signup, Role), CompletionError>)
    modifies store
    ensures r == Outcome(old(store.entries), key, role, chosenServices, a)
    ensures r == Err(RoleRequired) || r == Err(ServicesNotFound) ==> store.entries == old(store.entries)
    ensures r.Ok? || r == Err(EmailAlreadyExists) ==> store.entries == old(store.entries) - {key.GetOr("")}
    ensures r == Err(RegistrationFailed) ==>
              && Alive(old(store.entries), key, a.takenAt)
              && store.entries == if Expired(old(store.entries)[key.value], a.restoredAt) then old(store.entries) - {key.value}
                                  else old(store.entries)
    ensures r == Err(SignupExpired) ==>
              && !(Alive(old(store.entries), key, a.peekedAt) && Alive(old(store.entries), key, a.takenAt))
              && (store.entries == old(store.entries) || store.entries == old(store.entries) - {key.GetOr("")})
  {
    var peeked := store.Peek(key, a.peekedAt);
    if peeked.None? {
      return Err(SignupExpired);
    }
    var chosen := if role.Some? then role else peeked.value.signup.suggestedRole;
    if chosen.None? {
      return Err(RoleRequired);
    }
    if chosen.value.Artisan? && chosenServices && !a.servicesExist {
      return Err(ServicesNotFound);
    }
    var pending := store.Take(key, a.takenAt);
    if pending.None? {
      return Err(SignupExpired);
    }
    if a.emailRegistered {
      return Err(EmailAlreadyExists);
    }
    if !a.registers {
      store.Restore(key.value, pending.value, a.restoredAt);
      assert old(store.entries)[key.value := pending.value] == old(store.entries);
      assert (old(store.entries) - {key.value})[key.value := pending.value] == old(store.entries);
      return Err(RegistrationFailed);
    }
    return Ok((pending.value.signup, chosen.value));
  }
}

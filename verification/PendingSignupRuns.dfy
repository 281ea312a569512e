/**
 * A pending signup is a token that is used at most once: any number of completions of one key run at
 * once, each in the steps between which `completeSocialSignup` waits, together with new signups,
 * cancellations, other looks, the passing of time and restarts of the process.
 */
module PendingSignupRuns {
  import opened Wrappers
  import opened PendingSignup

  /** A completion: about to look, past the checks before `take`, holding what it took, or over. */
  datatype Flow = Started(key: string) | Looked(key: string) | Holding(key: string, entry: Entry) | Over

  datatype Account = Account(key: string, entry: Entry)

  /** `born` remembers every signup ever stored, as it was stored. */
  datatype World = World(
    now: int, store: map<string, Entry>, flows: map<nat, Flow>, accounts: seq<Account>, born: map<string, Entry>)

  datatype Step =
    | Create(newKey: string, signup: Signup)
    | Begin(f: nat, key: string)
    | Look(f: nat)
    | Reject(f: nat)
    | Take(f: nat)
    | Refuse(f: nat)
    | Register(f: nat)
    | FailToRegister(f: nat)
    | Cancel(key: string)
    | Peek(key: string)
    | Wait(ms: nat)
    | Restart

  predicate Enabled(w: World, step: Step) {
    match step
    case Create(key, _) => key !in w.born
    case Begin(f, _) => f !in w.flows
    case Look(f) => f in w.flows && w.flows[f].Started?
    case Reject(f) => f in w.flows && w.flows[f].Looked?
    case Take(f) => f in w.flows && w.flows[f].Looked?
    case Refuse(f) => f in w.flows && w.flows[f].Holding?
    case Register(f) => f in w.flows && w.flows[f].Holding?
    case FailToRegister(f) => f in w.flows && w.flows[f].Holding?
    case Cancel(_) => true
    case Peek(_) => true
    case Wait(_) => true
    case Restart => true
  }

  function Goto(w: World, f: nat, flow: Flow): World {
    w.(flows := w.flows[f := flow])
  }

  function Apply(w: World, step: Step): World
    requires Enabled(w, step)
  {
    match step
    case Create(key, signup) =>
      var e := Entry(signup, w.now);
      w.(store := Swept(w.store, w.now)[key := e], born := w.born[key := e])
    case Begin(f, key) => Goto(w, f, Started(key))
    case Look(f) =>
      var key := w.flows[f].key;
      Goto(w, f, if Seen(w.store, key, w.now).Some? then Looked(key) else Over).(store := AfterPeek(w.store, key, w.now))
    case Reject(f) => Goto(w, f, Over)
    case Take(f) =>
      var key := w.flows[f].key;
      var seen := Seen(w.store, key, w.now);
      Goto(w, f, if seen.Some? then Holding(key, seen.value) else Over).(store := w.store - {key})
    case Refuse(f) => Goto(w, f, Over)
    case Register(f) =>
      Goto(w, f, Over).(accounts := w.accounts + [Account(w.flows[f].key, w.flows[f].entry)])
    case FailToRegister(f) =>
      Goto(w, f, Over).(store := AfterRestore(w.store, w.flows[f].key, w.flows[f].entry, w.now))
    case Cancel(key) => w.(store := w.store - {key})
    case Peek(key) => w.(store := AfterPeek(w.store, key, w.now))
    case Wait(ms) => w.(now := w.now + ms)
    case Restart => w.(store := map[], flows := map[])
  }

  // ─── The token ───────────────────────────────────────────────────────────────────

  predicate Holds(flow: Flow, key: string) {
    flow.Holding? && flow.key == key
  }

  function Holders(flows: map<nat, Flow>, key: string): set<nat> {
    set f | f in flows && Holds(flows[f], key)
  }

  function AccountsOf(accounts: seq<Account>, key: string): nat {
    if accounts == [] then 0
    else AccountsOf(accounts[..|accounts| - 1], key) + (if accounts[|accounts| - 1].key == key then 1 else 0)
  }

  /** Where the signup of a key is: in the store, with a completion, or turned into an account. */
  function Tokens(w: World, key: string): nat {
    (if key in w.store then 1 else 0) + |Holders(w.flows, key)| + AccountsOf(w.accounts, key)
  }

  lemma HoldersChange(flows: map<nat, Flow>, f: nat, flow: Flow, key: string)
    ensures |Holders(flows[f := flow], key)|
            == |Holders(flows, key)| - (if f in flows && Holds(flows[f], key) then 1 else 0) + (if Holds(flow, key) then 1 else 0)
  {
    var held, heldAfter := Holders(flows, key), Holders(flows[f := flow], key);
    assert held - {f} == heldAfter - {f} by {
      forall g ensures g in held - {f} <==> g in heldAfter - {f} {
      }
    }
    SizeWithout(held, f);
    SizeWithout(heldAfter, f);
  }

  lemma SizeWithout(s: set<nat>, f: nat)
    ensures |s| == |s - {f}| + if f in s then 1 else 0
  {
    assert f in s ==> s == (s - {f}) + {f};
    assert f !in s ==> s - {f} == s;
  }

  lemma AccountsGrow(accounts: seq<Account>, a: Account, key: string)
    ensures AccountsOf(accounts + [a], key) == AccountsOf(accounts, key) + (if a.key == key then 1 else 0)
  {
    assert (accounts + [a])[..|accounts|] == accounts;
  }

  /** The flow a step moves. */
  function FlowOf(step: Step): Option<nat> {
    match step
    case Begin(f, _) => Some(f)
    case Look(f) => Some(f)
    case Reject(f) => Some(f)
    case Take(f) => Some(f)
    case Refuse(f) => Some(f)
    case Register(f) => Some(f)
    case FailToRegister(f) => Some(f)
    case Create(_, _) => None
    case Cancel(_) => None
    case Peek(_) => None
    case Wait(_) => None
    case Restart => None
  }

  /** No step makes a second token; only the first storing of a key makes one at all. */
  lemma TokensNeverGrow(w: World, step: Step, key: string)
    requires Enabled(w, step)
    ensures Tokens(Apply(w, step), key) <= Tokens(w, key) + (if step.Create? && step.newKey == key then 1 else 0)
    ensures AccountsOf(Apply(w, step).accounts, key) >= AccountsOf(w.accounts, key)
  {
    var after := Apply(w, step);
    var f := FlowOf(step);
    if f.Some? {
      HoldersChange(w.flows, f.value, after.flows[f.value], key);
    }
    if step.Register? {
      AccountsGrow(w.accounts, Account(w.flows[step.f].key, w.flows[step.f].entry), key);
    }
    if step.Restart? {
      assert Holders(after.flows, key) == {};
    }
  }

  /** Wherever a signup is, it is the one that was stored. */
  ghost predicate Original(w: World) {
    && (forall k :: k in w.store ==> k in w.born && w.store[k] == w.born[k])
    && (forall f :: f in w.flows && w.flows[f].Holding? ==>
          w.flows[f].key in w.born && w.flows[f].entry == w.born[w.flows[f].key])
    && (forall a :: a in w.accounts ==> a.key in w.born && a.entry == w.born[a.key])
  }

  ghost predicate Inv(w: World) {
    && Original(w)
    && forall key :: Tokens(w, key) <= if key in w.born then 1 else 0
  }

  lemma StepKeepsOriginal(w: World, step: Step)
    requires Enabled(w, step) && Original(w)
    ensures Original(Apply(w, step))
  {
  }

  lemma StepKeepsInv(w: World, step: Step)
    requires Enabled(w, step) && Inv(w)
    ensures Inv(Apply(w, step))
  {
    StepKeepsOriginal(w, step);
    var after := Apply(w, step);
    forall key ensures Tokens(after, key) <= if key in after.born then 1 else 0 {
      TokensNeverGrow(w, step, key);
      assert Tokens(w, key) <= if key in w.born then 1 else 0;
    }
  }

  // ─── Whole runs ──────────────────────────────────────────────────────────────────

  ghost predicate Valid(states: seq<World>, steps: seq<Step>) {
    && |states| == |steps| + 1
    && states[0].store == map[] && states[0].flows == map[] && states[0].accounts == [] && states[0].born == map[]
    && forall i :: 0 <= i < |steps| ==> Enabled(states[i], steps[i]) && states[i + 1] == Apply(states[i], steps[i])
  }

  lemma {:induction false} InvHolds(states: seq<World>, steps: seq<Step>, n: nat)
    requires Valid(states, steps) && n < |states|
    ensures Inv(states[n])
  {
    if n == 0 {
      forall key ensures Tokens(states[0], key) == 0 {
        assert Holders(states[0].flows, key) == {};
      }
    } else {
      InvHolds(states, steps, n - 1);
      StepKeepsInv(states[n - 1], steps[n - 1]);
    }
  }

  /** In store, held, or an account: at most one of them, once. */
  lemma TokenIsLinear(states: seq<World>, steps: seq<Step>, n: nat, key: string)
    requires Valid(states, steps) && n < |states|
    ensures (if key in states[n].store then 1 else 0) + |Holders(states[n].flows, key)|
            + AccountsOf(states[n].accounts, key) <= 1
  {
    InvHolds(states, steps, n);
    assert Tokens(states[n], key) <= 1;
  }

  lemma {:induction false} AccountsStay(states: seq<World>, steps: seq<Step>, m: nat, n: nat, key: string)
    requires Valid(states, steps) && m <= n < |states|
    ensures AccountsOf(states[m].accounts, key) <= AccountsOf(states[n].accounts, key)
    decreases n - m
  {
    hide Apply, Enabled, Tokens;
    if m < n {
      AccountsStay(states, steps, m, n - 1, key);
      TokensNeverGrow(states[n - 1], steps[n - 1], key);
    }
  }

  /** Once a signup has become an account, nothing brings it back: no later completion holds it or finds it. */
  lemma SpentForEver(states: seq<World>, steps: seq<Step>, m: nat, n: nat, key: string)
    requires Valid(states, steps) && m <= n < |states| && AccountsOf(states[m].accounts, key) > 0
    ensures key !in states[n].store && Holders(states[n].flows, key) == {} && AccountsOf(states[n].accounts, key) == 1
  {
    AccountsStay(states, steps, m, n, key);
    TokenIsLinear(states, steps, n, key);
    assert |Holders(states[n].flows, key)| == 0;
  }

  /** The time of `createdAt` is the time of the one step that stored the signup. */
  lemma {:induction false} BornOnce(states: seq<World>, steps: seq<Step>, n: nat, key: string) returns (i: nat)
    requires Valid(states, steps) && n < |states| && key in states[n].born
    ensures i < n && steps[i].Create? && steps[i].newKey == key
    ensures states[n].born[key] == Entry(steps[i].signup, states[i].now)
  {
    var w, step := states[n - 1], steps[n - 1];
    if step.Create? && step.newKey == key {
      i := n - 1;
    } else {
      assert key in w.born && w.born[key] == states[n].born[key];
      i := BornOnce(states, steps, n - 1, key);
    }
  }

  /**
   * However often it was restored, a signup is taken only within 15 minutes of the step that first stored
   * it, and as it was stored then.
   */
  lemma TakenInTime(states: seq<World>, steps: seq<Step>, n: nat, f: nat) returns (i: nat)
    requires Valid(states, steps) && n < |steps|
    requires steps[n] == Take(f) && states[n + 1].flows[f].Holding?
    ensures i < n && steps[i].Create? && steps[i].newKey == states[n].flows[f].key
    ensures states[n + 1].flows[f].entry == Entry(steps[i].signup, states[i].now)
    ensures states[n].now <= states[i].now + TTL_MS
  {
    InvHolds(states, steps, n);
    i := BornOnce(states, steps, n, states[n].flows[f].key);
  }

  /** The same bound for every look that finds something, in a completion or outside one. */
  lemma SeenInTime(states: seq<World>, steps: seq<Step>, n: nat, key: string) returns (i: nat)
    requires Valid(states, steps) && n < |states| && Seen(states[n].store, key, states[n].now).Some?
    ensures i < n && steps[i].Create? && steps[i].newKey == key
    ensures Seen(states[n].store, key, states[n].now) == Some(Entry(steps[i].signup, states[i].now))
    ensures states[n].now <= states[i].now + TTL_MS
  {
    InvHolds(states, steps, n);
    i := BornOnce(states, steps, n, key);
  }

  /** An account carries the signup that was stored under its key. */
  lemma AccountsAreFaithful(states: seq<World>, steps: seq<Step>, n: nat, a: Account) returns (i: nat)
    requires Valid(states, steps) && n < |states| && a in states[n].accounts
    ensures i < n && steps[i] == Create(a.key, a.entry.signup) && a.entry.createdAt == states[i].now
  {
    InvHolds(states, steps, n);
    i := BornOnce(states, steps, n, a.key);
  }

  /** After a failed registration the signup can be taken again, just until it expires. */
  lemma RetryWorks(states: seq<World>, steps: seq<Step>, n: nat, f: nat)
    requires Valid(states, steps) && n < |steps| && steps[n] == FailToRegister(f)
    ensures var key, e := states[n].flows[f].key, states[n].flows[f].entry;
            Seen(states[n + 1].store, key, states[n + 1].now)
            == if states[n].now <= e.createdAt + TTL_MS then Some(e) else None
  {
    TokenIsLinear(states, steps, n, states[n].flows[f].key);
    assert f in Holders(states[n].flows, states[n].flows[f].key);
    assert |Holders(states[n].flows, states[n].flows[f].key)| >= 1 by {
      assert Holders(states[n].flows, states[n].flows[f].key) != {};
    }
  }
}

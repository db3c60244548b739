/**
 * The per-resource circuit breaker of common/middleware/circuit_breaker.go.
 *
 * The Redis client the breaker talks to is replaced by an in-memory counter
 * store (a map from key to integer) owned by the breaker; the wall clock is an
 * explicit `now` argument, in nanoseconds, as Go's time.Duration counts.
 *
 * The module has two layers: value-level step functions (AllowStep,
 * RecordStep, SetStateStep) whose contracts state the breaker's rules, and the
 * class CircuitBreaker whose methods update fields step by step as the Go
 * methods do and are proved to agree with the step functions.
 */
module Breaker {
  import opened Wrappers

  /** The three breaker states, in the order of their Go iota values. */
  datatype State = Closed | HalfOpen | Open

  /** One second as a time.Duration (nanoseconds). */
  const Second: int := 1_000_000_000

  const DefaultFailureThreshold: int := 5
  const DefaultHalfOpenTimeout: int := 30 * Second
  const DefaultWindowSize: int := 10 * Second
  const DefaultSuccessThreshold: int := 2
  const DefaultRedisKeyPrefix: string := "circuit_breaker:"

  // ---------------------------------------------------------------------
  // Configuration and the functional options of NewCircuitBreaker
  // ---------------------------------------------------------------------

  /** The four tunable fields of a breaker. */
  datatype Config = Config(
    failureThreshold: int,
    successThreshold: int,
    halfOpenTimeout: int,
    windowSize: int)

  const DefaultConfig: Config :=
    Config(DefaultFailureThreshold, DefaultSuccessThreshold, DefaultHalfOpenTimeout, DefaultWindowSize)

  /** The Option constructors WithFailureThreshold .. WithWindowSize. */
  datatype Setting =
    | WithFailureThreshold(threshold: int)
    | WithSuccessThreshold(threshold: int)
    | WithHalfOpenTimeout(timeout: int)
    | WithWindowSize(size: int)

  /** Names of the configurable fields, so one lemma can speak of all four. */
  datatype Field = FailureThresholdField | SuccessThresholdField | HalfOpenTimeoutField | WindowSizeField

  /** The field a setting overwrites. */
  function Target(o: Setting): Field {
    match o
    case WithFailureThreshold(_) => FailureThresholdField
    case WithSuccessThreshold(_) => SuccessThresholdField
    case WithHalfOpenTimeout(_) => HalfOpenTimeoutField
    case WithWindowSize(_) => WindowSizeField
  }

  /** The value a setting writes. */
  function Value(o: Setting): int {
    match o
    case WithFailureThreshold(t) => t
    case WithSuccessThreshold(t) => t
    case WithHalfOpenTimeout(t) => t
    case WithWindowSize(s) => s
  }

  /** Reads one field of a configuration. */
  function FieldOf(c: Config, f: Field): int {
    match f
    case FailureThresholdField => c.failureThreshold
    case SuccessThresholdField => c.successThreshold
    case HalfOpenTimeoutField => c.halfOpenTimeout
    case WindowSizeField => c.windowSize
  }

  /** Applies one option to a configuration, as the closure it stands for does. */
  function Apply(c: Config, o: Setting): Config {
    match o
    case WithFailureThreshold(t) => c.(failureThreshold := t)
    case WithSuccessThreshold(t) => c.(successThreshold := t)
    case WithHalfOpenTimeout(t) => c.(halfOpenTimeout := t)
    case WithWindowSize(s) => c.(windowSize := s)
  }

  /** Applies the options in order, as the loop in NewCircuitBreaker does. */
  function ApplyAll(c: Config, opts: seq<Setting>): Config
    decreases |opts|
  {
    if opts == [] then c else Apply(ApplyAll(c, opts[..|opts| - 1]), opts[|opts| - 1])
  }

  /** A field that no option names keeps the value it had before the options ran. */
  lemma {:induction false} UntouchedFieldKeepsValue(c: Config, opts: seq<Setting>, f: Field)
    requires forall i :: 0 <= i < |opts| ==> Target(opts[i]) != f
    ensures FieldOf(ApplyAll(c, opts), f) == FieldOf(c, f)
    decreases |opts|
  {
    if opts != [] {
      var init := opts[..|opts| - 1];
      assert forall i :: 0 <= i < |init| ==> init[i] == opts[i];
      UntouchedFieldKeepsValue(c, init, f);
    }
  }

  /** The last option that names a field decides that field's value. */
  lemma {:induction false} LastSettingWins(c: Config, opts: seq<Setting>, j: nat)
    requires j < |opts|
    requires forall i :: j < i < |opts| ==> Target(opts[i]) != Target(opts[j])
    ensures FieldOf(ApplyAll(c, opts), Target(opts[j])) == Value(opts[j])
    decreases |opts|
  {
    var init := opts[..|opts| - 1];
    if j < |opts| - 1 {
      assert forall i :: j < i < |init| ==> init[i] == opts[i];
      LastSettingWins(c, init, j);
    }
  }

  // ---------------------------------------------------------------------
  // Counter store and key schema
  // ---------------------------------------------------------------------

  /** The shared key/value store, restricted to integer values. */
  type Store = map<string, int>

  /** Redis GET read as an integer; a missing key (or an ignored error) reads as 0. */
  function Get(s: Store, k: string): int {
    if k in s then s[k] else 0
  }

  /** Redis INCR: a missing key counts as 0 before the increment. */
  function Incr(s: Store, k: string): Store {
    s[k := Get(s, k) + 1]
  }

  /** The per-breaker key, prefix followed by the breaker's name (getRedisKey). */
  function KeyFor(name: string): (k: string)
    ensures |k| == |DefaultRedisKeyPrefix| + |name|
    ensures k[..|DefaultRedisKeyPrefix|] == DefaultRedisKeyPrefix
    ensures k[|DefaultRedisKeyPrefix|..] == name
  {
    DefaultRedisKeyPrefix + name
  }

  function TotalKey(name: string): string { KeyFor(name) + ":total" }
  function SuccessKey(name: string): string { KeyFor(name) + ":success" }
  function FailureKey(name: string): string { KeyFor(name) + ":failure" }

  /** The three window counters of a breaker. */
  datatype Counter = TotalCounter | SuccessCounter | FailureCounter

  /** The key a counter lives under. */
  function CounterKey(name: string, c: Counter): string {
    match c
    case TotalCounter => TotalKey(name)
    case SuccessCounter => SuccessKey(name)
    case FailureCounter => FailureKey(name)
  }

  /** The three window counters of one breaker live under three different keys. */
  lemma CounterKeysDistinct(name: string)
    ensures TotalKey(name) != SuccessKey(name)
    ensures TotalKey(name) != FailureKey(name)
    ensures SuccessKey(name) != FailureKey(name)
  {
    var n := |KeyFor(name)|;
    assert |TotalKey(name)| == n + 6;
    assert |SuccessKey(name)| == n + 8 == |FailureKey(name)|;
    assert SuccessKey(name)[n + 1] == 's';
    assert FailureKey(name)[n + 1] == 'f';
  }

  /** Breakers with different names never share a counter. */
  lemma CounterKeysInjective(a: string, b: string)
    requires a != b
    ensures TotalKey(a) != TotalKey(b)
    ensures SuccessKey(a) != SuccessKey(b)
    ensures FailureKey(a) != FailureKey(b)
  {
    var p := |DefaultRedisKeyPrefix|;
    if |a| == |b| {
      var i :| 0 <= i < |a| && a[i] != b[i];
      assert TotalKey(a)[p + i] == a[i] && TotalKey(b)[p + i] == b[i];
      assert SuccessKey(a)[p + i] == a[i] && SuccessKey(b)[p + i] == b[i];
      assert FailureKey(a)[p + i] == a[i] && FailureKey(b)[p + i] == b[i];
    } else {
      assert |TotalKey(a)| != |TotalKey(b)|;
      assert |SuccessKey(a)| != |SuccessKey(b)|;
      assert |FailureKey(a)| != |FailureKey(b)|;
    }
  }

  // ---------------------------------------------------------------------
  // Value-level breaker rules
  // ---------------------------------------------------------------------

  /** What a breaker's behaviour depends on besides its configuration. */
  datatype Snapshot = Snapshot(state: State, lastStateChange: int, store: Store)

  /** The moves a breaker can make in one step: stay, or follow the probe cycle. */
  predicate Transition(a: State, b: State) {
    a == b
    || (a == Closed && b == Open)
    || (a == Open && b == HalfOpen)
    || (a == HalfOpen && b == Closed)
  }

  /** Every key other than the breaker's success and failure counters has the same entry in both stores. */
  ghost predicate OthersKept(name: string, s: Store, t: Store) {
    forall k :: k != SuccessKey(name) && k != FailureKey(name) ==>
      (k in t <==> k in s) && Get(t, k) == Get(s, k)
  }

  /** setState: a no-op for the current state; otherwise records the time and clears the success/failure counters. */
  function SetStateStep(name: string, s: Snapshot, newState: State, now: int): (r: Snapshot)
    ensures r.state == newState
    ensures s.state == newState ==> r == s
    ensures s.state != newState ==>
      r.lastStateChange == now
      && SuccessKey(name) !in r.store && FailureKey(name) !in r.store
      && Get(r.store, TotalKey(name)) == Get(s.store, TotalKey(name))
      && OthersKept(name, s.store, r.store)
  {
    CounterKeysDistinct(name);
    if s.state != newState then
      Snapshot(newState, now, s.store - {SuccessKey(name), FailureKey(name)})
    else
      s
  }

  /** The outcome of an admission check: the verdict and the breaker afterwards. */
  datatype Admission = Admission(allowed: bool, after: Snapshot)

  /** allowRequest on a snapshot. */
  function AllowStep(name: string, cfg: Config, s: Snapshot, now: int): (r: Admission)
    ensures r.allowed <==> s.state != Open || now - s.lastStateChange > cfg.halfOpenTimeout
    ensures !r.allowed || s.state != Open ==> r.after == s
    ensures r.allowed && s.state == Open ==>
      r.after.state == HalfOpen && r.after.lastStateChange == now
      && SuccessKey(name) !in r.after.store && FailureKey(name) !in r.after.store
      && Get(r.after.store, TotalKey(name)) == Get(s.store, TotalKey(name))
      && OthersKept(name, s.store, r.after.store)
    ensures Transition(s.state, r.after.state)
  {
    match s.state
    case Closed => Admission(true, s)
    case Open =>
      if now - s.lastStateChange > cfg.halfOpenTimeout then
        Admission(true, SetStateStep(name, s, HalfOpen, now))
      else
        Admission(false, s)
    case HalfOpen => Admission(true, s)
  }

  /** The HalfOpen→Closed rule, read against the counters before the increment. */
  predicate ClosesOnSuccess(name: string, cfg: Config, s: Snapshot) {
    s.state == HalfOpen && Get(s.store, SuccessKey(name)) + 1 >= cfg.successThreshold
  }

  /**
   * The Closed→Open rule, read against the counters before the increment:
   * some traffic, at least half of it failing, and at least the threshold of
   * failures. `2 * failure >= total` is the exact form of the float test
   * `failure / total >= 0.5` when `total > 0`.
   */
  predicate OpensOnFailure(name: string, cfg: Config, s: Snapshot) {
    var total := Get(s.store, TotalKey(name)) + 1;
    var failure := Get(s.store, FailureKey(name)) + 1;
    s.state == Closed && total > 0 && 2 * failure >= total && failure >= cfg.failureThreshold
  }

  /** The state recordResult leaves the breaker in. */
  function NextState(name: string, cfg: Config, s: Snapshot, success: bool): State {
    if success && ClosesOnSuccess(name, cfg, s) then Closed
    else if !success && OpensOnFailure(name, cfg, s) then Open
    else s.state
  }

  /** recordResult on a snapshot: count the call, then apply the transition rules. */
  function RecordStep(name: string, cfg: Config, s: Snapshot, success: bool, now: int): (r: Snapshot)
    ensures Get(r.store, TotalKey(name)) == Get(s.store, TotalKey(name)) + 1
    ensures r.state == NextState(name, cfg, s, success)
    ensures Transition(s.state, r.state)
    ensures r.state == s.state ==>
      r.lastStateChange == s.lastStateChange
      && Get(r.store, SuccessKey(name)) == Get(s.store, SuccessKey(name)) + (if success then 1 else 0)
      && Get(r.store, FailureKey(name)) == Get(s.store, FailureKey(name)) + (if success then 0 else 1)
    ensures r.state != s.state ==>
      r.lastStateChange == now && SuccessKey(name) !in r.store && FailureKey(name) !in r.store
    ensures forall k :: k != TotalKey(name) && k != SuccessKey(name) && k != FailureKey(name) ==>
      (k in r.store <==> k in s.store) && Get(r.store, k) == Get(s.store, k)
  {
    CounterKeysDistinct(name);
    var counted := Incr(s.store, TotalKey(name));
    if success then
      var s2 := s.(store := Incr(counted, SuccessKey(name)));
      if s.state == HalfOpen && Get(s2.store, SuccessKey(name)) >= cfg.successThreshold then
        SetStateStep(name, s2, Closed, now)
      else
        s2
    else
      var s2 := s.(store := Incr(counted, FailureKey(name)));
      var totalCount := Get(s2.store, TotalKey(name));
      var failureCount := Get(s2.store, FailureKey(name));
      if s.state == Closed && totalCount > 0 && 2 * failureCount >= totalCount
         && failureCount >= cfg.failureThreshold then
        SetStateStep(name, s2, Open, now)
      else
        s2
  }

  /** The outcome of Execute: rejected before `fn` ran, or `fn` ran and this is whether it failed. */
  datatype Execution = BreakerOpen | Ran(failed: bool)

  // ---------------------------------------------------------------------
  // The breaker object
  // ---------------------------------------------------------------------

  class CircuitBreaker {
    const name: string
    var state: State
    var failureThreshold: int
    var successThreshold: int
    var halfOpenTimeout: int
    var windowSize: int
    var lastStateChange: int
    /** The breaker's view of the shared counter store. */
    var store: Store

    function Cfg(): Config
      reads this
    {
      Config(failureThreshold, successThreshold, halfOpenTimeout, windowSize)
    }

    function Snap(): Snapshot
      reads this
    {
      Snapshot(state, lastStateChange, store)
    }

    /** NewCircuitBreaker: start Closed with the defaults, then run the options in order. */
    constructor (name: string, options: seq<Setting>, now: int)
      ensures this.name == name
      ensures Snap() == Snapshot(Closed, now, map[])
      ensures Cfg() == ApplyAll(DefaultConfig, options)
    {
      this.name := name;
      state := Closed;
      failureThreshold := DefaultFailureThreshold;
      successThreshold := DefaultSuccessThreshold;
      halfOpenTimeout := DefaultHalfOpenTimeout;
      windowSize := DefaultWindowSize;
      lastStateChange := now;
      store := map[];
      new;
      var i := 0;
      while i < |options|
        invariant 0 <= i <= |options|
        invariant Snap() == Snapshot(Closed, now, map[])
        invariant Cfg() == ApplyAll(DefaultConfig, options[..i])
      {
        assert options[..i + 1][..i] == options[..i];
        ApplyOption(options[i]);
        i := i + 1;
      }
      assert options[..|options|] == options;
    }

    /** Runs one option closure against the breaker. */
    method ApplyOption(o: Setting)
      modifies this
      ensures Cfg() == Apply(old(Cfg()), o)
      ensures Snap() == old(Snap())
    {
      match o
      case WithFailureThreshold(t) => failureThreshold := t;
      case WithSuccessThreshold(t) => successThreshold := t;
      case WithHalfOpenTimeout(t) => halfOpenTimeout := t;
      case WithWindowSize(s) => windowSize := s;
    }

    /**
     * setState. The source expects its caller to hold the write lock:
     * allowRequest does, recordResult does not.
     */
    method SetState(newState: State, now: int)
      modifies this
      ensures Cfg() == old(Cfg())
      ensures Snap() == SetStateStep(name, old(Snap()), newState, now)
    {
      if state != newState {
        state := newState;
        lastStateChange := now;
        var key := KeyFor(name);
        store := store - {key + ":success", key + ":failure"};
      }
    }

    /** allowRequest. */
    method AllowRequest(now: int) returns (allowed: bool)
      modifies this
      ensures Cfg() == old(Cfg())
      ensures Admission(allowed, Snap()) == AllowStep(name, old(Cfg()), old(Snap()), now)
    {
      var st := state;
      var lastChange := lastStateChange;
      match st
      case Closed =>
        allowed := true;
      case Open =>
        allowed := false;
        var lt := now - lastChange;
        if lt > halfOpenTimeout {
          if state == Open {
            SetState(HalfOpen, now);
            allowed := true;
          }
        }
      case HalfOpen =>
        allowed := true;
    }

    /** recordResult; the TTL refresh at its end is not modelled. */
    method RecordResult(success: bool, now: int)
      modifies this
      ensures Cfg() == old(Cfg())
      ensures Snap() == RecordStep(name, old(Cfg()), old(Snap()), success, now)
    {
      var key := KeyFor(name);
      store := Incr(store, key + ":total");
      if success {
        store := Incr(store, key + ":success");
        if state == HalfOpen {
          var successCount := Get(store, key + ":success");
          if successCount >= successThreshold {
            SetState(Closed, now);
          }
        }
      } else {
        store := Incr(store, key + ":failure");
        if state == Closed {
          var totalCount := Get(store, key + ":total");
          var failureCount := Get(store, key + ":failure");
          if totalCount > 0 && 2 * failureCount >= totalCount && failureCount >= failureThreshold {
            SetState(Open, now);
          }
        }
      }
    }

    /**
     * Execute: `fnFails` is whether the protected function would return an
     * error; `admitAt` and `doneAt` are the clock before and after it ran.
     */
    method Execute(admitAt: int, fnFails: bool, doneAt: int) returns (r: Execution)
      modifies this
      ensures Cfg() == old(Cfg())
      ensures var adm := AllowStep(name, old(Cfg()), old(Snap()), admitAt);
        if adm.allowed then
          r == Ran(fnFails) && Snap() == RecordStep(name, old(Cfg()), adm.after, !fnFails, doneAt)
        else
          r == BreakerOpen && Snap() == adm.after
    {
      var ok := AllowRequest(admitAt);
      if !ok {
        return BreakerOpen;
      }
      RecordResult(!fnFails, doneAt);
      r := Ran(fnFails);
    }

    /**
     * One counter's TTL ran out. recordResult refreshes the three TTLs one
     * after another, `total` first, so the keys can vanish one at a time.
     */
    method CounterExpired(c: Counter)
      modifies this
      ensures Cfg() == old(Cfg())
      ensures state == old(state) && lastStateChange == old(lastStateChange)
      ensures store == old(store) - {CounterKey(name, c)}
    {
      store := store - {CounterKey(name, c)};
    }

    /** All three counters' TTLs ran out: the window is gone from the store. */
    method WindowExpired()
      modifies this
      ensures Cfg() == old(Cfg())
      ensures state == old(state) && lastStateChange == old(lastStateChange)
      ensures store == old(store) - {TotalKey(name), SuccessKey(name), FailureKey(name)}
    {
      store := store - {TotalKey(name), SuccessKey(name), FailureKey(name)};
    }
  }
}

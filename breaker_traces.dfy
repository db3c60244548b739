/**
 * Properties of the circuit breaker over whole runs: every run moves only
 * Closed→Open→HalfOpen→Closed; the window counters stay consistent as long as
 * `total` never expires on its own; and the one breaker the gateway configures
 * behaves as its thresholds say.
 */
module BreakerTraces {
  import opened Breaker

  /** One thing that can happen to a breaker. */
  datatype Event =
    | Admit(now: int)                 // allowRequest
    | Record(success: bool, now: int) // recordResult
    | WindowExpiry                    // all three counter keys' TTLs ran out
    | KeyExpiry(counter: Counter)     // one counter key's TTL ran out alone

  /** The breaker after one event. */
  function Step(name: string, cfg: Config, s: Snapshot, e: Event): Snapshot {
    match e
    case Admit(now) => AllowStep(name, cfg, s, now).after
    case Record(success, now) => RecordStep(name, cfg, s, success, now)
    case WindowExpiry => s.(store := s.store - {TotalKey(name), SuccessKey(name), FailureKey(name)})
    case KeyExpiry(c) => s.(store := s.store - {CounterKey(name, c)})
  }

  /** The breaker before the first event and after each event, in order. */
  function Trace(name: string, cfg: Config, s: Snapshot, es: seq<Event>): (t: seq<Snapshot>)
    ensures |t| == |es| + 1
    ensures t[0] == s
    decreases |es|
  {
    if es == [] then [s] else [s] + Trace(name, cfg, Step(name, cfg, s, es[0]), es[1..])
  }

  /** Each event moves the breaker along an allowed transition. */
  lemma StepIsTransition(name: string, cfg: Config, s: Snapshot, e: Event)
    ensures Transition(s.state, Step(name, cfg, s, e).state)
  {
  }

  /** In every run, consecutive states are related by Transition. */
  lemma {:induction false} TraceFollowsTransitions(name: string, cfg: Config, s: Snapshot, es: seq<Event>)
    ensures forall i :: 0 <= i < |es| ==>
      Transition(Trace(name, cfg, s, es)[i].state, Trace(name, cfg, s, es)[i + 1].state)
    decreases |es|
  {
    if es != [] {
      var t := Trace(name, cfg, s, es);
      var s1 := Step(name, cfg, s, es[0]);
      TraceFollowsTransitions(name, cfg, s1, es[1..]);
      StepIsTransition(name, cfg, s, es[0]);
      assert t == [s] + Trace(name, cfg, s1, es[1..]);
      forall i | 0 <= i < |es|
        ensures Transition(t[i].state, t[i + 1].state)
      {
        if i > 0 {
          assert t[i] == Trace(name, cfg, s1, es[1..])[i - 1];
          assert t[i + 1] == Trace(name, cfg, s1, es[1..])[i];
        }
      }
    }
  }

  /** In every run, Closed is entered only from HalfOpen, never straight from Open. */
  lemma ClosedOnlyFromHalfOpen(name: string, cfg: Config, s: Snapshot, es: seq<Event>, i: nat)
    requires i < |es|
    requires Trace(name, cfg, s, es)[i].state != Closed
    requires Trace(name, cfg, s, es)[i + 1].state == Closed
    ensures Trace(name, cfg, s, es)[i].state == HalfOpen
  {
    TraceFollowsTransitions(name, cfg, s, es);
  }

  /**
   * The window counters are non-negative and success + failure never exceeds
   * total. (Equality does not hold: a transition clears success and failure
   * but keeps total.)
   */
  predicate WindowConsistent(name: string, store: Store) {
    0 <= Get(store, SuccessKey(name))
    && 0 <= Get(store, FailureKey(name))
    && Get(store, SuccessKey(name)) + Get(store, FailureKey(name)) <= Get(store, TotalKey(name))
  }

  /**
   * Every event except `total` expiring alone keeps the window counters
   * consistent. The source refreshes the TTLs one by one, `total` first, so
   * that lone expiry can happen (see TotalExpiryOpensOnStaleFailures).
   */
  lemma StepKeepsWindowConsistent(name: string, cfg: Config, s: Snapshot, e: Event)
    requires WindowConsistent(name, s.store)
    requires e != KeyExpiry(TotalCounter)
    ensures WindowConsistent(name, Step(name, cfg, s, e).store)
  {
    CounterKeysDistinct(name);
  }

  /**
   * Starting from consistent counters, every snapshot of a run has consistent
   * counters, provided `total` never expires ahead of the other two.
   */
  lemma {:induction false} TraceKeepsWindowConsistent(name: string, cfg: Config, s: Snapshot, es: seq<Event>)
    requires WindowConsistent(name, s.store)
    requires forall i :: 0 <= i < |es| ==> es[i] != KeyExpiry(TotalCounter)
    ensures forall i :: 0 <= i < |Trace(name, cfg, s, es)| ==>
      WindowConsistent(name, Trace(name, cfg, s, es)[i].store)
    decreases |es|
  {
    if es != [] {
      var s1 := Step(name, cfg, s, es[0]);
      StepKeepsWindowConsistent(name, cfg, s, es[0]);
      assert forall i :: 0 <= i < |es[1..]| ==> es[1..][i] == es[i + 1];
      TraceKeepsWindowConsistent(name, cfg, s1, es[1..]);
      var t := Trace(name, cfg, s, es);
      assert t == [s] + Trace(name, cfg, s1, es[1..]);
      forall i | 0 <= i < |t| ensures WindowConsistent(name, t[i].store) {
        if i > 0 {
          assert t[i] == Trace(name, cfg, s1, es[1..])[i - 1];
        }
      }
    }
  }

  /**
   * When `total` expires ahead of stale `success`/`failure` counters, the
   * window is inconsistent and a Closed breaker can open on old failures.
   * With the defaults and counters 20/16/4, losing `total` alone makes the
   * next failure open the breaker (it reads total 1, failure 5), while the
   * same failure leaves it Closed with the window intact (21/5) or with all
   * three counters gone (1/1).
   */
  lemma TotalExpiryOpensOnStaleFailures(name: string, t: int)
    ensures var full := map[TotalKey(name) := 20, SuccessKey(name) := 16, FailureKey(name) := 4];
      var s := Snapshot(Closed, t, full);
      var gap := Step(name, DefaultConfig, s, KeyExpiry(TotalCounter));
      var gone := Step(name, DefaultConfig, s, WindowExpiry);
      WindowConsistent(name, full)
      && !WindowConsistent(name, gap.store)
      && RecordStep(name, DefaultConfig, gap, false, t).state == Open
      && RecordStep(name, DefaultConfig, s, false, t).state == Closed
      && RecordStep(name, DefaultConfig, gone, false, t).state == Closed
  {
    CounterKeysDistinct(name);
    var full := map[TotalKey(name) := 20, SuccessKey(name) := 16, FailureKey(name) := 4];
    var s := Snapshot(Closed, t, full);
    var gap := Step(name, DefaultConfig, s, KeyExpiry(TotalCounter));
    assert gap.store == map[SuccessKey(name) := 16, FailureKey(name) := 4];
    assert OpensOnFailure(name, DefaultConfig, gap);
  }

  /**
   * Of two admission checks at the same instant against an Open breaker whose
   * timeout has passed, only the first makes the Open→HalfOpen transition.
   */
  lemma SingleProbeTransition(name: string, cfg: Config, s: Snapshot, now: int)
    requires s.state == Open && now - s.lastStateChange > cfg.halfOpenTimeout
    ensures var first := AllowStep(name, cfg, s, now);
      var second := AllowStep(name, cfg, first.after, now);
      first.allowed && first.after.state == HalfOpen
      && second.allowed && second.after == first.after
  {
  }

  /** The options the gateway gives its only registered breaker. */
  const IndexOptions: seq<Setting> :=
    [WithFailureThreshold(1), WithSuccessThreshold(2), WithHalfOpenTimeout(300)]

  /** Those options override three defaults and keep the window size. */
  lemma IndexConfig()
    ensures ApplyAll(DefaultConfig, IndexOptions) == Config(1, 2, 300, 10 * Second)
  {
    var o := IndexOptions;
    assert o[..2][..1][..0] == [];
    assert ApplyAll(DefaultConfig, o[..2][..1]) == DefaultConfig.(failureThreshold := 1);
    assert o[..2][..1] == o[..1];
    assert ApplyAll(DefaultConfig, o[..2]) == Config(1, 2, DefaultHalfOpenTimeout, DefaultWindowSize);
  }

  /**
   * With thresholds 1/2/300: one failure opens the fresh breaker; it denies
   * until more than 300ns have passed, then probes HalfOpen; two successes
   * close it with cleared success/failure counters and total at 3.
   */
  lemma IndexServiceScenario(t0: int, t1: int)
    requires t1 > t0
    ensures var cfg := Config(1, 2, 300, 10 * Second);
      var name := "user_service";
      var start := Snapshot(Closed, t0, map[]);
      var tripped := RecordStep(name, cfg, start, false, t0);
      var early := AllowStep(name, cfg, tripped, t0 + 300);
      var probe := AllowStep(name, cfg, tripped, t0 + 301);
      var once := RecordStep(name, cfg, probe.after, true, t1);
      var twice := RecordStep(name, cfg, once, true, t1);
      tripped.state == Open && tripped.lastStateChange == t0
      && !early.allowed && early.after == tripped
      && probe.allowed && probe.after.state == HalfOpen
      && once.state == HalfOpen
      && twice.state == Closed
      && Get(twice.store, SuccessKey(name)) == 0 && Get(twice.store, FailureKey(name)) == 0
      && Get(twice.store, TotalKey(name)) == 3
  {
    var cfg := Config(1, 2, 300, 10 * Second);
    var name := "user_service";
    CounterKeysDistinct(name);
    var start := Snapshot(Closed, t0, map[]);
    assert OpensOnFailure(name, cfg, start);
    var tripped := RecordStep(name, cfg, start, false, t0);
    var probe := AllowStep(name, cfg, tripped, t0 + 301);
    var once := RecordStep(name, cfg, probe.after, true, t1);
    assert !ClosesOnSuccess(name, cfg, probe.after);
    assert ClosesOnSuccess(name, cfg, once);
  }
}

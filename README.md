# Resilience middleware of the gRPC demo gateway, in Dafny

This project models the decision logic that the gateway puts in front of its
calls to the downstream user service (`common/middleware` of the Go sources):

- **the circuit breaker** (`circuit_breaker.go`): a per-resource state machine
  with states Closed, HalfOpen and Open. Its admission check opens a probe
  phase once the Open timeout has passed. Recording a result bumps the window
  counters `total`, `success` and `failure` in a shared store. A transition
  stamps the time and clears `success`/`failure`.
- **the token-bucket limiter** (`ratelimit.go`): tokens are refilled lazily
  from whole elapsed seconds, capped at the capacity, and persisted with the
  refresh time. One token is taken per admitted call. The HTTP handler forwards
  only admitted requests and otherwise replies with code 110.
- **the breaker middleware** (`circuit_breaker_middleware.go`): derives a
  service name from the request path. It picks that service's breaker, else
  the `default_service` one, else lets the request through unprotected. It
  captures status and body through a response-writer wrapper, classifies the
  outcome, and records exactly one result per admitted call.

Files:

- `wrappers.dfy`: `Option`, `Min`.
- `circuit_breaker.dfy` (module `Breaker`): states, defaults, options, the
  counter store and its keys. It holds the value-level rules `AllowStep`,
  `RecordStep` and `SetStateStep`, and the class `CircuitBreaker`. The class's
  methods update fields step by step, as the Go methods do, and are proved equal
  to those rules.
- `breaker_traces.dfy` (module `BreakerTraces`): runs of events. Any run only
  moves Closed→Open→HalfOpen→Closed. The window counters stay consistent as long
  as `total` does not expire ahead of the other two; when it does, a Closed
  breaker can open on stale failures.
  It also holds the scenario of the gateway's one configured breaker.
- `ratelimit.dfy` (module `RateLimit`): refill and admission rules, the class
  `TokenBucket`, and lemmas over runs and bursts of calls.
- `circuit_breaker_middleware.dfy` (module `BreakerMiddleware`): `strings.Split`
  with its round trips, `ServiceName`, registry lookup, the writer wrapper,
  outcome classification and `Serve`, the middleware's request path.

Modelling choices:

- The Redis client is an in-memory store owned by each object. For the breaker
  it is a `map<string, int>` in which a missing key reads as 0. For the bucket it
  is two optional integers: `None` means the key is absent or could not be read,
  which the source treats alike.
- Clocks are explicit arguments. Breaker times are nanoseconds, the unit of Go's
  `time.Duration`, so `WithHalfOpenTimeout(300)` really is 300ns. Bucket times
  are Unix seconds.
- The float test `failure/total >= 0.5` is the integer test `2*failure >= total`
  under `total > 0`. The two agree whenever `total` is at most 2^53.
- Calls the model cannot see become parameters:
  - the protected function of `Execute` becomes `fnFails`;
  - the next HTTP handler becomes the sequence of writer calls it makes;
  - `json.Unmarshal` becomes a `decode` function onto `JsonBody`, and a missing
    `status` field reads as Go's zero value 0;
  - a failing Redis `DECRBY` becomes `decrFails`.

In four places the code departs from what one might expect of such a layer,
and the model follows the code:

- One might expect `total == success + failure` within a window. The code
  clears `success` and `failure` on every transition but keeps `total`. The
  model therefore proves `0 <= success`, `0 <= failure` and
  `success + failure <= total` (`BreakerTraces.WindowConsistent`), and only for
  runs in which `total` does not expire alone.
- One might expect the three counters to expire together. The code refreshes
  their TTLs with three separate EXPIRE calls, `total` first, so `total` can
  vanish while `success` and `failure` stay. The next failure then reads a
  total of 1 against the old failure count and can open the breaker
  (`BreakerTraces.TotalExpiryOpensOnStaleFailures`).
- One might expect the limiter to deny when the store is unreachable. The code
  reads a failed `GET` of the token count as a full bucket. It denies only when
  the decrement itself fails. The model does what the code does.
- One might expect a bounded half-open probe quota. The code admits every call
  while HalfOpen (the branch is marked TODO), and so does the model.

Moving a breaker from Open to HalfOpen goes through `setState`, so it also
clears the `success` and `failure` counters. `AllowStep` states this.

## Model

| member | source | states |
|---|---|---|
| `Breaker.UntouchedFieldKeepsValue` | common/middleware/circuit_breaker.go:44-62 | a field that no option names keeps its default value |
| `Breaker.LastSettingWins` | common/middleware/circuit_breaker.go:57-94 | the last option naming a field decides that field's value |
| `Breaker.CircuitBreaker.constructor` | common/middleware/circuit_breaker.go:44-63 | a new breaker is Closed, stamped `now`, has an empty store, and its configuration is the defaults with the options applied in order |
| `Breaker.CircuitBreaker.ApplyOption` | common/middleware/circuit_breaker.go:65-94 | one option overwrites exactly its own field and nothing else |
| `Breaker.KeyFor` | common/middleware/circuit_breaker.go:190-193 | the breaker key is the prefix `circuit_breaker:` followed by the name |
| `Breaker.CounterKeysDistinct` | common/middleware/circuit_breaker.go:139-172 | the `:total`, `:success` and `:failure` keys of one breaker are pairwise different |
| `Breaker.CounterKeysInjective` | common/middleware/circuit_breaker.go:190-193 | breakers with different names never share a counter key |
| `Breaker.SetStateStep` | common/middleware/circuit_breaker.go:175-188 | no-op for the current state; otherwise sets the state, stamps the time, deletes success/failure, keeps total and every other key |
| `Breaker.CircuitBreaker.SetState` | common/middleware/circuit_breaker.go:175-188 | the method's new state is `SetStateStep` of the old one; configuration unchanged |
| `Breaker.AllowStep` | common/middleware/circuit_breaker.go:107-135 | admits iff not Open or strictly more than the timeout has passed; Closed and HalfOpen change nothing; a denial changes nothing; an Open admission moves to HalfOpen at `now` with cleared success/failure, the same total, and every other key kept |
| `Breaker.CircuitBreaker.AllowRequest` | common/middleware/circuit_breaker.go:107-135 | the verdict and new state are those of `AllowStep` |
| `Breaker.RecordStep` | common/middleware/circuit_breaker.go:137-167 | total grows by exactly 1. HalfOpen closes iff the incremented success count reaches the threshold. Closed opens iff total > 0, 2*failure >= total and failure >= threshold. No other state moves. Without a transition exactly one of success/failure grows by 1. With one, both are cleared and the time is stamped. Other keys are untouched |
| `Breaker.CircuitBreaker.RecordResult` | common/middleware/circuit_breaker.go:137-173 | the method's new state is `RecordStep` of the old one |
| `Breaker.CircuitBreaker.Execute` | common/middleware/circuit_breaker.go:96-105 | when denied, returns the open error without running the function and records nothing; otherwise reports the function's outcome and records `err == nil` once |
| `Breaker.CircuitBreaker.WindowExpired` | common/middleware/circuit_breaker.go:169-172 | the TTL running out removes exactly the three counter keys |
| `Breaker.CircuitBreaker.CounterExpired` | common/middleware/circuit_breaker.go:169-172 | one counter's TTL running out removes exactly that key |
| `BreakerTraces.TotalExpiryOpensOnStaleFailures` | common/middleware/circuit_breaker.go:143-172 | with `total` expired alone, counters 16/4 are inconsistent and the next failure opens a Closed breaker, which stays Closed with the window intact or fully expired |
| `BreakerTraces.StepIsTransition` | common/middleware/circuit_breaker.go:117-165 | every admission, recording or expiry stays put or moves Closed→Open, Open→HalfOpen or HalfOpen→Closed |
| `BreakerTraces.TraceFollowsTransitions` | common/middleware/circuit_breaker.go:107-188 | in any run of events, consecutive states are related by those moves only |
| `BreakerTraces.ClosedOnlyFromHalfOpen` | common/middleware/circuit_breaker.go:145-152 | in any run, Closed is entered only from HalfOpen, never straight from Open |
| `BreakerTraces.StepKeepsWindowConsistent` | common/middleware/circuit_breaker.go:142-187 | each event except a lone `total` expiry keeps success, failure >= 0 and success + failure <= total |
| `BreakerTraces.TraceKeepsWindowConsistent` | common/middleware/circuit_breaker.go:142-187 | consistent counters stay consistent through any run without a lone `total` expiry |
| `BreakerTraces.SingleProbeTransition` | common/middleware/circuit_breaker.go:117-128 | of two checks at the same instant after the timeout, only the first makes the Open→HalfOpen transition; both admit |
| `BreakerTraces.IndexConfig` | internal/svc/service_context.go:79-83 | the gateway's options give thresholds 1/2, a 300ns timeout and the default 10s window |
| `BreakerTraces.IndexServiceScenario` | common/middleware/circuit_breaker.go:117-165 | with 1/2/300, one failure opens a fresh breaker, it denies up to 300ns, probes after, and two successes close it with success/failure cleared and total 3 |
| `RateLimit.Refill` | common/middleware/ratelimit.go:35-62 | the refilled count is min(capacity, tokens + (now - last_time) * rate); a missing count is the capacity and a missing time means no refill |
| `RateLimit.AllowStep` | common/middleware/ratelimit.go:77-94 | admits iff the refilled count is >= 1 and the decrement succeeds; stores the refilled count minus one when admitted and the refilled count otherwise, and the time `now` |
| `RateLimit.TokenBucket.constructor` | common/middleware/ratelimit.go:25-33 | a new bucket keeps its rate and capacity, uses key `token_bucket`, and has no persisted values |
| `RateLimit.TokenBucket.GetTokens` | common/middleware/ratelimit.go:35-75 | returns `Refill` of the old persisted values and persists that count and `now` |
| `RateLimit.TokenBucket.Allow` | common/middleware/ratelimit.go:77-94 | verdict and persisted values are those of `AllowStep` |
| `RateLimit.TokenBucket.Handler` | common/middleware/ratelimit.go:96-107 | forwards iff `Allow` admits; otherwise replies code 110 "rate limit exceeded" |
| `RateLimit.AllowKeepsBounds` | common/middleware/ratelimit.go:53-62 | with rate, capacity >= 0 and a clock not going back, one call keeps the stored count in [0, capacity] |
| `RateLimit.TraceStaysInRange` | common/middleware/ratelimit.go:35-94 | under the same conditions the stored count stays in [0, capacity] through any run of calls and key expiries |
| `RateLimit.BurstAdmitsRefilled` | common/middleware/ratelimit.go:77-94 | within one second, exactly the first k calls are admitted, k being the first call's refilled count |
| `RateLimit.FreshBucketAdmitsFive` | common/middleware/ratelimit.go:43-62 | a new bucket of capacity 5 admits exactly five calls within one second and denies the rest |
| `RateLimit.OneTokenPerSecond` | common/middleware/ratelimit.go:53-62 | with rate 1, an empty bucket denies within the same second and admits after d >= 1 seconds, leaving min(capacity, d) - 1 |
| `BreakerMiddleware.Split` | common/middleware/circuit_breaker_middleware.go:17 | at least one piece; no piece holds the separator; the first piece is the text before the first separator |
| `BreakerMiddleware.JoinSplit` | common/middleware/circuit_breaker_middleware.go:17 | joining the pieces with the separator gives the string back |
| `BreakerMiddleware.SplitJoin` | common/middleware/circuit_breaker_middleware.go:17 | splitting a join of separator-free pieces gives the pieces back |
| `BreakerMiddleware.ServiceName` | common/middleware/circuit_breaker_middleware.go:11-23 | `default_service` for paths of length <= 1; always ends in `_service`; otherwise the part before it is the slash-free text up to the first `/` after one leading `/` |
| `BreakerMiddleware.SplitNeverEmpty` | common/middleware/circuit_breaker_middleware.go:17-18 | the `len(parts) > 0` guard always holds |
| `BreakerMiddleware.FirstSegmentNames` | common/middleware/circuit_breaker_middleware.go:14-19 | the path `/<seg>/<rest>` with a slash-free `seg` names `<seg>_service` |
| `BreakerMiddleware.UserInfoExample` | common/middleware/circuit_breaker_middleware.go:14 | `/user/info` names `user_service` |
| `BreakerMiddleware.IndexExample` | common/middleware/circuit_breaker_middleware.go:14-19 | `/index` names `index_service` |
| `BreakerMiddleware.Resolve` | common/middleware/circuit_breaker_middleware.go:32-42 | the service's own entry if present, else the `default_service` entry, else none; a found breaker is a registry value |
| `BreakerMiddleware.ResponseWriterWrapper.constructor` | common/middleware/circuit_breaker_middleware.go:50-55 | the wrapper starts with status 200 and an empty body |
| `BreakerMiddleware.ResponseWriterWrapper.WriteHeader` | common/middleware/circuit_breaker_middleware.go:88-91 | overwrites the status and keeps the body |
| `BreakerMiddleware.ResponseWriterWrapper.Write` | common/middleware/circuit_breaker_middleware.go:93-96 | appends the argument to the body and keeps the status |
| `BreakerMiddleware.RunHandler` | common/middleware/circuit_breaker_middleware.go:57-58 | after the handler's writer calls, the wrapper holds `FinalStatus` and `Captured` of them |
| `BreakerMiddleware.CapturedAppend` | common/middleware/circuit_breaker_middleware.go:93-96 | the captured body of two call runs in a row is their bodies concatenated in order |
| `BreakerMiddleware.NoHeaderKeepsOK` | common/middleware/circuit_breaker_middleware.go:50-55 | without any WriteHeader the captured status is 200 |
| `BreakerMiddleware.LastHeaderWins` | common/middleware/circuit_breaker_middleware.go:88-91 | the last WriteHeader call decides the captured status |
| `BreakerMiddleware.DecodedStatus` | common/middleware/circuit_breaker_middleware.go:66-69 | no status when decoding fails; status 0 when the field is missing; the field otherwise |
| `BreakerMiddleware.ClassifyOutcome` | common/middleware/circuit_breaker_middleware.go:60-75 | success iff the status is 200 and the body is empty, does not decode, or decodes to status 200 |
| `BreakerMiddleware.MissingStatusIsFailure` | common/middleware/circuit_breaker_middleware.go:66-73 | a decodable non-empty body without `status` makes a 200 response a failure |
| `BreakerMiddleware.Serve` | common/middleware/circuit_breaker_middleware.go:25-79 | with no breaker, the request passes through without a check or a record. A denial returns the open error without running the handler. An admitted call records exactly one classified result (total + 1). Every other breaker is untouched |

## Left out

- Redis I/O: each breaker and bucket owns its store. The model therefore does not
  capture two breakers with the same name sharing counters through one Redis
  database, nor other processes writing the same keys.
- TTLs: the 24h TTLs of the bucket keys and the `windowSize` TTL of the breaker
  counters are not timed. Their effect is an explicit expiry event, which
  deletes the keys (`RateLimit.Vanish` for the bucket).
- `Breaker.CircuitBreaker.WindowExpired`: removes all three counters at once.
  Since the source refreshes the TTLs one by one, `total` first, the counters
  can also expire separately. That case is `Breaker.CircuitBreaker.CounterExpired`
  and `BreakerTraces.KeyExpiry`. The window invariant
  (`BreakerTraces.TraceKeepsWindowConsistent`) is proved only for runs without
  a lone `total` expiry, because it fails once one happens.
- Concurrency: the mutexes, the double-checked locking in `allowRequest`, and the
  gap between `getTokens` and the decrement in `Allow` are not modelled. The
  model is sequential, so the re-check of the state under the write lock always
  succeeds.
- `RateLimit.TokenBucket.GetTokens`: the source reads the clock twice, once for
  a missing `last_time` and once for `now`. The model uses one `now` for both.
- `RateLimit.TokenBucket.GetTokens`: failed `SET` calls are only logged by the
  source. The model's store always accepts writes.
- `RateLimit.Refill`: unbounded integers. Go's int64 overflow of
  `elapsed * rate` is not modelled.
- `Breaker.RecordStep`: the counters are unbounded. They do not wrap at 2^63,
  and the float ratio is taken as exact.
- `Breaker.AllowStep`: the `default` branch of `allowRequest` is left out,
  because a state outside the three constants is never assigned.
- `Breaker.CircuitBreaker.Execute`: a panic in `fn` is not modelled. The source
  calls `recordResult` after `fn` returns, without `defer`, so a panicking `fn`
  records nothing. This can happen after `allowRequest` has already moved the
  breaker from Open to HalfOpen, so a breaker whose probes keep panicking stays
  HalfOpen. `fnFails` has no panic outcome.
- `BreakerMiddleware.Serve`: a panic in the next handler is not modelled either.
  `recordResult` follows `next` without `defer`, so a panicking handler, whose
  panic net/http recovers, records no result. "Exactly one result per admitted
  call" holds only for handlers that return.
- `Breaker.AllowStep`: the source reads the clock twice on an Open breaker. It
  measures `time.Since(lastChange)` for the timeout test, and `setState` later
  stamps a fresh `time.Now()` after the write lock is taken. The model uses the
  one instant `now` for both, so the stamp equals the instant that was checked.
- `Breaker.RecordStep`: the errors of INCR, GET and DEL are ignored by the
  source, and the model's store always applies them. With the store down, every
  GET reads 0, so the `totalCount > 0` test fails and a Closed breaker never
  opens: the breaker then fails open. The model cannot show that.
- `BreakerMiddleware.Serve`: the registry maps names to non-null breakers, so
  `nil` entries are excluded. In the source they behave in two ways. A `nil`
  entry under the service's own name panics at the first field access in
  `allowRequest`. A `nil` `default_service` entry reached through the fallback
  lets the request through unprotected, the same as a missing default entry.
- `BreakerMiddleware.ServiceName`: paths are character sequences, so the
  `len(path) > 1` test counts characters, while Go counts UTF-8 bytes. A
  one-character non-ASCII path such as `"é"` names `default_service` in the
  model and `é_service` in the source. HTTP request paths are empty, `*`, or
  start with `/`, so this never reaches the middleware.
- Logging (`logx`), `httpx.Error` and `response.HttpResponse` are left out.
  Forwarding the wrapper's calls to the underlying `http.ResponseWriter` is also
  left out, and `Write` does not return the byte count or error of the wrapped
  writer. JSON decoding is abstract.
- Wiring is left out: `internal/svc/service_context.go` (environment, Redis
  ping, etcd, gRPC client), `client.go`, `internal/handler/index_handler.go`,
  `internal/logic/index_logic.go`, `internal/config/config.go` and
  `common/middleware/errors.go`. The one registry entry the wiring creates is
  only used in `BreakerTraces.IndexConfig` and `BreakerTraces.IndexServiceScenario`.

// src/limiter.rs: the limiter as a value and its five operations as functions on that value.
// The class in LimiterObject.dfy is proved against them.
module Limiters {
  import opened Machine
  import opened TokenBucket
  import opened Types
  import opened Buckets
  import S = SlowStart

  datatype Limiter = Limiter(
    cfg: Config,
    startedAt: Duration,
    routes: map<Key, Key>,
    buckets: map<Key, Bucket>,
    fifo: seq<Key>,
    globalBlockedUntil: Option<Duration>)

  function New(cfg: Config, startedAt: Duration): Limiter {
    Limiter(cfg, startedAt, map[], map[], [], None)
  }

  function Resolve(l: Limiter, route: Key): Key {
    if route in l.routes then l.routes[route] else route
  }

  // ----- slow start -----

  function EffectiveAlgorithm(cfg: Config, startedAt: Duration, now: Duration): Algorithm {
    match cfg.slowStart
    case None => cfg.algorithm
    case Some(ramp) =>
      match cfg.algorithm
      case FixedWindow(max, window) => FixedWindow(S.EffectiveMax(max, ramp, startedAt, now), window)
      case TokenBucket(capacity, rate) =>
        TokenBucket(S.EffectiveU64(capacity, ramp, startedAt, now), S.EffectiveU64(rate, ramp, startedAt, now))
  }

  function SlowStartPreDeny(cfg: Config, startedAt: Duration, cost: Cost, now: Duration): Option<Duration> {
    match cfg.slowStart
    case None => None
    case Some(ramp) =>
      match (cfg.algorithm, EffectiveAlgorithm(cfg, startedAt, now))
      case (FixedWindow(max, _), FixedWindow(effective, _)) =>
        if max == 0 then None
        else if effective == 0 || effective < cost then
          Some(S.RetryAfterForCost(max, ramp, startedAt, now, cost))
        else None
      case (TokenBucket(capacity, _), TokenBucket(effective, _)) =>
        if effective >= cost then None
        else Some(S.RetryAfterForCostU64(capacity, ramp, startedAt, now, cost))
      case _ => None
  }

  // ----- the key table -----

  function RetryAfterOnNewKeyDeny(algo: Algorithm): Duration {
    if algo.FixedWindow? then algo.window else NANOS
  }

  // Index of the first key in insertion order that may be evicted, or |fifo| if there is none.
  function FirstEvictable(buckets: map<Key, Bucket>, fifo: seq<Key>): (i: nat)
    ensures i <= |fifo|
    ensures forall j :: 0 <= j < i ==> fifo[j] in buckets && HasOutstanding(buckets[fifo[j]])
    ensures i < |fifo| ==> fifo[i] !in buckets || !HasOutstanding(buckets[fifo[i]])
  {
    if fifo == [] then 0
    else if fifo[0] !in buckets || !HasOutstanding(buckets[fifo[0]]) then 0
    else 1 + FirstEvictable(buckets, fifo[1..])
  }

  function RemoveAt<T>(s: seq<T>, i: nat): seq<T>
    requires i < |s|
  {
    s[..i] + s[i + 1..]
  }

  function EvictAt(l: Limiter, i: nat): Limiter
    requires i < |l.fifo|
  {
    l.(fifo := RemoveAt(l.fifo, i), buckets := l.buckets - {l.fifo[i]})
  }

  predicate TableFull(l: Limiter, key: Key) {
    key !in l.buckets && l.cfg.maxKeys.Some? && |l.buckets| >= l.cfg.maxKeys.value
  }

  // Room for `key`, after an eviction if one is needed; None when the table refuses the key.
  function EnsureCapacity(l: Limiter, key: Key): Option<Limiter> {
    if !TableFull(l, key) then Some(l)
    else if l.cfg.overflowPolicy.DenyNewKey? then None
    else
      var i := FirstEvictable(l.buckets, l.fifo);
      if i < |l.fifo| then Some(EvictAt(l, i)) else None
  }

  function Insert(l: Limiter, key: Key, now: Duration): Limiter {
    if key in l.buckets then l
    else l.(fifo := l.fifo + [key], buckets := l.buckets[key := NewBucket(now, l.cfg.algorithm)])
  }

  // ----- operations -----

  function TryAcquire(l: Limiter, route: Key, cost: Cost, now: Duration): (Limiter, Attempt) {
    var key := Resolve(l, route);
    if l.globalBlockedUntil.Some? && now < l.globalBlockedUntil.value then
      (l, Denied(l.globalBlockedUntil.value - now, FeedbackBackoff))
    else
      match SlowStartPreDeny(l.cfg, l.startedAt, cost, now)
      case Some(wait) => (l, Denied(wait, SlowStartRamp))
      case None =>
        match EnsureCapacity(l, key)
        case None => (l, Denied(RetryAfterOnNewKeyDeny(l.cfg.algorithm), KeyCardinalityBound))
        case Some(room) =>
          var l := Insert(room, key, now);
          var (b, attempt) := Reserve(l.buckets[key], key, EffectiveAlgorithm(l.cfg, l.startedAt, now), cost, now);
          (l.(buckets := l.buckets[key := b]), attempt)
  }

  function CommitPermit(l: Limiter, permit: Permit, outcome: Outcome, now: Duration): Limiter {
    var l := if outcome.RateLimitedFeedback? && outcome.scope.Global?
             then l.(globalBlockedUntil := LaterBlock(l.globalBlockedUntil, Later(now, outcome.retryAfter))) else l;
    if permit.key !in l.buckets then l
    else l.(buckets := l.buckets[permit.key := Commit(l.buckets[permit.key], permit, outcome, now, l.cfg.algorithm)])
  }

  function RefundPermit(l: Limiter, permit: Permit, now: Duration): Limiter {
    if permit.key !in l.buckets then l
    else l.(buckets := l.buckets[permit.key := Refund(l.buckets[permit.key], permit, now, l.cfg.algorithm)])
  }

  function ApplyRouteRemap(l: Limiter, route: Key, target: Key): Limiter {
    if l.cfg.maxKeys.Some? && |l.routes| >= l.cfg.maxKeys.value && route !in l.routes then l
    else l.(routes := l.routes[route := target])
  }

  function Remapped(l: Limiter, route: Key, feedback: Feedback): Limiter {
    if feedback.bucketRemap.Some? then ApplyRouteRemap(l, route, feedback.bucketRemap.value) else l
  }

  function Backoff(feedback: Feedback): Duration {
    if feedback.remaining == Some(0) && feedback.resetAfter.Some?
    then Max(feedback.retryAfter, feedback.resetAfter.value) else feedback.retryAfter
  }

  function ApplyFeedback(l: Limiter, route: Key, feedback: Feedback, now: Duration): Limiter {
    var l := Remapped(l, route, feedback);
    var key := Resolve(l, route);
    var until := Later(now, Backoff(feedback));
    if feedback.scope.GlobalFeedback? then l.(globalBlockedUntil := LaterBlock(l.globalBlockedUntil, until))
    else
      match EnsureCapacity(l, key)
      case None => l
      case Some(room) =>
        var l := Insert(room, key, now);
        l.(buckets := l.buckets[key := BlockUntil(l.buckets[key], until)])
  }

  datatype UpdateError = AlgorithmChanged | WindowChanged

  function NeedsNoOutstanding(before: Algorithm, after: Algorithm): Option<UpdateError> {
    match (before, after)
    case (FixedWindow(_, w0), FixedWindow(_, w1)) => if w0 != w1 then Some(WindowChanged) else None
    case (TokenBucket(_, _), TokenBucket(_, _)) => None
    case _ => Some(AlgorithmChanged)
  }

  predicate AnyOutstanding(l: Limiter) { exists k :: k in l.buckets && HasOutstanding(l.buckets[k]) }

  function ForceConfig(l: Limiter, cfg: Config, now: Duration): Limiter {
    l.(cfg := cfg,
       buckets := map k | k in l.buckets :: OnUpdate(l.buckets[k], l.cfg.algorithm, cfg.algorithm, now))
  }

  function UpdateConfig(l: Limiter, cfg: Config, now: Duration): (Limiter, Option<UpdateError>) {
    var needs := NeedsNoOutstanding(l.cfg.algorithm, cfg.algorithm);
    if needs.Some? && AnyOutstanding(l) then (l, needs) else (ForceConfig(l, cfg, now), None)
  }

  // ----- facts about the pure parts -----

  // Slow start keeps the kind and the window and never raises a limit.
  lemma EffectiveWithin(cfg: Config, startedAt: Duration, now: Duration)
    ensures var eff := EffectiveAlgorithm(cfg, startedAt, now);
            match (cfg.algorithm, eff)
            case (FixedWindow(max, w), FixedWindow(max', w')) => max' <= max && w' == w
            case (TokenBucket(c, r), TokenBucket(c', r')) => c' <= c && r' <= r
            case _ => false
  {
    if cfg.slowStart.Some? {
      match cfg.algorithm
      case FixedWindow(max, _) => S.EffectiveLimitsMonotone(max, cfg.slowStart.value, startedAt, now, now);
      case TokenBucket(c, r) =>
        S.EffectiveLimitsMonotone(c, cfg.slowStart.value, startedAt, now, now);
        S.EffectiveLimitsMonotone(r, cfg.slowStart.value, startedAt, now, now);
    }
  }

  // Slow start scales every limit and rate along the line from nothing at the start to the configured
  // one at the end of the ramp, rounded down, and nothing else.
  lemma EffectiveIsLine(cfg: Config, startedAt: Duration, now: Duration)
    ensures var elapsed := SatSub(now, startedAt);
            match (cfg.slowStart, cfg.algorithm, EffectiveAlgorithm(cfg, startedAt, now))
            case (None, _, effective) => effective == cfg.algorithm
            case (Some(ramp), FixedWindow(max, window), effective) =>
              && effective.FixedWindow? && effective.window == window
              && effective.maxPerWindow == S.Line(max, ramp, elapsed)
            case (Some(ramp), TokenBucket(capacity, rate), effective) =>
              && effective.TokenBucket?
              && (capacity * elapsed <= U128_MAX ==> effective.capacity == S.Line(capacity, ramp, elapsed))
              && (rate * elapsed <= U128_MAX ==> effective.refillPerSec == S.Line(rate, ramp, elapsed))
  {
    hide S.EffectiveMax, S.EffectiveU64, S.Line;
    match (cfg.slowStart, cfg.algorithm)
    case (Some(ramp), FixedWindow(max, _)) => S.RampIsLine(max, ramp, startedAt, now);
    case (Some(ramp), TokenBucket(capacity, rate)) =>
      S.RampIsLine(capacity, ramp, startedAt, now);
      S.RampIsLine(rate, ramp, startedAt, now);
    case _ =>
  }

  predicate WithinLimit(algo: Algorithm, cost: Cost) {
    match algo
    case FixedWindow(max, _) => cost <= max
    case TokenBucket(capacity, _) => cost <= capacity
  }

  // A slow-start denial of an achievable cost is exact for both algorithms: slow start lets the
  // request through at exactly the times from `now + retryAfter` on.
  lemma RampDenialExact(cfg: Config, startedAt: Duration, cost: Cost, now: Duration, t: Duration)
    requires WithinLimit(cfg.algorithm, cost) && startedAt <= now <= t
    requires SlowStartPreDeny(cfg, startedAt, cost, now).Some?
    ensures SlowStartPreDeny(cfg, startedAt, cost, t).None?
       <==> t >= now + SlowStartPreDeny(cfg, startedAt, cost, now).value
  {
    hide S.EffectiveMax, S.EffectiveU64, S.RetryAfterForCost, S.RetryAfterForCostU64;
    match cfg.algorithm
    case FixedWindow(max, _) => S.SlowStartRetryExact(max, cfg.slowStart.value, startedAt, now, cost, t);
    case TokenBucket(capacity, _) =>
      S.SmallCostFits(cfg.slowStart.value, cost);
      S.SlowStartRetryExactU64(capacity, cfg.slowStart.value, startedAt, now, cost, t);
  }
}

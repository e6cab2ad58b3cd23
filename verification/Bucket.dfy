// src/bucket.rs: one tracked key, as a value. Each function is what one method of the bucket does;
// the classes in BucketObjects.dfy are proved against them.
module Buckets {
  import opened Machine
  import opened TokenBucket
  import opened Types
  import opened Windows

  datatype Fixed = Fixed(windowStart: Duration, reserved: u32, spent: u32)

  datatype AlgoState = FixedState(f: Fixed) | TokenState(t: Tokens)

  datatype Bucket = Bucket(blockedUntil: Option<Duration>, algo: AlgoState)

  function NewFixed(now: Duration, window: Window): Fixed { Fixed(WindowStartFor(now, window), 0, 0) }

  // Windows are frozen while reservations are outstanding.
  function MaybeReset(f: Fixed, now: Duration, window: Window): Fixed {
    if f.reserved != 0 then f
    else if now >= Later(f.windowStart, window) then Fixed(WindowStartFor(now, window), 0, 0)
    else f
  }

  function RetryAfterForWindow(f: Fixed, now: Duration, window: Window): Duration {
    SatSub(Later(f.windowStart, window), now)
  }

  function NewAlgo(now: Duration, algo: Algorithm): AlgoState {
    match algo
    case FixedWindow(_, window) => FixedState(NewFixed(now, window))
    case TokenBucket(capacity, _) => TokenState(NewTokens(now, capacity))
  }

  function NewBucket(now: Duration, algo: Algorithm): Bucket { Bucket(None, NewAlgo(now, algo)) }

  predicate HasOutstanding(b: Bucket) {
    match b.algo
    case FixedState(f) => f.reserved != 0
    case TokenState(t) => t.inFlight != 0
  }

  function ClearExpired(b: Bucket, now: Duration): Bucket {
    if b.blockedUntil.Some? && now >= b.blockedUntil.value then b.(blockedUntil := None) else b
  }

  function LaterBlock(current: Option<Duration>, until: Duration): Option<Duration> {
    Some(if current.Some? then Max(current.value, until) else until)
  }

  function BlockUntil(b: Bucket, until: Duration): Bucket {
    b.(blockedUntil := LaterBlock(b.blockedUntil, until))
  }

  // The fixed-window part of an acquire, after the window has been brought up to date.
  function TakeFromWindow(f: Fixed, key: Key, maxPerWindow: u32, window: Window, cost: Cost, now: Duration)
    : (Fixed, Attempt)
  {
    if maxPerWindow == 0 then (f, Denied(window, Disabled))
    else if cost > maxPerWindow then (f, Denied(DURATION_MAX, Unachievable))
    else if cost > SatSub(maxPerWindow, SatAdd32(f.spent, f.reserved)) then
      (f, Denied(RetryAfterForWindow(f, now, window), WindowExhausted))
    else
      (f.(reserved := SatAdd32(f.reserved, cost)),
       Granted(Permit(key, cost, f.windowStart, now, Later(f.windowStart, window), WindowPermit(f.windowStart))))
  }

  function TakeFromPool(t: Tokens, key: Key, capacity: u64, rate: u64, cost: Cost, now: Duration): (Tokens, Attempt)
  {
    if capacity == 0 then (t, Denied(DURATION_MAX, Disabled))
    else
      var (t', reply) := TakeTokens(t, capacity, rate, cost, now);
      match reply
      case Taken => (t', Granted(Permit(key, cost, 0, now, 0, TokenPermit)))
      case Refused(wait) => (t', Denied(wait, if wait == DURATION_MAX then Unachievable else WindowExhausted))
  }

  function Reserve(b: Bucket, key: Key, algo: Algorithm, cost: Cost, now: Duration): (Bucket, Attempt) {
    var b := ClearExpired(b, now);
    if b.blockedUntil.Some? && now < b.blockedUntil.value then
      (b, Denied(b.blockedUntil.value - now, FeedbackBackoff))
    else
      match (b.algo, algo)
      case (FixedState(f), FixedWindow(maxPerWindow, window)) =>
        var (f', a) := TakeFromWindow(MaybeReset(f, now, window), key, maxPerWindow, window, cost, now);
        (b.(algo := FixedState(f')), a)
      case (TokenState(t), TokenBucket(capacity, rate)) =>
        var (t', a) := TakeFromPool(t, key, capacity, rate, cost, now);
        (b.(algo := TokenState(t')), a)
      case _ => (b, Denied(NANOS, Disabled))
  }

  // Unless the bucket's backoff denies, the algorithm decides; nothing else changes.
  lemma ReserveShape(b: Bucket, key: Key, algo: Algorithm, cost: Cost, now: Duration)
    ensures var (b', a) := Reserve(b, key, algo, cost, now);
            match (b.algo, algo)
            case (FixedState(f), FixedWindow(max, window)) =>
              var (f', taken) := TakeFromWindow(MaybeReset(f, now, window), key, max, window, cost, now);
              (b'.algo == b.algo && a.Denied?) || (b'.algo == FixedState(f') && a == taken)
            case (TokenState(t), TokenBucket(capacity, rate)) =>
              var (t', taken) := TakeFromPool(t, key, capacity, rate, cost, now);
              (b'.algo == b.algo && a.Denied?) || (b'.algo == TokenState(t') && a == taken)
            case _ => b'.algo == b.algo && a.Denied?
  {
    hide TakeFromWindow, TakeFromPool, MaybeReset;
  }

  // Finalisation of a window permit; a permit of another window is dropped.
  function RefundFixed(f: Fixed, windowStart: Duration, cost: Cost, now: Duration, window: Window): Fixed {
    var f := MaybeReset(f, now, window);
    if windowStart != f.windowStart then f else f.(reserved := SatSub(f.reserved, cost))
  }

  // `commit` with NotSent adds the cost to `spent` and takes it away again.
  function CommitFixed(f: Fixed, windowStart: Duration, cost: Cost, now: Duration, window: Window,
                       outcome: Outcome): Fixed {
    var f := MaybeReset(f, now, window);
    if windowStart != f.windowStart then f
    else
      var spent := SatAdd32(f.spent, cost);
      Fixed(f.windowStart, SatSub(f.reserved, cost), if outcome.NotSent? then SatSub(spent, cost) else spent)
  }

  function Refund(b: Bucket, permit: Permit, now: Duration, algo: Algorithm): Bucket {
    var b := ClearExpired(b, now);
    match (b.algo, algo, permit.meta)
    case (FixedState(f), FixedWindow(_, window), WindowPermit(ws)) =>
      b.(algo := FixedState(RefundFixed(f, ws, permit.cost, now, window)))
    case (TokenState(t), TokenBucket(capacity, rate), TokenPermit) =>
      b.(algo := TokenState(RefundTokens(t, capacity, permit.cost, now, rate)))
    case _ => b
  }

  function Commit(b: Bucket, permit: Permit, outcome: Outcome, now: Duration, algo: Algorithm): Bucket {
    var b := ClearExpired(b, now);
    var b := if outcome.RateLimitedFeedback? && outcome.scope.PerKey?
             then BlockUntil(b, Later(now, outcome.retryAfter)) else b;
    match (b.algo, algo, permit.meta)
    case (FixedState(f), FixedWindow(_, window), WindowPermit(ws)) =>
      b.(algo := FixedState(CommitFixed(f, ws, permit.cost, now, window, outcome)))
    case (TokenState(t), TokenBucket(capacity, rate), TokenPermit) =>
      b.(algo := TokenState(if outcome.NotSent? then RefundTokens(t, capacity, permit.cost, now, rate)
                            else SpendTokens(t, permit.cost)))
    case _ => b
  }

  function OnUpdate(b: Bucket, before: Algorithm, after: Algorithm, now: Duration): Bucket {
    var b := ClearExpired(b, now);
    match (b.algo, before, after)
    case (FixedState(f), FixedWindow(_, oldWindow), FixedWindow(_, newWindow)) =>
      if oldWindow != newWindow && f.reserved == 0
      then b.(algo := FixedState(f.(windowStart := WindowStartFor(now, newWindow), spent := 0)))
      else b
    case (TokenState(t), TokenBucket(oldCapacity, oldRate), TokenBucket(newCapacity, _)) =>
      b.(algo := TokenState(ChangeCapacity(Refill(t, oldCapacity, oldRate, now), oldCapacity, newCapacity)))
    case _ => b.(algo := NewAlgo(now, after))
  }

  // A permit that is not held any more, against a window that holds none: the window is brought up to
  // date, and the permit counts only if it is of that very window - a refund nothing, a commit its cost.
  lemma LatePermit(b: Bucket, p: Permit, outcome: Outcome, now: Duration, algo: Algorithm)
    requires b.algo.FixedState? && algo.FixedWindow? && p.meta.WindowPermit?
    requires var f := b.algo.f;
             f.reserved == 0 && Aligned(f.windowStart, algo.window) && f.windowStart <= now < DURATION_MAX
    ensures var start := WindowStartFor(now, algo.window);
            var spent: u32 := if b.algo.f.windowStart == start then b.algo.f.spent else 0;
            && Refund(b, p, now, algo).algo == FixedState(Fixed(start, 0, spent))
            && Commit(b, p, outcome, now, algo).algo
               == FixedState(Fixed(start, 0, if p.meta.windowStart != start then spent
                                             else if outcome.NotSent? then Min(spent, U32_MAX - p.cost)
                                             else Min(spent + p.cost, U32_MAX)))
  {
    hide WindowStartFor, Aligned;
    var f := b.algo.f;
    if now < f.windowStart + algo.window {
      OnlyWindow(f.windowStart, now, algo.window);
    } else {
      LaterWindow(f.windowStart, now, algo.window);
    }
  }

  // A bucket whose kind is not the configured one, which only an unchecked update leaves, denies for a
  // second at a time, and drops what is finalised against it.
  lemma MismatchIsInert(b: Bucket, key: Key, algo: Algorithm, cost: Cost, p: Permit, outcome: Outcome, now: Duration)
    requires b.algo.FixedState? != algo.FixedWindow? && (b.blockedUntil.None? || b.blockedUntil.value <= now)
    ensures Reserve(b, key, algo, cost, now) == (b.(blockedUntil := None), Denied(NANOS, Disabled))
    ensures Refund(b, p, now, algo).algo == b.algo && Commit(b, p, outcome, now, algo).algo == b.algo
  {
  }

  // ----- saturation of the clock -----

  // A fixed window resets exactly from its real end on, unless the clock reads Duration::MAX
  // inside a window that reaches past it: then every call resets the window.
  lemma ResetsAtRealEndIff(f: Fixed, now: Duration, window: Window)
    requires f.reserved == 0 && f.windowStart <= now
    ensures (now >= Later(f.windowStart, window) <==> now >= f.windowStart + window)
       <==> !(now == DURATION_MAX && f.windowStart + window > DURATION_MAX)
  {
  }

  // At that clock reading an exhausted window of one admits again.
  lemma WindowForgetsAtClockEnd(key: Key)
    ensures var w: Window := DURATION_MAX - 1;
            var f := Fixed(w, 0, 1);
            && TakeFromWindow(MaybeReset(f, DURATION_MAX - 1, w), key, 1, w, 1, DURATION_MAX - 1).1.Denied?
            && TakeFromWindow(MaybeReset(f, DURATION_MAX, w), key, 1, w, 1, DURATION_MAX).1.Granted?
  {
  }
}

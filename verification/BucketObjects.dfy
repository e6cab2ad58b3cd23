// src/bucket.rs: the objects the limiter updates in place, proved against Bucket.dfy.
module BucketObjects {
  import opened Machine
  import opened TokenBucket
  import opened Types
  import opened Windows
  import opened Buckets

  class FixedWindowState {
    var windowStart: Duration
    var reserved: u32
    var spent: u32

    ghost function Model(): Fixed
      reads this
    {
      Fixed(windowStart, reserved, spent)
    }

    constructor (now: Duration, window: Window)
      ensures Model() == NewFixed(now, window)
    {
      windowStart, reserved, spent := WindowStartFor(now, window), 0, 0;
    }

    method MaybeResetWindow(now: Duration, window: Window)
      modifies this
      ensures Model() == MaybeReset(old(Model()), now, window)
    {
      if reserved != 0 {
        return;
      }
      var end := Later(windowStart, window);
      if now >= end {
        windowStart := WindowStartFor(now, window);
        spent := 0;
        reserved := 0;
      }
    }

    method TryReserve(key: Key, maxPerWindow: u32, window: Window, cost: Cost, now: Duration) returns (a: Attempt)
      modifies this
      ensures (Model(), a)
              == TakeFromWindow(MaybeReset(old(Model()), now, window), key, maxPerWindow, window, cost, now)
    {
      MaybeResetWindow(now, window);
      if maxPerWindow == 0 {
        return Denied(window, Disabled);
      }
      if cost > maxPerWindow {
        return Denied(DURATION_MAX, Unachievable);
      }
      var inUse := SatAdd32(spent, reserved);
      var available := SatSub(maxPerWindow, inUse);
      if cost > available {
        return Denied(SatSub(Later(windowStart, window), now), WindowExhausted);
      }
      reserved := SatAdd32(reserved, cost);
      a := Granted(Permit(key, cost, windowStart, now, Later(windowStart, window), WindowPermit(windowStart)));
    }

    method Refund(permitWindow: Duration, cost: Cost, now: Duration, window: Window)
      modifies this
      ensures Model() == RefundFixed(old(Model()), permitWindow, cost, now, window)
    {
      MaybeResetWindow(now, window);
      if permitWindow != windowStart {
        return;
      }
      reserved := SatSub(reserved, cost);
    }

    method Commit(permitWindow: Duration, cost: Cost, now: Duration, window: Window, outcome: Outcome)
      modifies this
      ensures Model() == CommitFixed(old(Model()), permitWindow, cost, now, window, outcome)
    {
      MaybeResetWindow(now, window);
      if permitWindow != windowStart {
        return;
      }
      reserved := SatSub(reserved, cost);
      spent := SatAdd32(spent, cost);
      if outcome.NotSent? {
        spent := SatSub(spent, cost);
      }
    }
  }

  datatype AlgoObject = FixedObject(f: FixedWindowState) | PoolObject(t: TokenBucketState)

  ghost function ObjectOf(a: AlgoObject): object {
    match a
    case FixedObject(f) => f
    case PoolObject(t) => t
  }

  ghost function AlgoOf(a: AlgoObject): AlgoState
    reads ObjectOf(a)
  {
    match a
    case FixedObject(f) => FixedState(f.Model())
    case PoolObject(t) => TokenState(t.Model())
  }

  method NewAlgoObject(now: Duration, algo: Algorithm) returns (a: AlgoObject)
    ensures AlgoOf(a) == NewAlgo(now, algo) && fresh(ObjectOf(a))
  {
    match algo {
      case FixedWindow(_, window) =>
        var f := new FixedWindowState(now, window);
        a := FixedObject(f);
      case TokenBucket(capacity, _) =>
        var t := new TokenBucketState(now, capacity);
        a := PoolObject(t);
    }
  }

  class BucketState {
    var blockedUntil: Option<Duration>
    var algo: AlgoObject

    ghost function Inner(): object
      reads this
    {
      ObjectOf(algo)
    }

    ghost function Model(): Bucket
      reads this, Inner()
    {
      Bucket(blockedUntil, AlgoOf(algo))
    }

    constructor (now: Duration, algo: Algorithm)
      ensures Model() == NewBucket(now, algo) && fresh(Inner())
    {
      blockedUntil := None;
      var a := NewAlgoObject(now, algo);
      this.algo := a;
    }

    predicate Outstanding()
      reads this, Inner()
      ensures Outstanding() == HasOutstanding(Model())
    {
      match algo
      case FixedObject(f) => f.reserved != 0
      case PoolObject(t) => t.inFlight != 0
    }

    method ClearExpiredBlock(now: Duration)
      modifies this`blockedUntil
      ensures Model() == ClearExpired(old(Model()), now)
    {
      if blockedUntil.Some? && now >= blockedUntil.value {
        blockedUntil := None;
      }
    }

    method ApplyBlockedUntil(until: Duration)
      modifies this`blockedUntil
      ensures Model() == BlockUntil(old(Model()), until)
    {
      blockedUntil := Some(if blockedUntil.Some? then Max(blockedUntil.value, until) else until);
    }

    method TryReserve(key: Key, algorithm: Algorithm, cost: Cost, now: Duration) returns (a: Attempt)
      modifies this`blockedUntil, Inner()
      ensures (Model(), a) == Reserve(old(Model()), key, algorithm, cost, now)
    {
      hide TakeFromWindow, TakeTokens, MaybeReset;
      ClearExpiredBlock(now);
      if blockedUntil.Some? && now < blockedUntil.value {
        return Denied(blockedUntil.value - now, FeedbackBackoff);
      }
      match (algo, algorithm) {
        case (FixedObject(f), FixedWindow(maxPerWindow, window)) =>
          a := f.TryReserve(key, maxPerWindow, window, cost, now);
        case (PoolObject(t), TokenBucket(capacity, refillPerSec)) =>
          if capacity == 0 {
            return Denied(DURATION_MAX, Disabled);
          }
          var reply := t.TryReserve(capacity, refillPerSec, cost, now);
          match reply {
            case Taken => a := Granted(Permit(key, cost, 0, now, 0, TokenPermit));
            case Refused(wait) =>
              a := Denied(wait, if wait == DURATION_MAX then Unachievable else WindowExhausted);
          }
        case _ => a := Denied(NANOS, Disabled);
      }
    }

    method Refund(permit: Permit, now: Duration, algorithm: Algorithm)
      modifies this`blockedUntil, Inner()
      ensures Model() == Buckets.Refund(old(Model()), permit, now, algorithm)
    {
      hide RefundFixed, RefundTokens;
      ClearExpiredBlock(now);
      match (algo, algorithm, permit.meta) {
        case (FixedObject(f), FixedWindow(_, window), WindowPermit(ws)) => f.Refund(ws, permit.cost, now, window);
        case (PoolObject(t), TokenBucket(capacity, refillPerSec), TokenPermit) =>
          t.Refund(capacity, permit.cost, now, refillPerSec);
        case _ =>
      }
    }

    method Commit(permit: Permit, outcome: Outcome, now: Duration, algorithm: Algorithm)
      modifies this`blockedUntil, Inner()
      ensures Model() == Buckets.Commit(old(Model()), permit, outcome, now, algorithm)
    {
      hide CommitFixed, RefundTokens, SpendTokens;
      ClearExpiredBlock(now);
      if outcome.RateLimitedFeedback? && outcome.scope.PerKey? {
        ApplyBlockedUntil(Later(now, outcome.retryAfter));
      }
      match (algo, algorithm, permit.meta) {
        case (FixedObject(f), FixedWindow(_, window), WindowPermit(ws)) =>
          f.Commit(ws, permit.cost, now, window, outcome);
        case (PoolObject(t), TokenBucket(capacity, refillPerSec), TokenPermit) =>
          if outcome.NotSent? {
            t.Refund(capacity, permit.cost, now, refillPerSec);
          } else {
            t.Commit(permit.cost);
          }
        case _ =>
      }
    }

    method OnUpdate(before: Algorithm, after: Algorithm, now: Duration)
      modifies this, Inner()
      ensures Model() == Buckets.OnUpdate(old(Model()), before, after, now)
      ensures Inner() == old(Inner()) || fresh(Inner())
    {
      hide Refill, ChangeCapacity, WindowStartFor;
      ClearExpiredBlock(now);
      match (algo, before, after) {
        case (FixedObject(f), FixedWindow(_, oldWindow), FixedWindow(_, newWindow)) =>
          if oldWindow != newWindow && f.reserved == 0 {
            f.windowStart := WindowStartFor(now, newWindow);
            f.spent := 0;
          }
        case (PoolObject(t), TokenBucket(oldCapacity, oldRate), TokenBucket(newCapacity, _)) =>
          t.RefillTo(oldCapacity, oldRate, now);
          t.ApplyCapacityChange(oldCapacity, newCapacity);
        case _ =>
          var renewed := NewAlgoObject(now, after);
          algo := renewed;
      }
    }
  }
}

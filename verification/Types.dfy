// src/types.rs, src/config.rs and src/feedback.rs: the values the limiter exchanges with its callers.
module Types {
  import opened Machine
  import opened TokenBucket

  type Key = u64

  // Every configuration constructor refuses a zero window.
  type Window = w: Duration | w != 0 witness 1

  datatype Algorithm =
    | FixedWindow(maxPerWindow: u32, window: Window)
    | TokenBucket(capacity: u64, refillPerSec: u64)

  datatype OverflowPolicy = DenyNewKey | EvictOldestKey

  datatype Config = Config(
    algorithm: Algorithm,
    maxKeys: Option<nat>,
    overflowPolicy: OverflowPolicy,
    slowStart: Option<Duration>)

  datatype PermitMeta = WindowPermit(windowStart: Duration) | TokenPermit

  datatype Permit = Permit(
    key: Key,
    cost: Cost,
    windowStart: Duration,
    issuedAt: Duration,
    deadline: Duration,
    meta: PermitMeta)

  datatype Scope = Global | PerKey

  datatype Outcome =
    | Confirmed
    | NotSent
    | SentNoConfirm
    | RateLimitedFeedback(retryAfter: Duration, scope: Scope, bucketHint: Option<Key>)

  datatype FeedbackScope = GlobalFeedback | KeyFeedback | RouteFeedback

  datatype Feedback = Feedback(
    retryAfter: Duration,
    scope: FeedbackScope,
    remaining: Option<u32>,
    resetAfter: Option<Duration>,
    bucketRemap: Option<Key>)

  datatype DenyReason =
    | FeedbackBackoff
    | WindowExhausted
    | Disabled
    | Unachievable
    | SlowStartRamp
    | KeyCardinalityBound

  // The result of an acquire: a permit, or a denial with the recommended wait.
  datatype Attempt = Granted(permit: Permit) | Denied(retryAfter: Duration, reason: DenyReason)

  predicate SameKind(a: Algorithm, b: Algorithm) { a.FixedWindow? == b.FixedWindow? }
}

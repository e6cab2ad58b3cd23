// tests/deterministic_server_model.rs: the reference server, written without reservations, lazy
// clearing or a key bound.
module Servers {
  import opened Machine
  import opened TokenBucket
  import opened Types
  import opened Windows
  import opened Buckets

  datatype ServerKey = ServerKey(
    windowStart: Duration,
    spent: u32,
    lastUpdate: Duration,
    credits: u64,
    blockedUntil: Option<Duration>)

  datatype Server = Server(algo: Algorithm, keys: map<Key, ServerKey>, globalBlockedUntil: Option<Duration>)

  datatype Decision = Accepts | RateLimited(retryAfter: Duration, scope: Scope)

  function NewServerKey(now: Duration, algo: Algorithm): ServerKey {
    match algo
    case FixedWindow(_, window) => ServerKey(WindowStartFor(now, window), 0, 0, 0, None)
    case TokenBucket(capacity, _) => ServerKey(0, 0, now, capacity, None)
  }

  function Touch(s: Server, key: Key, now: Duration): Server {
    if key in s.keys then s else s.(keys := s.keys[key := NewServerKey(now, s.algo)])
  }

  function AdvanceWindow(st: ServerKey, window: Window, now: Duration): ServerKey {
    if now >= Later(st.windowStart, window) then st.(windowStart := WindowStartFor(now, window), spent := 0) else st
  }

  function RefillKey(st: ServerKey, capacity: u64, rate: u64, now: Duration): ServerKey {
    if now > st.lastUpdate then
      var added := if rate == 0 then 0 else CreditsAdded(now - st.lastUpdate, rate);
      st.(credits := Min(SatAdd64(st.credits, added), capacity), lastUpdate := now)
    else st
  }

  function DecideKey(st: ServerKey, algo: Algorithm, cost: Cost, now: Duration): (ServerKey, Decision) {
    if st.blockedUntil.Some? && now < st.blockedUntil.value then
      (st, RateLimited(st.blockedUntil.value - now, PerKey))
    else
      match algo
      case FixedWindow(max, window) =>
        var st := AdvanceWindow(st, window, now);
        if cost > max then (st, RateLimited(DURATION_MAX, PerKey))
        else if SatAdd32(st.spent, cost) > max then
          (st, RateLimited(SatSub(Later(st.windowStart, window), now), PerKey))
        else (st, Accepts)
      case TokenBucket(capacity, rate) =>
        if cost > capacity then (st, RateLimited(DURATION_MAX, PerKey))
        else
          var st := RefillKey(st, capacity, rate, now);
          if st.credits >= cost then (st, Accepts)
          else if rate == 0 then (st, RateLimited(DURATION_MAX, PerKey))
          else (st, RateLimited(RetryAfterForDeficit(cost - st.credits, rate), PerKey))
  }

  function Decide(s: Server, key: Key, cost: Cost, now: Duration): (Server, Decision) {
    if s.globalBlockedUntil.Some? && now < s.globalBlockedUntil.value then
      (s, RateLimited(s.globalBlockedUntil.value - now, Global))
    else
      var s := Touch(s, key, now);
      var (st, decision) := DecideKey(s.keys[key], s.algo, cost, now);
      (s.(keys := s.keys[key := st]), decision)
  }

  function ChargeKey(st: ServerKey, algo: Algorithm, cost: Cost, outcome: Outcome, now: Duration): ServerKey {
    var st := match algo
      case FixedWindow(_, window) =>
        var st := AdvanceWindow(st, window, now);
        if outcome.NotSent? then st else st.(spent := SatAdd32(st.spent, cost))
      case TokenBucket(capacity, rate) =>
        var st := RefillKey(st, capacity, rate, now);
        if outcome.NotSent? then st else st.(credits := SatSub(st.credits, cost));
    if outcome.RateLimitedFeedback? && outcome.scope.PerKey?
    then st.(blockedUntil := LaterBlock(st.blockedUntil, Later(now, outcome.retryAfter))) else st
  }

  function ApplyOutcome(s: Server, key: Key, cost: Cost, outcome: Outcome, now: Duration): Server {
    var s := Touch(s, key, now);
    var s := s.(keys := s.keys[key := ChargeKey(s.keys[key], s.algo, cost, outcome, now)]);
    if outcome.RateLimitedFeedback? && outcome.scope.Global?
    then s.(globalBlockedUntil := LaterBlock(s.globalBlockedUntil, Later(now, outcome.retryAfter))) else s
  }

  // An outcome is charged to the window of its own instant, whenever the decision was.
  lemma OutcomeInItsWindow(st: ServerKey, max: u32, window: Window, cost: Cost, outcome: Outcome, now: Duration)
    requires Aligned(st.windowStart, window) && st.windowStart <= now < DURATION_MAX
    ensures var st' := ChargeKey(st, FixedWindow(max, window), cost, outcome, now);
            var spent := if st.windowStart == WindowStartFor(now, window) then st.spent else 0;
            && st'.windowStart == WindowStartFor(now, window)
            && st'.spent == if outcome.NotSent? then spent else Min(spent + cost, U32_MAX)
  {
    hide WindowStartFor, Aligned;
    if now < st.windowStart + window {
      OnlyWindow(st.windowStart, now, window);
    } else {
      LaterWindow(st.windowStart, now, window);
    }
  }

  // An outcome for a key never asked about starts the key at its own instant.
  lemma OutcomeStartsKey(s: Server, key: Key, cost: Cost, outcome: Outcome, now: Duration)
    requires key !in s.keys
    ensures var s' := ApplyOutcome(s, key, cost, outcome, now);
            var charged := if outcome.NotSent? then 0 else cost;
            key in s'.keys &&
            match s.algo
            case FixedWindow(_, window) =>
              s'.keys[key].windowStart == WindowStartFor(now, window) && s'.keys[key].spent == charged
            case TokenBucket(capacity, _) =>
              s'.keys[key].lastUpdate == now && s'.keys[key].credits == SatSub(capacity, charged)
  {
    hide WindowStartFor, CreditsAdded;
  }
}

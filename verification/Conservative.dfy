// Slow start is conservative: whatever the ramped limiter lets through, the reference server at the
// full limit accepts, although it hears only of what is sent and so brings its windows and credits
// up to date less often.
module Conservative {
  import opened Machine
  import opened TokenBucket
  import opened Types
  import opened Windows
  import opened Buckets
  import opened Limiters
  import opened Servers
  import opened Worlds

  datatype Send = Send(key: Key, cost: Cost, now: Duration)

  // ----- one key -----

  // The limiter's window is at least as late as the server's, and counts the same in the same window.
  predicate WindowBehind(f: Fixed, st: Option<ServerKey>, max: u32, window: Window, clock: Duration) {
    && f.reserved == 0 && f.spent <= max
    && Aligned(f.windowStart, window) && f.windowStart <= clock
    && match st
       case None => f.spent == 0
       case Some(st) =>
         && Aligned(st.windowStart, window) && st.windowStart <= f.windowStart
         && (st.windowStart < f.windowStart ==> f.spent == 0)
         && (st.windowStart == f.windowStart ==> st.spent == f.spent || ClockAtEnd(clock, f.windowStart, window))
  }

  // At the last instant of the clock every call resets a window that reaches past it.
  predicate ClockAtEnd(clock: Duration, start: Duration, window: Window) {
    clock == DURATION_MAX && start + window >= DURATION_MAX
  }

  // The limiter's credits are no more than the server would have if it refilled now.
  predicate PoolBehind(t: Tokens, st: Option<ServerKey>, capacity: u64, rate: u64, clock: Duration) {
    && t.credits <= capacity && t.lastUpdate <= clock
    && (st.Some? ==>
         && st.value.lastUpdate <= t.lastUpdate
         && t.credits <= st.value.credits + Earned(rate, t.lastUpdate - st.value.lastUpdate))
  }

  predicate Behind(b: Bucket, st: Option<ServerKey>, algo: Algorithm, clock: Duration) {
    && b.blockedUntil.None? && (st.Some? ==> st.value.blockedUntil.None?)
    && match (b.algo, algo)
       case (FixedState(f), FixedWindow(max, window)) => WindowBehind(f, st, max, window, clock)
       case (TokenState(t), TokenBucket(capacity, rate)) => PoolBehind(t, st, capacity, rate, clock)
       case _ => false
  }

  function Consulted(st: Option<ServerKey>, algo: Algorithm, now: Duration): ServerKey {
    if st.Some? then st.value else NewServerKey(now, algo)
  }

  lemma BehindLater(b: Bucket, st: Option<ServerKey>, algo: Algorithm, clock: Duration, now: Duration)
    requires Behind(b, st, algo, clock) && clock <= now
    ensures Behind(b, st, algo, now)
  {
    hide Aligned, Earned;
  }

  lemma BehindAtBirth(algo: Algorithm, now: Duration)
    ensures Behind(NewBucket(now, algo), None, algo, now)
  {
  }

  // Bringing the limiter's window up to date keeps it no earlier than the server's.
  lemma ResetStaysBehind(f: Fixed, st: Option<ServerKey>, max: u32, window: Window, clock: Duration, now: Duration)
    requires WindowBehind(f, st, max, window, clock) && clock <= now
    ensures var f' := MaybeReset(f, now, window);
            && WindowBehind(f', st, max, window, now)
            && (f'.windowStart == WindowStartFor(now, window) || ClockAtEnd(now, f'.windowStart, window))
  {
    hide WindowStartFor, Aligned;
    if now >= f.windowStart + window {
      LaterWindow(f.windowStart, now, window);
    } else {
      OnlyWindow(f.windowStart, now, window);
    }
  }

  // The server, asked now, sees the same window with the same count.
  lemma ServerCatchesUp(f: Fixed, st: ServerKey, max: u32, window: Window, now: Duration)
    requires WindowBehind(f, Some(st), max, window, now)
    requires f == MaybeReset(f, now, window) && f.windowStart == WindowStartFor(now, window)
    ensures AdvanceWindow(st, window, now) == st.(windowStart := f.windowStart, spent := f.spent)
  {
    hide WindowStartFor, Aligned;
    if now >= st.windowStart + window {
      LaterWindow(st.windowStart, now, window);
    } else {
      OnlyWindow(st.windowStart, now, window);
    }
  }

  lemma FixedConservative(b: Bucket, st: Option<ServerKey>, key: Key, algo: Algorithm, effective: Algorithm,
                          cost: Cost, clock: Duration, now: Duration)
    requires Behind(b, st, algo, clock) && clock <= now && algo.FixedWindow? && effective.FixedWindow?
    requires effective.maxPerWindow <= algo.maxPerWindow && effective.window == algo.window
    ensures var (b', a) := Reserve(b, key, effective, cost, now);
            if a.Denied? then Behind(b', st, algo, now)
            else
              var (st', d) := DecideKey(Consulted(st, algo, now), algo, cost, now);
              d.Accepts?
              && Behind(Buckets.Commit(b', a.permit, Confirmed, now, algo),
                        Some(ChargeKey(st', algo, cost, Confirmed, now)), algo, now)
  {
    hide WindowStartFor, Aligned;
    var f, max, window := b.algo.f, algo.maxPerWindow, algo.window;
    ResetStaysBehind(f, st, max, window, clock, now);
    var f' := MaybeReset(f, now, window);
    if now < DURATION_MAX && st.Some? {
      ServerCatchesUp(f', st.value, max, window, now);
    }
  }

  // The sum of what lower rates earn, floor by floor, is at most what the full rate earns at once.
  lemma RefillStaysBehind(t: Tokens, st: ServerKey, capacity: u64, rate: u64, effective: u64, slower: u64,
                          now: Duration)
    requires PoolBehind(t, Some(st), capacity, rate, now) && effective <= capacity && slower <= rate
    ensures var t', st' := Refill(t, effective, slower, now), RefillKey(st, capacity, rate, now);
            && PoolBehind(t', Some(st), capacity, rate, now)
            && t'.credits <= st'.credits
            && t'.lastUpdate == st'.lastUpdate == now
  {
    hide Refill, Earned, CreditsAdded;
    var gap := t.lastUpdate - st.lastUpdate;
    RefillStep(t, effective, slower, now);
    if now > t.lastUpdate {
      EarnedMono(slower, rate, now - t.lastUpdate, now - t.lastUpdate);
      EarnedSplit(rate, gap, now - t.lastUpdate);
      assert gap + (now - t.lastUpdate) == now - st.lastUpdate;
    }
    if now > st.lastUpdate {
      CreditsAddedExact(now - st.lastUpdate, rate);
      assert Earned(0, now - st.lastUpdate) == 0 by { EarnedAtRateZero(now - st.lastUpdate); }
    } else {
      assert Earned(rate, 0) == 0 by { EarnedInNoTime(rate); }
    }
  }

  lemma RefillStep(t: Tokens, capacity: u64, rate: u64, now: Duration)
    ensures var t' := Refill(t, capacity, rate, now);
            && (now <= t.lastUpdate ==> t' == t)
            && (now > t.lastUpdate ==>
                 t' == Tokens(now, Min(t.credits + Earned(rate, now - t.lastUpdate), capacity), t.inFlight))
  {
    if now > t.lastUpdate { RefillExact(t, capacity, rate, now); }
  }

  lemma EarnedAtRateZero(d: nat) ensures Earned(0, d) == 0 {}

  lemma PoolConservative(b: Bucket, st: Option<ServerKey>, key: Key, algo: Algorithm, effective: Algorithm,
                         cost: Cost, clock: Duration, now: Duration)
    requires Behind(b, st, algo, clock) && clock <= now && algo.TokenBucket? && effective.TokenBucket?
    requires effective.capacity <= algo.capacity && effective.refillPerSec <= algo.refillPerSec
    ensures var (b', a) := Reserve(b, key, effective, cost, now);
            if a.Denied? then Behind(b', st, algo, now)
            else
              var (st', d) := DecideKey(Consulted(st, algo, now), algo, cost, now);
              d.Accepts?
              && Behind(Buckets.Commit(b', a.permit, Confirmed, now, algo),
                        Some(ChargeKey(st', algo, cost, Confirmed, now)), algo, now)
  {
    hide Refill, Earned, CreditsAdded, RetryAfterForDeficit, WindowBehind;
    var t, capacity, rate := b.algo.t, algo.capacity, algo.refillPerSec;
    EarnedInNoTime(rate);
    var st0 := Consulted(st, algo, now);
    if st.Some? {
      RefillStaysBehind(t, st0, capacity, rate, effective.capacity, effective.refillPerSec, now);
    } else {
      RefillStep(t, effective.capacity, effective.refillPerSec, now);
    }
  }

  // ----- every key, every trace -----

  lemma KeyConservative(b: Bucket, st: Option<ServerKey>, key: Key, algo: Algorithm, effective: Algorithm,
                        cost: Cost, clock: Duration, now: Duration)
    requires Behind(b, st, algo, clock) && clock <= now && Lower(effective, algo)
    ensures var (b', a) := Reserve(b, key, effective, cost, now);
            if a.Denied? then Behind(b', st, algo, now)
            else
              var (st', d) := DecideKey(Consulted(st, algo, now), algo, cost, now);
              d.Accepts? && a.permit.key == key
              && Behind(Buckets.Commit(b', a.permit, Confirmed, now, algo),
                        Some(ChargeKey(st', algo, cost, Confirmed, now)), algo, now)
  {
    hide Reserve, DecideKey, ChargeKey, Buckets.Commit, Consulted, WindowBehind, PoolBehind;
    ReserveIssues(b, key, effective, cost, now);
    match algo
    case FixedWindow(_, _) => FixedConservative(b, st, key, algo, effective, cost, clock, now);
    case TokenBucket(_, _) => PoolConservative(b, st, key, algo, effective, cost, clock, now);
  }

  predicate Lower(effective: Algorithm, algo: Algorithm) {
    match (algo, effective)
    case (FixedWindow(max, w), FixedWindow(max', w')) => max' <= max && w' == w
    case (TokenBucket(c, r), TokenBucket(c', r')) => c' <= c && r' <= r
    case _ => false
  }

  // The limiter asks; the server hears of the request only when it is sent.
  function AskLimiter(l: Limiter, send: Send): (Limiter, Attempt) {
    var (l, a) := TryAcquire(l, send.key, send.cost, send.now);
    (if a.Granted? then CommitPermit(l, a.permit, Confirmed, send.now) else l, a)
  }

  function AskServer(s: Server, send: Send): (Server, Decision) {
    var (s, d) := Decide(s, send.key, send.cost, send.now);
    (ApplyOutcome(s, send.key, send.cost, Confirmed, send.now), d)
  }

  predicate AllAccepted(l: Limiter, s: Server, trace: seq<Send>)
    decreases |trace|
  {
    trace == [] ||
    var (l', a) := AskLimiter(l, trace[0]);
    if a.Granted? then
      var (s', d) := AskServer(s, trace[0]);
      d.Accepts? && AllAccepted(l', s', trace[1..])
    else AllAccepted(l', s, trace[1..])
  }

  function Known(s: Server, key: Key): Option<ServerKey> { if key in s.keys then Some(s.keys[key]) else None }

  ghost predicate AllBehind(l: Limiter, s: Server, clock: Duration) {
    && l.cfg.maxKeys.None? && l.routes == map[] && l.cfg.algorithm == s.algo
    && l.globalBlockedUntil.None? && s.globalBlockedUntil.None?
    && s.keys.Keys <= l.buckets.Keys
    && forall k :: k in l.buckets ==> Behind(l.buckets[k], Known(s, k), s.algo, clock)
  }

  lemma AskServerShape(s: Server, send: Send)
    requires s.globalBlockedUntil.None?
    ensures var (s', d) := AskServer(s, send);
            var (st, d') := DecideKey(Consulted(Known(s, send.key), s.algo, send.now), s.algo, send.cost, send.now);
            && d == d'
            && s' == s.(keys := s.keys[send.key := ChargeKey(st, s.algo, send.cost, Confirmed, send.now)])
  {
    hide DecideKey, ChargeKey, NewServerKey;
  }

  lemma AskLimiterShape(l: Limiter, send: Send)
    requires l.cfg.maxKeys.None? && l.routes == map[] && l.globalBlockedUntil.None?
    ensures var (l', a) := AskLimiter(l, send);
            var b := if send.key in l.buckets then l.buckets[send.key] else NewBucket(send.now, l.cfg.algorithm);
            var effective := EffectiveAlgorithm(l.cfg, l.startedAt, send.now);
            var (b', a') := Reserve(b, send.key, effective, send.cost, send.now);
            && l' == l.(buckets := l'.buckets, fifo := l'.fifo)
            && (a.Denied? ==> l'.buckets == l.buckets || l'.buckets == l.buckets[send.key := b'])
            && (l'.buckets != l.buckets || a.Granted? ==> a == a')
            && (a.Granted? ==>
                 l'.buckets
                     == l.buckets[send.key := Buckets.Commit(b', a.permit, Confirmed, send.now, l.cfg.algorithm)])
  {
    hide Reserve, Buckets.Commit, NewBucket, SlowStartPreDeny, EffectiveAlgorithm;
    var b := if send.key in l.buckets then l.buckets[send.key] else NewBucket(send.now, l.cfg.algorithm);
    ReserveIssues(b, send.key, EffectiveAlgorithm(l.cfg, l.startedAt, send.now), send.cost, send.now);
    TryAcquireShape(l, send.key, send.cost, send.now);
  }

  lemma SendStaysBehind(l: Limiter, s: Server, send: Send, clock: Duration)
    requires AllBehind(l, s, clock) && clock <= send.now
    ensures var (l', a) := AskLimiter(l, send);
            if a.Granted? then AskServer(s, send).1.Accepts? && AllBehind(l', AskServer(s, send).0, send.now)
            else AllBehind(l', s, send.now)
  {
    hide AskLimiter, AskServer, Reserve, Buckets.Commit, NewBucket, DecideKey, ChargeKey, EffectiveAlgorithm, Behind,
         Consulted;
    AskLimiterShape(l, send);
    AskServerShape(s, send);
    EffectiveWithin(l.cfg, l.startedAt, send.now);
    BehindAtBirth(s.algo, send.now);
    var b := if send.key in l.buckets then l.buckets[send.key] else NewBucket(send.now, s.algo);
    forall k | k in l.buckets ensures Behind(l.buckets[k], Known(s, k), s.algo, send.now) {
      BehindLater(l.buckets[k], Known(s, k), s.algo, clock, send.now);
    }
    KeyConservative(b, Known(s, send.key), send.key, s.algo, EffectiveAlgorithm(l.cfg, l.startedAt, send.now),
                    send.cost, send.now, send.now);
  }

  function SentAt(send: Send): Duration { send.now }

  lemma {:induction false} BehindAlong(l: Limiter, s: Server, trace: seq<Send>, clock: Duration)
    requires AllBehind(l, s, clock) && Timely(clock, trace, SentAt)
    ensures AllAccepted(l, s, trace)
    decreases |trace|
  {
    hide AllBehind, AskLimiter, AskServer;
    if trace != [] {
      SendStaysBehind(l, s, trace[0], clock);
      var (l', a) := AskLimiter(l, trace[0]);
      BehindAlong(l', if a.Granted? then AskServer(s, trace[0]).0 else s, trace[1..], trace[0].now);
    }
  }

  // For both algorithms, every ramp, every set of keys and every trace.
  lemma SlowStartIsConservative(algo: Algorithm, policy: OverflowPolicy, ramp: Option<Duration>, startedAt: Duration,
                                trace: seq<Send>)
    requires Timely(0, trace, SentAt)
    ensures AllAccepted(New(Config(algo, None, policy, ramp), startedAt), Server(algo, map[], None), trace)
  {
    BehindAlong(New(Config(algo, None, policy, ramp), startedAt), Server(algo, map[], None), trace, 0);
  }
}

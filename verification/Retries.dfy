// Bounded retries: a caller that makes no other calls, waits exactly `retry_after` and asks again is
// admitted after at most four denials, one for each gate - the global backoff, slow start, the
// bucket's backoff and the bucket's capacity - or never.
module Retries {
  import opened Machine
  import opened TokenBucket
  import opened Types
  import opened Windows
  import opened Buckets
  import opened Limiters
  import opened Ledgers
  import opened KeyTable
  import opened Worlds
  import opened Accounting
  import opened Clocks
  import S = SlowStart

  datatype Persistence = Admitted(denials: nat, at: Duration) | ClockOverflow | GaveUp

  // Ask, wait as told, ask again, up to `tries` more times.
  function Persist(l: Limiter, route: Key, cost: Cost, now: Duration, tries: nat): Persistence
    decreases tries
  {
    var (l', a) := TryAcquire(l, route, cost, now);
    if a.Granted? then Admitted(0, now)
    else if now + a.retryAfter > DURATION_MAX then ClockOverflow
    else if tries == 0 then GaveUp
    else
      match Persist(l', route, cost, now + a.retryAfter, tries - 1)
      case Admitted(n, at) => Admitted(n + 1, at)
      case failed => failed
  }

  // ----- what a caller can work out before asking -----

  // The limiter has started; if the key has a bucket, it is of the configured kind and not ahead of
  // the clock.
  predicate Ready(l: Limiter, key: Key, now: Duration) {
    && l.startedAt <= now
    && (key in l.buckets ==>
          match (l.buckets[key].algo, l.cfg.algorithm)
          case (FixedState(f), FixedWindow(_, _)) => f.windowStart <= now
          case (TokenState(t), TokenBucket(_, _)) => t.lastUpdate <= now
          case _ => false)
  }

  function EffectiveAt(l: Limiter, at: Duration): Algorithm { EffectiveAlgorithm(l.cfg, l.startedAt, at) }

  function DeadlineOf(blocked: Option<Duration>): Duration { if blocked.Some? then blocked.value else 0 }

  function RampWait(l: Limiter, cost: Cost, at: Duration): Duration {
    var denial := SlowStartPreDeny(l.cfg, l.startedAt, cost, at);
    if denial.Some? then denial.value else 0
  }

  // When the requests get past the global backoff, slow start and the backoff of the bucket, if any.
  function GateAt(l: Limiter, key: Key, cost: Cost, now: Duration): nat {
    var opens: Duration := Max(now, DeadlineOf(l.globalBlockedUntil));
    Max(opens + RampWait(l, cost, opens), if key in l.buckets then DeadlineOf(l.buckets[key].blockedUntil) else 0)
  }

  // The cost fits the window, brought up to date, or the refilled pool.
  predicate Fits(s: AlgoState, algo: Algorithm, cost: Cost, at: Duration) {
    match (s, algo)
    case (FixedState(f), FixedWindow(max, window)) =>
      var f := MaybeReset(f, at, window);
      f.spent + f.reserved + cost <= max
    case (TokenState(t), TokenBucket(capacity, rate)) =>
      cost <= capacity && cost <= Refill(t, capacity, rate, at).credits
    case _ => false
  }

  // When the bucket says to come back: at the end of its window, or with its deficit earned at the
  // rate in force.
  function ComeBackAt(s: AlgoState, algo: Algorithm, cost: Cost, at: Duration): nat {
    match (s, algo)
    case (FixedState(f), FixedWindow(_, window)) => Max(at, Later(f.windowStart, window))
    case (TokenState(t), TokenBucket(capacity, rate)) =>
      var missing := SatSub(cost, Refill(t, capacity, rate, at).credits);
      at + (if rate == 0 then DURATION_MAX else RetryAfterForDeficit(missing, rate))
    case _ => at
  }

  // Past the other gates at `at`, the bucket serves the cost at once or when it says to come back: a
  // window that holds no reservation always does, one that does hold some only if the cost fits
  // beside them then; a pool if and only if the rate in force is positive.
  predicate Serves(l: Limiter, key: Key, cost: Cost, at: Duration)
    requires key in l.buckets
  {
    var s, algo := l.buckets[key].algo, EffectiveAt(l, at);
    var again := ComeBackAt(s, algo, cost, at);
    Fits(s, algo, cost, at) ||
    match (s, algo)
    case (FixedState(f), FixedWindow(_, _)) => f.reserved == 0 || Fits(s, EffectiveAt(l, again), cost, again)
    case (TokenState(_), TokenBucket(_, rate)) => rate > 0 && again <= DURATION_MAX
    case _ => false
  }

  // The condition of the theorem. A key that is not tracked yet is served exactly if the table takes it.
  predicate Servable(l: Limiter, key: Key, cost: Cost, now: Duration) {
    var at := GateAt(l, key, cost, now);
    && WithinLimit(l.cfg.algorithm, cost) && at <= DURATION_MAX
    && if key in l.buckets then Serves(l, key, cost, at) else EnsureCapacity(l, key).Some?
  }

  // The instant of admission.
  function ServedAt(l: Limiter, key: Key, cost: Cost, now: Duration): nat
    requires Servable(l, key, cost, now)
  {
    var at := GateAt(l, key, cost, now);
    if key !in l.buckets then at
    else
      var s, algo := l.buckets[key].algo, EffectiveAt(l, at);
      if Fits(s, algo, cost, at) then at else ComeBackAt(s, algo, cost, at)
  }

  // ----- each gate -----

  lemma AcquireAtGates(l: Limiter, route: Key, cost: Cost, now: Duration)
    ensures var key := Resolve(l, route);
            var r := TryAcquire(l, route, cost, now);
            if now < DeadlineOf(l.globalBlockedUntil)
            then r == (l, Denied(l.globalBlockedUntil.value - now, FeedbackBackoff))
            else if SlowStartPreDeny(l.cfg, l.startedAt, cost, now).Some?
            then r == (l, Denied(RampWait(l, cost, now), SlowStartRamp))
            else
              key in l.buckets ==>
                var (b, a) := Reserve(l.buckets[key], key, EffectiveAt(l, now), cost, now);
                r == (l.(buckets := l.buckets[key := b]), a)
  {
    hide Reserve, SlowStartPreDeny, EffectiveAlgorithm, FirstEvictable, NewBucket;
  }

  // The effective limits and rate only grow.
  lemma EffectiveGrows(l: Limiter, a: Duration, b: Duration)
    requires a <= b
    ensures match (EffectiveAt(l, a), EffectiveAt(l, b))
            case (FixedWindow(max, w), FixedWindow(max', w')) => max <= max' && w == w'
            case (TokenBucket(c, r), TokenBucket(c', r')) => c <= c' && r <= r'
            case _ => false
  {
    hide S.EffectiveMax, S.EffectiveU64;
    if l.cfg.slowStart.Some? {
      var ramp := l.cfg.slowStart.value;
      match l.cfg.algorithm
      case FixedWindow(max, _) => S.EffectiveLimitsMonotone(max, ramp, l.startedAt, a, b);
      case TokenBucket(c, r) =>
        S.EffectiveLimitsMonotone(c, ramp, l.startedAt, a, b);
        S.EffectiveLimitsMonotone(r, ramp, l.startedAt, a, b);
    }
  }

  // Slow start lets an achievable cost through exactly from the end of its wait on; then the cost is
  // within the effective limit.
  lemma RampOpens(l: Limiter, cost: Cost, now: Duration, t: Duration)
    requires WithinLimit(l.cfg.algorithm, cost) && l.startedAt <= now <= t
    ensures SlowStartPreDeny(l.cfg, l.startedAt, cost, t).None? <==> t >= now + RampWait(l, cost, now)
    ensures SlowStartPreDeny(l.cfg, l.startedAt, cost, t).None? <==> WithinLimit(EffectiveAt(l, t), cost)
  {
    hide S.EffectiveMax, S.EffectiveU64, S.RetryAfterForCost, S.RetryAfterForCostU64;
    EffectiveGrows(l, now, t);
    if SlowStartPreDeny(l.cfg, l.startedAt, cost, now).Some? {
      RampDenialExact(l.cfg, l.startedAt, cost, now, t);
    }
  }

  lemma {:induction false} BeyondLimitNeverAdmitted(l: Limiter, route: Key, cost: Cost, now: Duration, tries: nat)
    requires !WithinLimit(l.cfg.algorithm, cost)
    ensures !Persist(l, route, cost, now, tries).Admitted?
    decreases tries
  {
    hide Reserve, TryAcquire, EnsureCapacity, Insert, SlowStartPreDeny, EffectiveAlgorithm;
    var key := Resolve(l, route);
    var (l', a) := TryAcquire(l, route, cost, now);
    TryAcquireShape(l, route, cost, now);
    EffectiveWithin(l.cfg, l.startedAt, now);
    if PassesGates(l, key, cost, now) {
      RoomKeepsOthers(l, key, now, key);
      var room := Insert(EnsureCapacity(l, key).value, key, now);
      GrantedIsWithinLimit(room.buckets[key], key, EffectiveAt(l, now), cost, now);
    }
    if tries > 0 && now + a.retryAfter <= DURATION_MAX {
      BeyondLimitNeverAdmitted(l', route, cost, now + a.retryAfter, tries - 1);
    }
  }

  lemma GrantedIsWithinLimit(b: Bucket, key: Key, algo: Algorithm, cost: Cost, now: Duration)
    ensures Reserve(b, key, algo, cost, now).1.Granted? ==> WithinLimit(algo, cost)
  {
  }

  // ----- the bucket, past its backoff -----

  function Idle(s: AlgoState, algo: Algorithm, at: Duration): AlgoState {
    match (s, algo)
    case (FixedState(f), FixedWindow(_, window)) => FixedState(MaybeReset(f, at, window))
    case (TokenState(t), TokenBucket(capacity, rate)) => TokenState(Refill(t, capacity, rate, at))
    case _ => s
  }

  // It grants exactly what fits, and else says when to come back and is brought up to date.
  lemma ReserveOpen(b: Bucket, key: Key, algo: Algorithm, cost: Cost, at: Duration)
    requires at >= DeadlineOf(b.blockedUntil) && WithinLimit(algo, cost)
    requires match (b.algo, algo)
             case (FixedState(f), FixedWindow(_, _)) => true
             case (TokenState(t), TokenBucket(_, _)) => true
             case _ => false
    ensures var (b', a) := Reserve(b, key, algo, cost, at);
            && (a.Granted? <==> Fits(b.algo, algo, cost, at))
            && (a.Denied? ==> at + a.retryAfter == ComeBackAt(b.algo, algo, cost, at))
            && (a.Denied? ==> b' == Bucket(None, Idle(b.algo, algo, at)))
  {
    hide Refill, RetryAfterForDeficit, WindowStartFor;
  }

  // A window without reservations takes any cost within the maximum from its end on.
  lemma EndedWindowFits(f: Fixed, max: u32, window: Window, cost: Cost, at: Duration)
    requires f.reserved == 0 && cost <= max && at >= Later(f.windowStart, window)
    ensures Fits(FixedState(f), FixedWindow(max, window), cost, at)
  {
    hide WindowStartFor;
  }

  // A pool has earned its deficit when it said to come back: capacity and rate are no lower by then.
  lemma RefilledPoolFits(t: Tokens, c: u64, r: u64, c': u64, r': u64, cost: Cost, at: Duration)
    requires cost <= c <= c' && 0 < r <= r' && t.lastUpdate <= at
    requires var s := TokenState(t);
             !Fits(s, TokenBucket(c, r), cost, at) && ComeBackAt(s, TokenBucket(c, r), cost, at) <= DURATION_MAX
    ensures var s, algo := TokenState(t), TokenBucket(c, r);
            Fits(Idle(s, algo, at), TokenBucket(c', r'), cost, ComeBackAt(s, algo, cost, at))
  {
    hide Refill, RetryAfterForDeficit, CreditsAdded, Earned;
    var t0 := Refill(t, c, r, at);
    assert t0.lastUpdate == at by { RefillTime(t, c, r, at); }
    var again := ComeBackAt(TokenState(t), TokenBucket(c, r), cost, at);
    RetryExact(again - at, cost - t0.credits, r);
    CreditsAddedExact(again - at, r);
    assert Earned(r, 0) == 0 by { EarnedInNoTime(r); }
    RefillExact(t0, c', r', again);
    EarnedMono(r, r', again - at, again - at);
  }

  lemma RefillTime(t: Tokens, capacity: u64, rate: u64, at: Duration)
    ensures Refill(t, capacity, rate, at).lastUpdate == Max(t.lastUpdate, at)
  {
  }

  // A pool denies a cost within its capacity forever, naming Duration::MAX, exactly at rate zero.
  lemma NamesForeverIff(s: Tokens, key: Key, capacity: u64, rate: u64, cost: Cost, at: Duration)
    requires cost <= capacity && TakeFromPool(s, key, capacity, rate, cost, at).1.Denied?
    ensures var a := TakeFromPool(s, key, capacity, rate, cost, at).1;
            && (a.retryAfter == DURATION_MAX <==> rate == 0)
            && (a.reason == Unachievable <==> rate == 0)
  {
    var missing := cost - Refill(s, capacity, rate, at).credits;
    if rate > 0 {
      RetryIsCeiling(missing, rate);
      CeilAtMost(missing * NANOS, rate, missing * NANOS);
      MulMono(1, rate, missing * NANOS);
    }
  }

  // A window kept open by reservations: with no other call, a request at any later time is granted
  // exactly if it fits beside what the window holds, and told to wait for the window's end - which,
  // once past, is a wait of zero.
  lemma HeldWindowGrantsIff(b: Bucket, key: Key, max: u32, window: Window, cost: Cost, at: Duration)
    requires b.algo.FixedState? && b.algo.f.reserved != 0 && at >= DeadlineOf(b.blockedUntil) && cost <= max
    ensures var f := b.algo.f;
            var (b', a) := Reserve(b, key, FixedWindow(max, window), cost, at);
            && (a.Granted? <==> f.spent + f.reserved + cost <= max)
            && (a.Denied? ==> b'.algo == b.algo && a.retryAfter == SatSub(Later(f.windowStart, window), at))
  {
  }

  // ----- the last gate -----

  // Past all other gates at `at`.
  predicate Open(l: Limiter, key: Key, cost: Cost, at: Duration) {
    && key in l.buckets && Ready(l, key, at) && WithinLimit(l.cfg.algorithm, cost)
    && at >= DeadlineOf(l.globalBlockedUntil) && at >= DeadlineOf(l.buckets[key].blockedUntil)
    && SlowStartPreDeny(l.cfg, l.startedAt, cost, at).None?
  }

  function Asked(l: Limiter, key: Key, at: Duration): Limiter
    requires key in l.buckets
  {
    l.(buckets := l.buckets[key := Bucket(None, Idle(l.buckets[key].algo, EffectiveAt(l, at), at))])
  }

  // One request past the other gates.
  lemma AskOpen(l: Limiter, route: Key, cost: Cost, at: Duration)
    requires Open(l, Resolve(l, route), cost, at)
    ensures var key := Resolve(l, route);
            var s, algo := l.buckets[key].algo, EffectiveAt(l, at);
            var (l', a) := TryAcquire(l, route, cost, at);
            && (a.Granted? <==> Fits(s, algo, cost, at))
            && (a.Denied? ==> at + a.retryAfter == ComeBackAt(s, algo, cost, at) && l' == Asked(l, key, at))
  {
    hide TryAcquire, Reserve, SlowStartPreDeny, Fits, ComeBackAt, Idle, EffectiveAlgorithm;
    var key := Resolve(l, route);
    AcquireAtGates(l, route, cost, at);
    RampOpens(l, cost, at, at);
    EffectiveGrows(l, at, at);
    EffectiveWithin(l.cfg, l.startedAt, at);
    ReserveOpen(l.buckets[key], key, EffectiveAt(l, at), cost, at);
  }

  // Having been denied, the limiter is still past all other gates at any later time.
  lemma StaysOpen(l: Limiter, key: Key, cost: Cost, at: Duration, t: Duration)
    requires Open(l, key, cost, at) && at <= t
    ensures Open(l, key, cost, t) && Open(Asked(l, key, at), key, cost, t)
  {
    hide SlowStartPreDeny, EffectiveAlgorithm, WindowStartFor;
    RampOpens(l, cost, at, t);
    RampOpens(l, cost, at, at);
    EffectiveWithin(l.cfg, l.startedAt, at);
    if l.buckets[key].algo.TokenState? {
      RefillTime(l.buckets[key].algo.t, EffectiveAt(l, at).capacity, EffectiveAt(l, at).refillPerSec, at);
    }
  }

  // What a run of attempts comes to.
  predicate Settles(p: Persistence, served: bool, at: nat, most: nat, tries: nat) {
    && (served && tries >= most ==> p.Admitted?)
    && (p.Admitted? ==> served && p.denials <= most && p.at == at)
  }

  // A window kept open by reservations the cost does not fit beside denies with a wait of zero, forever.
  lemma {:induction false} HeldWindowDeniesForever(l: Limiter, route: Key, cost: Cost, at: Duration, tries: nat)
    requires Open(l, Resolve(l, route), cost, at)
    requires var b := l.buckets[Resolve(l, route)];
             && b.blockedUntil.None? && b.algo.FixedState? && b.algo.f.reserved != 0
             && !Fits(b.algo, EffectiveAt(l, at), cost, at) && ComeBackAt(b.algo, EffectiveAt(l, at), cost, at) == at
    ensures !Persist(l, route, cost, at, tries).Admitted?
    decreases tries
  {
    hide TryAcquire, SlowStartPreDeny, EffectiveAlgorithm, WindowStartFor;
    var key := Resolve(l, route);
    EffectiveWithin(l.cfg, l.startedAt, at);
    AskOpen(l, route, cost, at);
    assert Asked(l, key, at).buckets[key] == l.buckets[key];
    assert Asked(l, key, at) == l;
    assert TryAcquire(l, route, cost, at).1.Denied?;
    if tries > 0 {
      HeldWindowDeniesForever(l, route, cost, at, tries - 1);
    }
  }

  lemma WindowStage(l: Limiter, route: Key, cost: Cost, at: Duration, tries: nat)
    requires Open(l, Resolve(l, route), cost, at) && l.cfg.algorithm.FixedWindow?
    ensures var key := Resolve(l, route);
            var s, algo := l.buckets[key].algo, EffectiveAt(l, at);
            Settles(Persist(l, route, cost, at, tries), Serves(l, key, cost, at),
                    if Fits(s, algo, cost, at) then at else ComeBackAt(s, algo, cost, at), 1, tries)
  {
    hide TryAcquire, SlowStartPreDeny, EffectiveAlgorithm, WindowStartFor, Fits;
    var key := Resolve(l, route);
    var s, algo := l.buckets[key].algo, EffectiveAt(l, at);
    EffectiveWithin(l.cfg, l.startedAt, at);
    AskOpen(l, route, cost, at);
    if !Fits(s, algo, cost, at) {
      var f, again := s.f, ComeBackAt(s, algo, cost, at);
      var l', late := Asked(l, key, at), EffectiveAt(l, again);
      StaysOpen(l, key, cost, at, again);
      RampOpens(l, cost, at, again);
      RampOpens(l, cost, at, at);
      EffectiveWithin(l.cfg, l.startedAt, again);
      AskOpen(l', route, cost, again);
      var a := TryAcquire(l, route, cost, at).1;
      assert a.Denied? && at + a.retryAfter == again;
      if f.reserved == 0 {
        if at >= Later(f.windowStart, algo.window) { EndedWindowFits(f, algo.maxPerWindow, algo.window, cost, at); }
        EndedWindowFits(f, late.maxPerWindow, late.window, cost, again);
      } else {
        assert l'.buckets[key].algo == s;
        if !Fits(s, late, cost, again) && tries > 0 {
          HeldWindowDeniesForever(l', route, cost, again, tries - 1);
        }
      }
    }
  }

  // At instant zero an open pool is not ramped: a ramp is still at zero there.
  lemma NoRampAtZero(l: Limiter, cost: Cost)
    requires l.cfg.algorithm.TokenBucket? && l.startedAt == 0 && SlowStartPreDeny(l.cfg, l.startedAt, cost, 0).None?
    ensures forall t: Duration :: EffectiveAt(l, t) == l.cfg.algorithm
  {
    hide S.EffectiveU64, S.RetryAfterForCostU64;
    if l.cfg.slowStart.Some? {
      var ramp := l.cfg.slowStart.value;
      S.RampEnds(l.cfg.algorithm.capacity, ramp, 0, 0);
      forall t: Duration ensures EffectiveAt(l, t) == l.cfg.algorithm {
        S.RampEnds(l.cfg.algorithm.capacity, ramp, 0, t);
        S.RampEnds(l.cfg.algorithm.refillPerSec, ramp, 0, t);
      }
    }
  }

  lemma PoolStage(l: Limiter, route: Key, cost: Cost, at: Duration, tries: nat)
    requires Open(l, Resolve(l, route), cost, at) && l.cfg.algorithm.TokenBucket?
    ensures var key := Resolve(l, route);
            var s, algo := l.buckets[key].algo, EffectiveAt(l, at);
            Settles(Persist(l, route, cost, at, tries), Serves(l, key, cost, at),
                    if Fits(s, algo, cost, at) then at else ComeBackAt(s, algo, cost, at), 1, tries)
  {
    hide TryAcquire, SlowStartPreDeny, EffectiveAlgorithm, Refill, RetryAfterForDeficit;
    var key := Resolve(l, route);
    var s, algo := l.buckets[key].algo, EffectiveAt(l, at);
    EffectiveWithin(l.cfg, l.startedAt, at);
    AskOpen(l, route, cost, at);
    var a, again := TryAcquire(l, route, cost, at).1, ComeBackAt(s, algo, cost, at);
    assert a.Denied? ==> at + a.retryAfter == again;
    if a.Denied? && again <= DURATION_MAX {
      var l' := Asked(l, key, at);
      StaysOpen(l, key, cost, at, again);
      EffectiveGrows(l, at, again);
      RampOpens(l, cost, at, at);
      AskOpen(l', route, cost, again);
      if algo.refillPerSec > 0 {
        var late := EffectiveAt(l, again);
        RefilledPoolFits(s.t, algo.capacity, algo.refillPerSec, late.capacity, late.refillPerSec, cost, at);
      } else {
        NoRampAtZero(l, cost);
        NothingEarnedAtRateZero(s.t, algo.capacity, cost, at, again);
        assert EffectiveAt(l', again) == algo && again == DURATION_MAX;
        var late := TryAcquire(l', route, cost, again).1;
        assert late.Denied? && late.retryAfter == DURATION_MAX;
      }
    }
  }

  lemma NothingEarnedAtRateZero(t: Tokens, capacity: u64, cost: Cost, at: Duration, again: Duration)
    requires !Fits(TokenState(t), TokenBucket(capacity, 0), cost, at)
    ensures !Fits(Idle(TokenState(t), TokenBucket(capacity, 0), at), TokenBucket(capacity, 0), cost, again)
  {
  }

  // ----- the gates before it -----

  function Settled(l: Limiter, key: Key, cost: Cost, now: Duration): nat {
    if Servable(l, key, cost, now) then ServedAt(l, key, cost, now) else 0
  }

  // A denial that changes nothing and leads to `t` costs one denial more than asking at `t`.
  lemma OneMoreDenial(l: Limiter, route: Key, cost: Cost, now: Duration, t: nat, most: nat, tries: nat)
    requires var (l', a) := TryAcquire(l, route, cost, now);
             a.Denied? && l' == l && t == now + a.retryAfter
    requires var key := Resolve(l, route);
             && GateAt(l, key, cost, now) >= t
             && (t <= DURATION_MAX ==> GateAt(l, key, cost, t) == GateAt(l, key, cost, now))
             && (t <= DURATION_MAX && tries > 0 ==>
                   Settles(Persist(l, route, cost, t, tries - 1), Servable(l, key, cost, t), Settled(l, key, cost, t),
                           most, tries - 1))
    ensures var key := Resolve(l, route);
            Settles(Persist(l, route, cost, now, tries), Servable(l, key, cost, now), Settled(l, key, cost, now),
                    most + 1, tries)
  {
    hide TryAcquire, GateAt, Serves, Fits, ComeBackAt, WithinLimit, EnsureCapacity;
  }

  lemma CapacityStage(l: Limiter, route: Key, cost: Cost, now: Duration, tries: nat)
    requires Open(l, Resolve(l, route), cost, now)
    ensures var key := Resolve(l, route);
            Settles(Persist(l, route, cost, now, tries), Servable(l, key, cost, now), Settled(l, key, cost, now),
                    1, tries)
  {
    hide SlowStartPreDeny, Persist, Serves, Fits, ComeBackAt, EffectiveAlgorithm;
    assert GateAt(l, Resolve(l, route), cost, now) == now;
    if l.cfg.algorithm.FixedWindow? {
      WindowStage(l, route, cost, now, tries);
    } else {
      PoolStage(l, route, cost, now, tries);
    }
  }

  // Past slow start: the bucket's backoff may deny once before.
  lemma BackoffStage(l: Limiter, route: Key, cost: Cost, now: Duration, tries: nat)
    requires var key := Resolve(l, route);
             && key in l.buckets && Ready(l, key, now) && WithinLimit(l.cfg.algorithm, cost)
             && now >= DeadlineOf(l.globalBlockedUntil) && SlowStartPreDeny(l.cfg, l.startedAt, cost, now).None?
    ensures var key := Resolve(l, route);
            Settles(Persist(l, route, cost, now, tries), Servable(l, key, cost, now), Settled(l, key, cost, now),
                    2, tries)
  {
    hide SlowStartPreDeny, Persist, Servable, Settled, EffectiveAlgorithm, TryAcquire, MaybeReset, TakeFromWindow,
         TakeFromPool;
    var key := Resolve(l, route);
    var until := DeadlineOf(l.buckets[key].blockedUntil);
    if now < until {
      AcquireAtGates(l, route, cost, now);
      assert l.(buckets := l.buckets[key := l.buckets[key]]) == l;
      RampOpens(l, cost, now, until);
      RampOpens(l, cost, now, now);
      if tries > 0 { CapacityStage(l, route, cost, until, tries - 1); }
      OneMoreDenial(l, route, cost, now, until, 1, tries);
    } else {
      CapacityStage(l, route, cost, now, tries);
    }
  }

  // Past the global backoff: slow start may deny once before.
  lemma RampStage(l: Limiter, route: Key, cost: Cost, now: Duration, tries: nat)
    requires var key := Resolve(l, route);
             && key in l.buckets && Ready(l, key, now) && WithinLimit(l.cfg.algorithm, cost)
             && now >= DeadlineOf(l.globalBlockedUntil)
    ensures var key := Resolve(l, route);
            Settles(Persist(l, route, cost, now, tries), Servable(l, key, cost, now), Settled(l, key, cost, now),
                    3, tries)
  {
    hide SlowStartPreDeny, Persist, Servable, Settled, EffectiveAlgorithm, TryAcquire, Reserve;
    var t := now + RampWait(l, cost, now);
    if SlowStartPreDeny(l.cfg, l.startedAt, cost, now).Some? {
      AcquireAtGates(l, route, cost, now);
      if t <= DURATION_MAX {
        RampOpens(l, cost, now, t);
        RampOpens(l, cost, t, t);
        if tries > 0 { BackoffStage(l, route, cost, t, tries - 1); }
      }
      OneMoreDenial(l, route, cost, now, t, 2, tries);
    } else {
      BackoffStage(l, route, cost, now, tries);
    }
  }

  // ----- a key that is not tracked yet -----

  // A refusal by the key table changes nothing, so it is repeated however often the caller asks.
  lemma {:induction false} RefusedNeverAdmitted(l: Limiter, route: Key, cost: Cost, now: Duration, tries: nat)
    requires EnsureCapacity(l, Resolve(l, route)).None?
    ensures !Persist(l, route, cost, now, tries).Admitted?
    decreases tries
  {
    hide TryAcquire, EnsureCapacity, SlowStartPreDeny;
    TryAcquireShape(l, route, cost, now);
    var a := TryAcquire(l, route, cost, now).1;
    if tries > 0 && now + a.retryAfter <= DURATION_MAX {
      RefusedNeverAdmitted(l, route, cost, now + a.retryAfter, tries - 1);
    }
  }

  // A new bucket holds a whole window or a full pool.
  lemma NewBucketFits(configured: Algorithm, algo: Algorithm, cost: Cost, at: Duration)
    requires WithinLimit(algo, cost)
    requires match (configured, algo)
             case (FixedWindow(max, w), FixedWindow(max', w')) => w' == w
             case (TokenBucket(c, r), TokenBucket(c', r')) => c' <= c
             case _ => false
    ensures Fits(NewBucket(at, configured).algo, algo, cost, at)
  {
    hide WindowStartFor;
  }

  // Past the other gates, a key the table takes is granted at once, and one it refuses never.
  lemma TableStage(l: Limiter, route: Key, cost: Cost, now: Duration, tries: nat)
    requires var key := Resolve(l, route);
             && key !in l.buckets && l.startedAt <= now && WithinLimit(l.cfg.algorithm, cost)
             && now >= DeadlineOf(l.globalBlockedUntil) && SlowStartPreDeny(l.cfg, l.startedAt, cost, now).None?
    ensures var key := Resolve(l, route);
            Settles(Persist(l, route, cost, now, tries), Servable(l, key, cost, now), Settled(l, key, cost, now),
                    0, tries)
  {
    hide TryAcquire, Reserve, EnsureCapacity, Insert, SlowStartPreDeny, Fits, ComeBackAt, Idle, EffectiveAlgorithm;
    var key, algo := Resolve(l, route), EffectiveAt(l, now);
    assert GateAt(l, key, cost, now) == now;
    if EnsureCapacity(l, key).None? {
      RefusedNeverAdmitted(l, route, cost, now, tries);
    } else {
      TryAcquireShape(l, route, cost, now);
      RoomKeepsOthers(l, key, now, key);
      RampOpens(l, cost, now, now);
      EffectiveWithin(l.cfg, l.startedAt, now);
      ReserveOpen(NewBucket(now, l.cfg.algorithm), key, algo, cost, now);
      NewBucketFits(l.cfg.algorithm, algo, cost, now);
    }
  }

  lemma NewKeyRampStage(l: Limiter, route: Key, cost: Cost, now: Duration, tries: nat)
    requires var key := Resolve(l, route);
             && key !in l.buckets && l.startedAt <= now && WithinLimit(l.cfg.algorithm, cost)
             && now >= DeadlineOf(l.globalBlockedUntil)
    ensures var key := Resolve(l, route);
            Settles(Persist(l, route, cost, now, tries), Servable(l, key, cost, now), Settled(l, key, cost, now),
                    1, tries)
  {
    hide SlowStartPreDeny, Persist, Servable, Settled, EffectiveAlgorithm, TryAcquire, EnsureCapacity;
    var t := now + RampWait(l, cost, now);
    if SlowStartPreDeny(l.cfg, l.startedAt, cost, now).Some? {
      AcquireAtGates(l, route, cost, now);
      if t <= DURATION_MAX {
        RampOpens(l, cost, now, t);
        RampOpens(l, cost, t, t);
        if tries > 0 { TableStage(l, route, cost, t, tries - 1); }
      }
      OneMoreDenial(l, route, cost, now, t, 0, tries);
    } else {
      TableStage(l, route, cost, now, tries);
    }
  }

  // ----- every key -----

  // At most one denial for each gate; a key that is not tracked has no bucket to deny it.
  function MostDenials(l: Limiter, key: Key): nat { if key in l.buckets then 4 else 2 }

  // Waiting as told comes to an admission if and only if the request is servable, after at most four
  // denials - two for a new key - and at the instant the waits add up to.
  predicate AdmittedIffServable(l: Limiter, route: Key, cost: Cost, now: Duration, tries: nat) {
    var key := Resolve(l, route);
    var p := Persist(l, route, cost, now, tries);
    && (tries >= MostDenials(l, key) ==> (p.Admitted? <==> Servable(l, key, cost, now)))
    && (p.Admitted? ==>
          Servable(l, key, cost, now) && p.denials <= MostDenials(l, key) && p.at == ServedAt(l, key, cost, now))
  }

  // From any state, for any key.
  lemma AdmittedWithinFourDenialsIff(l: Limiter, route: Key, cost: Cost, now: Duration, tries: nat)
    requires Ready(l, Resolve(l, route), now)
    ensures AdmittedIffServable(l, route, cost, now, tries)
  {
    hide SlowStartPreDeny, Persist, EffectiveAlgorithm, TryAcquire, Reserve, Serves, EnsureCapacity;
    var key, until := Resolve(l, route), DeadlineOf(l.globalBlockedUntil);
    if !WithinLimit(l.cfg.algorithm, cost) {
      BeyondLimitNeverAdmitted(l, route, cost, now, tries);
    } else if now < until {
      AcquireAtGates(l, route, cost, now);
      if tries > 0 { PastGlobalBackoff(l, route, cost, until, tries - 1); }
      OneMoreDenial(l, route, cost, now, until, MostDenials(l, key) - 1, tries);
    } else {
      PastGlobalBackoff(l, route, cost, now, tries);
    }
  }

  lemma PastGlobalBackoff(l: Limiter, route: Key, cost: Cost, now: Duration, tries: nat)
    requires var key := Resolve(l, route);
             Ready(l, key, now) && WithinLimit(l.cfg.algorithm, cost) && now >= DeadlineOf(l.globalBlockedUntil)
    ensures var key := Resolve(l, route);
            Settles(Persist(l, route, cost, now, tries), Servable(l, key, cost, now), Settled(l, key, cost, now),
                    MostDenials(l, key) - 1, tries)
  {
    hide Persist, Servable, Settled;
    if Resolve(l, route) in l.buckets {
      RampStage(l, route, cost, now, tries);
    } else {
      NewKeyRampStage(l, route, cost, now, tries);
    }
  }

  // ----- when a request is servable -----

  // No gate stays shut past the end of the ramp and the deadlines.
  function LatestGate(l: Limiter, key: Key, now: Duration): nat
    requires key in l.buckets
  {
    var ramp := if l.cfg.slowStart.Some? then l.cfg.slowStart.value else 0;
    Max(Max(now, l.startedAt + ramp), Max(DeadlineOf(l.globalBlockedUntil), DeadlineOf(l.buckets[key].blockedUntil)))
  }

  // The last wait is at most one window, or the time the rate in force earns the whole cost in.
  function LastWait(algo: Algorithm, cost: Cost): nat {
    match algo
    case FixedWindow(_, window) => window
    case TokenBucket(_, rate) => if rate > 0 then RetryAfterForDeficit(cost, rate) else 0
  }

  // An achievable cost is servable if the window holds no reservation, or the pool refills at all at
  // the time of asking.
  lemma ServableWhen(l: Limiter, key: Key, cost: Cost, now: Duration)
    requires key in l.buckets && Ready(l, key, now) && WithinLimit(l.cfg.algorithm, cost)
    requires l.buckets[key].algo.FixedState? ==> l.buckets[key].algo.f.reserved == 0
    requires l.cfg.algorithm.TokenBucket? ==> EffectiveAt(l, now).refillPerSec > 0
    requires LatestGate(l, key, now) + LastWait(EffectiveAt(l, now), cost) <= DURATION_MAX
    ensures Servable(l, key, cost, now)
    ensures ServedAt(l, key, cost, now) <= LatestGate(l, key, now) + LastWait(EffectiveAt(l, now), cost)
  {
    hide SlowStartPreDeny, EffectiveAlgorithm, Fits, RetryAfterForDeficit, Refill;
    GateBeforeLatest(l, key, cost, now);
    var at := GateAt(l, key, cost, now);
    EffectiveGrows(l, now, at);
    EffectiveWithin(l.cfg, l.startedAt, now);
    if l.cfg.algorithm.TokenBucket? {
      var early, algo := EffectiveAt(l, now), EffectiveAt(l, at);
      var missing := SatSub(cost, Refill(l.buckets[key].algo.t, algo.capacity, algo.refillPerSec, at).credits);
      RetryShrinks(missing, algo.refillPerSec, cost, early.refillPerSec);
    }
  }

  lemma GateBeforeLatest(l: Limiter, key: Key, cost: Cost, now: Duration)
    requires key in l.buckets && Ready(l, key, now) && WithinLimit(l.cfg.algorithm, cost)
    ensures now <= GateAt(l, key, cost, now) <= LatestGate(l, key, now)
  {
    if l.cfg.slowStart.Some? && l.cfg.slowStart.value > 0 {
      var opens: Duration := Max(now, DeadlineOf(l.globalBlockedUntil));
      var limit := if l.cfg.algorithm.FixedWindow? then l.cfg.algorithm.maxPerWindow else l.cfg.algorithm.capacity;
      S.NeededTime(limit, l.cfg.slowStart.value, cost, opens - l.startedAt);
      S.SmallCostFits(l.cfg.slowStart.value, cost);
    }
  }

  lemma RetryShrinks(a: u64, fast: u64, b: u64, slow: u64)
    requires a <= b && 0 < slow <= fast
    ensures RetryAfterForDeficit(a, fast) <= RetryAfterForDeficit(b, slow)
  {
    RetryIsCeiling(a, fast);
    RetryIsCeiling(b, slow);
    var d := RetryAfterForDeficit(b, slow);
    CeilAtMost(b * NANOS, slow, d);
    MulMono(slow, fast, d);
    CeilAtMost(a * NANOS, fast, d);
  }

  // ----- reachable states -----

  lemma ReachableIsReady(w: World, key: Key, now: Duration)
    requires TimesOk(w) && w.clock <= now && w.lim.startedAt <= now
    ensures Ready(w.lim, key, now)
  {
    hide TableOk;
    if key in w.lim.buckets {
      var c := CellOf(w, key);
      assert CellOk(c, w.lim.cfg.algorithm) && TimeOk(c, w.clock);
    }
  }

  // From every state a run reaches with a clock that does not go back.
  lemma ReachableRetriesAreBoundedIff(cfg: Config, startedAt: Duration, ops: seq<Op>, c: (World, Op) -> bool,
                                      route: Key, cost: Cost, now: Duration, tries: nat)
    requires Along(Start(cfg, startedAt), ops, c)
    requires forall w, op :: c(w, op) ==> w.clock <= op.now
    requires var w := Run(Start(cfg, startedAt), ops); w.clock <= now && w.lim.startedAt <= now
    ensures AdmittedIffServable(Run(Start(cfg, startedAt), ops).lim, route, cost, now, tries)
  {
    hide Along, Run, Start, Ready, AdmittedIffServable, TimesOk;
    StartIsTimely(cfg, startedAt);
    RunKeepsTimes(Start(cfg, startedAt), ops, c);
    var w := Run(Start(cfg, startedAt), ops);
    ReachableIsReady(w, Resolve(w.lim, route), now);
    AdmittedWithinFourDenialsIff(w.lim, route, cost, now, tries);
  }

  // The same in terms of what the caller holds: a window none of whose permits are outstanding, or a
  // pool that refills, ramped or not.
  lemma ReachableRetriesAreBounded(cfg: Config, startedAt: Duration, ops: seq<Op>, c: (World, Op) -> bool,
                                   route: Key, cost: Cost, now: Duration)
    requires Along(Start(cfg, startedAt), ops, c)
    requires forall w, op :: c(w, op) ==> w.clock <= op.now
    requires var w := Run(Start(cfg, startedAt), ops);
             w.clock <= now && w.lim.startedAt <= now && Resolve(w.lim, route) in w.lim.buckets
    requires var w := Run(Start(cfg, startedAt), ops);
             var key, algo := Resolve(w.lim, route), EffectiveAt(w.lim, now);
             && WithinLimit(w.lim.cfg.algorithm, cost)
             && (if algo.TokenBucket? then algo.refillPerSec > 0 else Of(w.ledger, key) == [])
             && LatestGate(w.lim, key, now) + LastWait(algo, cost) <= DURATION_MAX
    ensures var w := Run(Start(cfg, startedAt), ops);
            var p := Persist(w.lim, route, cost, now, 4);
            && p.Admitted? && p.denials <= 4
            && p.at <= LatestGate(w.lim, Resolve(w.lim, route), now) + LastWait(EffectiveAt(w.lim, now), cost)
  {
    hide Along, Run, Start, Persist, Ready, LatestGate, LastWait, Servable, ServedAt, EffectiveAlgorithm;
    StartIsTimely(cfg, startedAt);
    RunKeepsTimes(Start(cfg, startedAt), ops, c);
    var w := Run(Start(cfg, startedAt), ops);
    var key := Resolve(w.lim, route);
    EffectiveWithin(w.lim.cfg, w.lim.startedAt, now);
    ReachableIsReady(w, key, now);
    if w.lim.buckets[key].algo.FixedState? && Of(w.ledger, key) == [] { HoldsNothing(w, key); }
    ServableWhen(w.lim, key, cost, now);
    ReachableRetriesAreBoundedIff(cfg, startedAt, ops, c, route, cost, now, 4);
  }

  lemma HoldsNothing(w: World, key: Key)
    requires Accounted(w) && key in w.lim.buckets && w.lim.buckets[key].algo.FixedState? && Of(w.ledger, key) == []
    ensures w.lim.buckets[key].algo.f.reserved == 0
  {
    hide TableOk;
    var c := CellOf(w, key);
    assert CellOk(c, w.lim.cfg.algorithm);
    NoCostNoPermit(c.outs);
  }

  // ----- what is not served -----

  function OneKey(cfg: Config, s: AlgoState): Limiter { Limiter(cfg, 0, map[], map[7 := Bucket(None, s)], [7], None) }

  // A window of one, held: a caller that asks at 5 is told to wait for the window's end at 10, and from
  // there to wait for nothing, forever.
  lemma HeldWindowServesNobody(tries: nat)
    ensures var cfg := Config(FixedWindow(1, 10), None, DenyNewKey, None);
            var l := Step(Start(cfg, 0), Acquire(7, 1, 0)).lim;
            && l == OneKey(cfg, FixedState(Fixed(0, 1, 0)))
            && TryAcquire(l, 7, 1, 5).1 == Denied(5, WindowExhausted)
            && TryAcquire(l, 7, 1, 10).1 == Denied(0, WindowExhausted)
            && !Persist(l, 7, 1, 5, tries).Admitted?
  {
    var cfg := Config(FixedWindow(1, 10), None, DenyNewKey, None);
    OnlyWindow(0, 0, 10);
    hide WindowStartFor;
    var l := Step(Start(cfg, 0), Acquire(7, 1, 0)).lim;
    assert l == OneKey(cfg, FixedState(Fixed(0, 1, 0)));
    AdmittedWithinFourDenialsIff(l, 7, 1, 5, tries);
  }

  // Ten credits at one a second, ramped over ten seconds. Once the pool is drained, a second into the
  // ramp, the rate in force rounds to zero: the caller is told to wait forever, where asking again ten
  // seconds later would do.
  const SLOW := Config(TokenBucket(10, 1), None, DenyNewKey, Some(10_000_000_000))

  lemma RampedRateAtZero(at: Duration)
    requires 1_000_000_000 <= at < 2_000_000_000
    ensures EffectiveAlgorithm(SLOW, 0, at) == TokenBucket(1, 0) && SlowStartPreDeny(SLOW, 0, 1, at).None?
  {
    assert SatMul128(10, at) == 10 * at && SatMul128(1, at) == at;
  }

  function SlowPool(t: Tokens): Bucket { Bucket(None, TokenState(t)) }

  lemma SlowPoolMoves()
    ensures var (b, a) := Reserve(NewBucket(1_000_000_000, SLOW.algorithm), 7, TokenBucket(1, 0), 1, 1_000_000_000);
            b == SlowPool(Tokens(1_000_000_000, 9, 1)) && a.Granted?
    ensures var (b, a) := Reserve(SlowPool(Tokens(1_000_000_000, 9, 1)), 7, TokenBucket(1, 0), 1, 1_000_000_001);
            b == SlowPool(Tokens(1_000_000_001, 0, 2)) && a.Granted?
    ensures Reserve(SlowPool(Tokens(1_000_000_001, 0, 2)), 7, TokenBucket(1, 0), 1, 1_000_000_002).1
         == Denied(DURATION_MAX, Unachievable)
    ensures Reserve(SlowPool(Tokens(1_000_000_001, 0, 2)), 7, TokenBucket(10, 1), 1, 11_000_000_001).1.Granted?
  {
    assert CreditsAdded(10_000_000_000, 1) == 10 by { assert SatMul128(10_000_000_000, 1) == 10_000_000_000; }
    hide CreditsAdded, RetryAfterForDeficit;
  }

  lemma SlowFirstUse()
    ensures TryAcquire(New(SLOW, 0), 7, 1, 1_000_000_000).0 == OneKey(SLOW, TokenState(Tokens(1_000_000_000, 9, 1)))
  {
    RampedRateAtZero(1_000_000_000);
    var (b, a) := Reserve(NewBucket(1_000_000_000, SLOW.algorithm), 7, TokenBucket(1, 0), 1, 1_000_000_000);
    assert b == SlowPool(Tokens(1_000_000_000, 9, 1));
  }

  lemma SlowSecondUse()
    ensures TryAcquire(OneKey(SLOW, TokenState(Tokens(1_000_000_000, 9, 1))), 7, 1, 1_000_000_001).0 == Dry()
  {
    RampedRateAtZero(1_000_000_001);
    SlowPoolMoves();
    hide TryAcquire, Reserve, EffectiveAlgorithm, SlowStartPreDeny;
    AcquireAtGates(OneKey(SLOW, TokenState(Tokens(1_000_000_000, 9, 1))), 7, 1, 1_000_000_001);
  }

  lemma SlowRunDrains()
    ensures Step(Step(Start(SLOW, 0), Acquire(7, 1, 1_000_000_000)), Acquire(7, 1, 1_000_000_001)).lim == Dry()
  {
    hide TryAcquire;
    SlowFirstUse();
    SlowSecondUse();
  }

  function Dry(): Limiter { OneKey(SLOW, TokenState(Tokens(1_000_000_001, 0, 2))) }

  lemma RampedPoolNamesForever(tries: nat)
    ensures var l := Step(Step(Start(SLOW, 0), Acquire(7, 1, 1_000_000_000)), Acquire(7, 1, 1_000_000_001)).lim;
            && TryAcquire(l, 7, 1, 1_000_000_002).1 == Denied(DURATION_MAX, Unachievable)
            && !Persist(l, 7, 1, 1_000_000_002, tries).Admitted?
            && TryAcquire(l, 7, 1, 11_000_000_001).1.Granted?
  {
    RampedRateAtZero(1_000_000_002);
    RampOverAt(11_000_000_001);
    SlowRunDrains();
    SlowPoolMoves();
    NeverServable();
    hide Step, TryAcquire, Reserve, Persist, Servable, EffectiveAlgorithm, SlowStartPreDeny;
    AcquireAtGates(Dry(), 7, 1, 1_000_000_002);
    AcquireAtGates(Dry(), 7, 1, 11_000_000_001);
    AdmittedWithinFourDenialsIff(Dry(), 7, 1, 1_000_000_002, tries);
  }

  lemma RampOverAt(at: Duration)
    requires at >= 10_000_000_000
    ensures EffectiveAlgorithm(SLOW, 0, at) == TokenBucket(10, 1) && SlowStartPreDeny(SLOW, 0, 1, at).None?
  {
  }

  lemma NeverServable()
    ensures !Servable(Dry(), 7, 1, 1_000_000_002)
  {
    RampedRateAtZero(1_000_000_002);
  }

  // A table of one key, under either policy.
  function Single(policy: OverflowPolicy): Config { Config(FixedWindow(1, 10), Some(1), policy, None) }

  const FIRST := Permit(7, 1, 0, 0, 10, WindowPermit(0))

  lemma SingleUse(policy: OverflowPolicy)
    ensures var cfg := Single(policy);
            && TryAcquire(New(cfg, 0), 7, 1, 0) == (OneKey(cfg, FixedState(Fixed(0, 1, 0))), Granted(FIRST))
  {
    var cfg := Single(policy);
    OnlyWindow(0, 0, 10);
    hide WindowStartFor;
    var (b, a) := Reserve(NewBucket(0, cfg.algorithm), 7, cfg.algorithm, 1, 0);
    assert b == Bucket(None, FixedState(Fixed(0, 1, 0))) && a == Granted(FIRST);
    var l := TryAcquire(New(cfg, 0), 7, 1, 0).0;
    assert l.buckets == map[7 := b] && l.fifo == [7];
  }

  lemma SingleConfirm(policy: OverflowPolicy)
    ensures var cfg := Single(policy);
            CommitPermit(OneKey(cfg, FixedState(Fixed(0, 1, 0))), FIRST, Confirmed, 0)
            == OneKey(cfg, FixedState(Fixed(0, 0, 1)))
  {
    hide WindowStartFor;
    var b := Bucket(None, FixedState(Fixed(0, 1, 0)));
    assert Buckets.Commit(b, FIRST, Confirmed, 0, FixedWindow(1, 10)) == Bucket(None, FixedState(Fixed(0, 0, 1)));
  }

  lemma SingleKeyRun(policy: OverflowPolicy)
    ensures var cfg := Single(policy);
            var w := Step(Start(cfg, 0), Acquire(7, 1, 0));
            && w.lim == OneKey(cfg, FixedState(Fixed(0, 1, 0))) && w.ledger == [FIRST]
            && Step(w, Op.Commit(FIRST, Confirmed, 0)).lim == OneKey(cfg, FixedState(Fixed(0, 0, 1)))
  {
    hide TryAcquire, CommitPermit, RemoveOne, Tracked;
    SingleUse(policy);
    SingleConfirm(policy);
  }

  // Under DenyNewKey nothing is outstanding, and still the second key is told to wait for a window,
  // and after it again, forever.
  lemma FullTableServesNoNewKey(tries: nat)
    ensures var l := Step(Step(Start(Single(DenyNewKey), 0), Acquire(7, 1, 0)), Op.Commit(FIRST, Confirmed, 0)).lim;
            && !AnyOutstanding(l)
            && TryAcquire(l, 8, 1, 5).1 == Denied(10, KeyCardinalityBound)
            && TryAcquire(l, 8, 1, 15).1 == Denied(10, KeyCardinalityBound)
            && !Persist(l, 8, 1, 5, tries).Admitted?
  {
    SingleKeyRun(DenyNewKey);
    hide Step;
    AdmittedWithinFourDenialsIff(OneKey(Single(DenyNewKey), FixedState(Fixed(0, 0, 1))), 8, 1, 5, tries);
  }

  // Under EvictOldestKey the second key is refused as long as the first holds a reservation, and taken
  // once it holds none.
  lemma HeldTableServesNoNewKey(tries: nat)
    ensures var w := Step(Start(Single(EvictOldestKey), 0), Acquire(7, 1, 0));
            && TryAcquire(w.lim, 8, 1, 5).1 == Denied(10, KeyCardinalityBound)
            && !Persist(w.lim, 8, 1, 5, tries).Admitted?
            && Persist(Step(w, Op.Commit(FIRST, Confirmed, 0)).lim, 8, 1, 5, tries) == Admitted(0, 5)
  {
    SingleKeyRun(EvictOldestKey);
    hide Step;
    var held := OneKey(Single(EvictOldestKey), FixedState(Fixed(0, 1, 0)));
    var free := OneKey(Single(EvictOldestKey), FixedState(Fixed(0, 0, 1)));
    AdmittedWithinFourDenialsIff(held, 8, 1, 5, tries);
    assert FirstEvictable(held.buckets, held.fifo) == 1 && FirstEvictable(free.buckets, free.fifo) == 0;
    TableStage(free, 8, 1, 5, tries);
  }
}

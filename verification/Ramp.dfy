// Slow start and token pools: the ramp bounds what a pool holds only through refills at the ramped
// capacity. Refunds and configuration updates refill at the configured capacity, and a new pool is
// born full; until the clock moves on, what they leave is not clamped.
module RampedPools {
  import opened Machine
  import opened TokenBucket
  import opened Types
  import opened Buckets
  import opened Limiters
  import opened Ledgers
  import opened KeyTable
  import opened Worlds
  import opened Accounting
  import opened BackoffHistory
  import opened Clocks

  // ----- one pool -----

  // A grant is drawn from at most the ramped capacity if and only if the clock has moved on since the
  // last refill, or the pool held no more than that capacity.
  lemma GrantWithinRampIff(t: Tokens, key: Key, capacity: u64, rate: u64, cost: Cost, now: Duration)
    requires t.lastUpdate <= now && TakeFromPool(t, key, capacity, rate, cost, now).1.Granted?
    ensures TakeFromPool(t, key, capacity, rate, cost, now).0.credits + cost <= capacity
       <==> now > t.lastUpdate || t.credits <= capacity
  {
    hide CreditsAdded;
  }

  predicate Over(c: Cell, capacity: u64, now: Duration) {
    c.b.algo.TokenState? && c.b.algo.t.lastUpdate == now && c.b.algo.t.credits > capacity
  }

  // The events that refill at the configured capacity.
  predicate Lifts(e: Event) {
    e.Refunding? || e.Updating? || (e.Committing? && e.outcome.NotSent?)
  }

  // At any other instant than `now` an event leaves no pool that was last refilled at `now` over the
  // ramp; at `now` only a lifting one can.
  lemma EventKeepsRamp(c: Cell, key: Key, e: Event, capacity: u64, clock: Duration, at: Duration, now: Duration)
    requires TimeOk(c, clock) && clock <= at && TimedEvent(e, at)
    requires at == now ==> !Lifts(e)
    requires at == now && e.Taking? && e.algo.TokenBucket? ==> e.algo.capacity <= capacity
    requires !Over(c, capacity, now)
    ensures !Over(CellStep(c, key, e), capacity, now)
    ensures e.Updating? && CellStep(c, key, e).b.algo.TokenState? ==> CellStep(c, key, e).b.algo.t.lastUpdate != now
  {
    hide CreditsAdded, WrapAdd64, RetryAfterForDeficit, Reserve, RemoveOne, MaybeReset, TakeFromWindow;
    if e.Taking? {
      ReserveShape(c.b, key, e.algo, e.cost, e.now);
    }
  }

  // ----- every bucket of every run -----

  function RampedCapacity(l: Limiter, now: Duration): u64 {
    match EffectiveAlgorithm(l.cfg, l.startedAt, now)
    case TokenBucket(capacity, _) => capacity
    case FixedWindow(_, _) => 0
  }

  // What `key` holds at `now` is more than the ramp allows, and no refill at `now` will clamp it.
  predicate OverRamp(w: World, key: Key, now: Duration) {
    && key in w.lim.buckets && w.lim.buckets[key].algo.TokenState?
    && w.lim.buckets[key].algo.t.lastUpdate == now
    && w.lim.buckets[key].algo.t.credits > RampedCapacity(w.lim, now)
  }

  // The operations that can leave a pool over the ramp: its creation, a refund or a NotSent of one of
  // its permits, and an update.
  predicate MayLift(w: World, op: Op, key: Key) {
    || key !in w.lim.buckets
    || op.Update?
    || (op.Refund? && op.permit.key == key)
    || (op.Commit? && op.outcome.NotSent? && op.permit.key == key)
  }

  lemma StepKeepsRamp(w: World, op: Op, key: Key, now: Duration)
    requires TimesOk(w) && Legal(w, op) && w.clock <= op.now
    requires op.now == now ==> !MayLift(w, op, key)
    requires !OverRamp(w, key, now)
    ensures !OverRamp(Step(w, op), key, now)
  {
    hide Step, Legal, CellOk, CellStep, TableOk, UpdateConfig, PassesGates, EffectiveAlgorithm, Backoff, Remapped;
    if key in Step(w, op).lim.buckets {
      StepCell(w, op, key);
      var c, e := CellBefore(w, op, key), EventFor(w, op, key);
      var clock := if key in w.lim.buckets then w.clock else op.now;
      ConfigKept(w, op);
      EventKeepsRamp(c, key, e, RampedCapacity(w.lim, now), clock, op.now, now);
    }
  }

  lemma ConfigKept(w: World, op: Op)
    ensures Step(w, op).lim.startedAt == w.lim.startedAt
    ensures EventFor(w, op, 0).Updating? || Step(w, op).lim.cfg == w.lim.cfg
    ensures EventFor(w, op, 0).Updating? <==> op.Update? && UpdateConfig(w.lim, op.cfg, op.now).1.None?
  {
    hide Reserve, TryAcquire, ApplyFeedback, EnsureCapacity, Insert, SlowStartPreDeny, EffectiveAlgorithm, OnUpdate,
         Buckets.Commit, Buckets.Refund, Backoff, BlockUntil, Later, Tracked, AnyOutstanding;
    match op
    case Acquire(route, cost, now) =>
      TryAcquireShape(w.lim, route, cost, now);
      if PassesGates(w.lim, Resolve(w.lim, route), cost, now) {
        RoomKeepsOthers(w.lim, Resolve(w.lim, route), now, 0);
      }
    case Feedback(route, feedback, now) =>
      FeedbackShape(w.lim, route, feedback, now);
      var l := Remapped(w.lim, route, feedback);
      if EnsureCapacity(l, Resolve(l, route)).Some? {
        RoomKeepsOthers(l, Resolve(l, route), now, 0);
      }
    case _ =>
  }

  lemma {:induction false} RunKeepsRamp(w: World, ops: seq<Op>, c: (World, Op) -> bool, key: Key, now: Duration)
    requires TimesOk(w) && Along(w, ops, c)
    requires forall w, op :: c(w, op) ==> w.clock <= op.now && (op.now == now ==> !MayLift(w, op, key))
    requires !OverRamp(w, key, now)
    ensures TimesOk(Run(w, ops)) && !OverRamp(Run(w, ops), key, now)
    decreases |ops|
  {
    hide TimesOk, OverRamp, MayLift, Step, Legal;
    if ops != [] {
      StepKeepsTimes(w, ops[0]);
      StepKeepsRamp(w, ops[0], key, now);
      RunKeepsRamp(Step(w, ops[0]), ops[1..], c, key, now);
    }
  }

  // In every run with a clock that does not go back: if nothing at the instant `now` created the
  // bucket, refunded one of its permits or updated the configuration, then a grant at `now` is drawn
  // from at most the ramped capacity.
  lemma RampBoundsGrants(cfg: Config, startedAt: Duration, ops: seq<Op>, c: (World, Op) -> bool,
                         route: Key, cost: Cost, now: Duration)
    requires Along(Start(cfg, startedAt), ops, c)
    requires var w := Run(Start(cfg, startedAt), ops);
             && w.clock <= now && Resolve(w.lim, route) in w.lim.buckets
             && w.lim.cfg.algorithm.TokenBucket? && TryAcquire(w.lim, route, cost, now).1.Granted?
    requires forall v, op :: c(v, op) ==>
               && v.clock <= op.now
               && (op.now == now ==> !MayLift(v, op, Resolve(Run(Start(cfg, startedAt), ops).lim, route)))
    ensures DrawnWithinRamp(Run(Start(cfg, startedAt), ops).lim, route, cost, now)
  {
    hide Along, Run, Start, DrawnWithinRamp, OverRamp, MayLift, TryAcquire, RampedCapacity;
    var w := Run(Start(cfg, startedAt), ops);
    var key := Resolve(w.lim, route);
    StartIsTimely(cfg, startedAt);
    assert !OverRamp(Start(cfg, startedAt), key, now) by { NothingOverAtStart(cfg, startedAt, key, now); }
    RunKeepsRamp(Start(cfg, startedAt), ops, c, key, now);
    DrawnWithinRampIff(w, route, cost, now);
  }

  lemma NothingOverAtStart(cfg: Config, startedAt: Duration, key: Key, now: Duration)
    ensures !OverRamp(Start(cfg, startedAt), key, now)
  {
  }

  // What the pool held when it granted - what is left and the cost - is within the ramped capacity.
  predicate DrawnWithinRamp(l: Limiter, route: Key, cost: Cost, now: Duration) {
    var after, key := TryAcquire(l, route, cost, now).0.buckets, Resolve(l, route);
    key in after && after[key].algo.TokenState? && after[key].algo.t.credits + cost <= RampedCapacity(l, now)
  }

  // At any point of any run a grant is drawn from at most the ramped capacity if and only if the pool
  // was not left over the ramp.
  lemma DrawnWithinRampIff(w: World, route: Key, cost: Cost, now: Duration)
    requires TimesOk(w) && w.clock <= now && Resolve(w.lim, route) in w.lim.buckets
    requires w.lim.cfg.algorithm.TokenBucket? && TryAcquire(w.lim, route, cost, now).1.Granted?
    ensures DrawnWithinRamp(w.lim, route, cost, now) <==> !OverRamp(w, Resolve(w.lim, route), now)
  {
    hide TableOk, TryAcquire, Reserve, SlowStartPreDeny, EnsureCapacity, Insert, TakeFromPool, EffectiveAlgorithm;
    var key := Resolve(w.lim, route);
    var algo := EffectiveAlgorithm(w.lim.cfg, w.lim.startedAt, now);
    var cell := CellOf(w, key);
    assert CellOk(cell, w.lim.cfg.algorithm) && TimeOk(cell, w.clock);
    EffectiveWithin(w.lim.cfg, w.lim.startedAt, now);
    TryAcquireShape(w.lim, route, cost, now);
    RoomKeepsOthers(w.lim, key, now, key);
    ReserveShape(cell.b, key, algo, cost, now);
    GrantWithinRampIff(cell.b.algo.t, key, algo.capacity, algo.refillPerSec, cost, now);
  }

  // ----- each of them does -----

  // Ten credits, ten a second, ramped over ten seconds, first used after one second.
  const RAMPED := Config(TokenBucket(10, 10), None, DenyNewKey, Some(10_000_000_000))
  const SECOND: Duration := 1_000_000_000
  const FIRST := Permit(7, 1, 0, SECOND, 0, TokenPermit)

  lemma RampedAt(k: nat)
    requires 1 <= k <= 2
    ensures EffectiveAlgorithm(RAMPED, 0, k * SECOND) == TokenBucket(k, k)
    ensures CreditsAdded(SECOND, 10) == 10
  {
    assert SatMul128(10, k * SECOND) == 10 * k * SECOND;
    assert SatMul128(SECOND, 10) == 10 * SECOND;
  }

  function OnePool(t: Tokens): Limiter { Limiter(RAMPED, 0, map[], map[7 := Bucket(None, TokenState(t))], [7], None) }

  // A new pool is born full: at its first instant it holds ten credits where the ramp allows one.
  lemma CreationLifts()
    ensures var w := Step(Start(RAMPED, 0), Acquire(7, 1, SECOND));
            && w.lim == OnePool(Tokens(SECOND, 9, 1)) && w.ledger == [FIRST]
            && OverRamp(w, 7, SECOND)
  {
    RampedAt(1);
    var (b, a) := Reserve(NewBucket(SECOND, RAMPED.algorithm), 7, TokenBucket(1, 1), 1, SECOND);
    assert b == Bucket(None, TokenState(Tokens(SECOND, 9, 1))) && a == Granted(FIRST);
  }

  // A refund, or an update that changes nothing, refills at the configured rate and capacity: a second
  // later the pool holds ten credits where the ramp allows two.
  lemma RefundAndUpdateLift()
    ensures var w := Step(Start(RAMPED, 0), Acquire(7, 1, SECOND));
            && OverRamp(Step(w, Op.Refund(FIRST, 2 * SECOND)), 7, 2 * SECOND)
            && OverRamp(Step(w, Op.Commit(FIRST, NotSent, 2 * SECOND)), 7, 2 * SECOND)
            && OverRamp(Step(w, Update(RAMPED, 2 * SECOND)), 7, 2 * SECOND)
  {
    var w := Step(Start(RAMPED, 0), Acquire(7, 1, SECOND));
    CreationLifts();
    RampedAt(2);
    PoolLifts(2 * SECOND);
    hide Buckets.Refund, Buckets.Commit, OnUpdate;
    assert Step(w, Op.Refund(FIRST, 2 * SECOND)).lim == OnePool(Tokens(2 * SECOND, 10, 0));
    assert Step(w, Op.Commit(FIRST, NotSent, 2 * SECOND)).lim == OnePool(Tokens(2 * SECOND, 10, 0));
    assert Step(w, Update(RAMPED, 2 * SECOND)).lim == OnePool(Tokens(2 * SECOND, 10, 1));
  }

  lemma PoolLifts(now: Duration)
    requires now == 2 * SECOND
    ensures var b := Bucket(None, TokenState(Tokens(SECOND, 9, 1)));
            && Buckets.Refund(b, FIRST, now, RAMPED.algorithm) == Bucket(None, TokenState(Tokens(now, 10, 0)))
            && Buckets.Commit(b, FIRST, NotSent, now, RAMPED.algorithm) == Bucket(None, TokenState(Tokens(now, 10, 0)))
            && OnUpdate(b, RAMPED.algorithm, RAMPED.algorithm, now) == Bucket(None, TokenState(Tokens(now, 10, 1)))
  {
    RampedAt(2);
  }

  // There a cost of two is granted out of ten credits and leaves eight.
  lemma LiftedPoolIgnoresRamp()
    ensures var (l, a) := TryAcquire(OnePool(Tokens(2 * SECOND, 10, 0)), 7, 2, 2 * SECOND);
            a.Granted? && l == OnePool(Tokens(2 * SECOND, 8, 2))
  {
    RampedAt(2);
  }
}

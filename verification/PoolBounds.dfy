// The rate bound of the token bucket over whole runs: what a bucket has given out in its lifetime
// never passes its budget plus what the largest rate earns in the time elapsed. Refill floors,
// clamps, refunds, slow start and configuration updates are all in play, and so is a clock that
// goes back.
module PoolBounds {
  import opened Machine
  import opened TokenBucket
  import opened Types
  import opened Buckets
  import opened Limiters
  import opened Ledgers
  import opened KeyTable
  import opened Worlds
  import opened Accounting
  import opened Clocks

  // Cost reserved in the bucket's lifetime, less what was refunded or not sent.
  function GivenOut(c: Cell): nat { TotalCost(c.outs) + TotalCost(c.life.spent) }

  ghost predicate PoolOk(c: Cell, rate: nat) {
    && c.b.algo.TokenState?
    && var t := c.b.algo.t;
       && c.life.born <= t.lastUpdate
       && GivenOut(c) + t.credits <= c.life.budget + Earned(rate, t.lastUpdate - c.life.born)
  }

  predicate PoolEvent(c: Cell, e: Event, rate: nat) {
    match e
    case Taking(algo, _, _) => algo.TokenBucket? && algo.refillPerSec <= rate
    case Committing(p, _, algo, _) =>
      algo.TokenBucket? && algo.refillPerSec <= rate && p in c.outs && p.meta == TokenPermit
    case Refunding(p, algo, _) => algo.TokenBucket? && algo.refillPerSec <= rate && p in c.outs && p.meta == TokenPermit
    case Updating(before, after, _) => before.TokenBucket? && after.TokenBucket? && before.refillPerSec <= rate
    case _ => true
  }

  lemma RefillWithin(t: Tokens, capacity: u64, r: u64, now: Duration, rate: nat, born: Duration)
    requires r <= rate && born <= t.lastUpdate
    ensures var t' := Refill(t, capacity, r, now);
            && t.lastUpdate <= t'.lastUpdate
            && t'.credits + Earned(rate, t.lastUpdate - born) <= t.credits + Earned(rate, t'.lastUpdate - born)
  {
    if now > t.lastUpdate {
      hide Refill, Earned;
      var d := now - t.lastUpdate;
      RefillExact(t, capacity, r, now);
      EarnedMono(r, rate, d, d);
      EarnedSplit(rate, t.lastUpdate - born, d);
      assert t.lastUpdate - born + d == now - born;
    }
  }

  lemma PoolOkAtBirth(now: Duration, algo: Algorithm, rate: nat)
    requires algo.TokenBucket?
    ensures PoolOk(NewCell(now, algo), rate)
  {
    assert Earned(rate, 0) == 0;
  }

  lemma TakingKeepsPool(c: Cell, key: Key, e: Event, rate: nat)
    requires e.Taking? && PoolOk(c, rate) && PoolEvent(c, e, rate)
    ensures PoolOk(CellStep(c, key, e), rate)
  {
    hide Refill, Earned, Reserve, TotalCost;
    ReserveShape(c.b, key, e.algo, e.cost, e.now);
    var attempt := Reserve(c.b, key, e.algo, e.cost, e.now).1;
    ReserveIssues(c.b, key, e.algo, e.cost, e.now);
    if attempt.Granted? {
      Append(c.outs, attempt.permit);
    }
    RefillWithin(c.b.algo.t, e.algo.capacity, e.algo.refillPerSec, e.now, rate, c.life.born);
  }

  // A refund gives back at most its cost, even where the addition wraps.
  lemma RefundWithin(t: Tokens, capacity: u64, cost: Cost, now: Duration, r: u64)
    ensures var t0, t' := Refill(t, capacity, r, now), RefundTokens(t, capacity, cost, now, r);
            t'.lastUpdate == t0.lastUpdate && t'.credits <= t0.credits + cost
  {
    hide Refill;
  }

  // Finalising a token permit: spending moves its cost, returning it gives credits back.
  lemma FinishMovesTokens(c: Cell, key: Key, e: Event, rate: nat)
    requires (e.Committing? || e.Refunding?) && c.b.algo.TokenState? && PoolEvent(c, e, rate)
    ensures var c' := CellStep(c, key, e);
            var sent := e.Committing? && !e.outcome.NotSent?;
            && c'.b.algo == TokenState(if sent then SpendTokens(c.b.algo.t, e.p.cost)
                             else RefundTokens(c.b.algo.t, e.algo.capacity, e.p.cost, e.now, e.algo.refillPerSec))
            && c'.outs == RemoveOne(c.outs, e.p)
            && c'.life == c.life.(spent := c'.life.spent, deadlines := c'.life.deadlines)
            && c'.life.spent == if sent then c.life.spent + [e.p] else c.life.spent
  {
    hide SpendTokens, RefundTokens, Earned;
  }

  lemma FinishKeepsPool(c: Cell, key: Key, e: Event, rate: nat)
    requires (e.Committing? || e.Refunding?) && PoolOk(c, rate) && PoolEvent(c, e, rate)
    ensures PoolOk(CellStep(c, key, e), rate)
  {
    hide Refill, Earned, RefundTokens, CellStep, WrapAdd64, TotalCost, RemoveOne;
    FinishMovesTokens(c, key, e, rate);
    Removed(c.outs, e.p);
    Append(c.life.spent, e.p);
    RefundWithin(c.b.algo.t, e.algo.capacity, e.p.cost, e.now, e.algo.refillPerSec);
    RefillWithin(c.b.algo.t, e.algo.capacity, e.algo.refillPerSec, e.now, rate, c.life.born);
  }

  lemma UpdateKeepsPool(c: Cell, key: Key, e: Event, rate: nat)
    requires e.Updating? && PoolOk(c, rate) && PoolEvent(c, e, rate)
    ensures PoolOk(CellStep(c, key, e), rate)
  {
    hide Refill, Earned;
    RefillWithin(c.b.algo.t, e.before.capacity, e.before.refillPerSec, e.now, rate, c.life.born);
  }

  lemma EventKeepsPool(c: Cell, key: Key, e: Event, rate: nat)
    requires PoolOk(c, rate) && PoolEvent(c, e, rate)
    ensures PoolOk(CellStep(c, key, e), rate)
  {
    hide Earned, Reserve, Buckets.Commit, Buckets.Refund, OnUpdate;
    match e
    case Taking(_, _, _) => TakingKeepsPool(c, key, e, rate);
    case Committing(_, _, _, _) => FinishKeepsPool(c, key, e, rate);
    case Refunding(_, _, _) => FinishKeepsPool(c, key, e, rate);
    case Updating(_, _, _) => UpdateKeepsPool(c, key, e, rate);
    case _ =>
  }

  // ----- every bucket of every run -----

  // The algorithm is a token bucket throughout and no configured rate passes `rate`.
  predicate PoolSteady(w: World, op: Op, rate: nat) {
    && PoolRate(w.lim.cfg.algorithm, rate)
    && (op.Update? ==> PoolRate(op.cfg.algorithm, rate))
  }

  predicate PoolRate(algo: Algorithm, rate: nat) { algo.TokenBucket? && algo.refillPerSec <= rate }

  ghost predicate PoolsOk(w: World, rate: nat) {
    && Accounted(w)
    && forall k :: k in w.lim.buckets ==> PoolOk(CellOf(w, k), rate)
  }

  lemma SteadyPoolEvent(w: World, op: Op, key: Key, rate: nat)
    requires Accounted(w) && Legal(w, op) && PoolSteady(w, op, rate) && key in Step(w, op).lim.buckets
    ensures PoolEvent(CellBefore(w, op, key), EventFor(w, op, key), rate)
  {
    hide Step, TableOk, EffectiveAlgorithm, UpdateConfig, PassesGates;
    RunEventFits(w, op, key);
    EffectiveWithin(w.lim.cfg, w.lim.startedAt, op.now);
    if (op.Commit? || op.Refund?) && key == op.permit.key {
      assert CellOk(CellOf(w, key), w.lim.cfg.algorithm) && op.permit in Of(w.ledger, key);
      assert PermitFits(w.lim.buckets[key], op.permit);
    }
  }

  lemma CellKeepsPool(w: World, op: Op, key: Key, rate: nat)
    requires PoolsOk(w, rate) && Legal(w, op) && PoolSteady(w, op, rate)
    requires key in Step(w, op).lim.buckets && key in Step(w, op).lives
    ensures PoolOk(CellOf(Step(w, op), key), rate)
  {
    hide Step, Legal, CellOk, CellStep, EventFor, PoolOk, PoolEvent, TableOk;
    StepCell(w, op, key);
    SteadyPoolEvent(w, op, key, rate);
    PoolOkAtBirth(op.now, w.lim.cfg.algorithm, rate);
    EventKeepsPool(CellBefore(w, op, key), key, EventFor(w, op, key), rate);
  }

  lemma StepKeepsPools(w: World, op: Op, rate: nat)
    requires PoolsOk(w, rate) && Legal(w, op) && PoolSteady(w, op, rate)
    ensures PoolsOk(Step(w, op), rate)
  {
    hide Step, Legal, CellOk, CellOf, PoolOk, TableOk;
    StepAccounted(w, op);
    forall k | k in Step(w, op).lim.buckets ensures PoolOk(CellOf(Step(w, op), k), rate) {
      CellKeepsPool(w, op, k, rate);
    }
  }

  lemma {:induction false} RunKeepsPools(w: World, ops: seq<Op>, c: (World, Op) -> bool, rate: nat)
    requires PoolsOk(w, rate) && Along(w, ops, c)
    requires forall w, op :: c(w, op) ==> PoolSteady(w, op, rate)
    ensures PoolsOk(Run(w, ops), rate)
    decreases |ops|
  {
    hide PoolsOk, PoolSteady, Step, Legal;
    if ops != [] {
      StepKeepsPools(w, ops[0], rate);
      RunKeepsPools(Step(w, ops[0]), ops[1..], c, rate);
    }
  }

  // In every run a bucket gives out at most its budget - the capacity at its creation plus every
  // later increase - plus what the largest rate earns since its creation; and its credits never
  // pass the configured capacity.
  lemma TokenBucketBound(cfg: Config, startedAt: Duration, ops: seq<Op>, c: (World, Op) -> bool, rate: nat, key: Key)
    requires Along(Start(cfg, startedAt), ops, c)
    requires forall w, op :: c(w, op) ==> PoolSteady(w, op, rate)
    requires key in Run(Start(cfg, startedAt), ops).lim.buckets
    ensures WithinBudget(Run(Start(cfg, startedAt), ops), rate, key)
  {
    hide Along, Run, WithinBudget, PoolSteady;
    StartAccounted(cfg, startedAt);
    RunKeepsPools(Start(cfg, startedAt), ops, c, rate);
    PoolsBound(Run(Start(cfg, startedAt), ops), rate, key);
  }

  predicate WithinBudget(w: World, rate: nat, key: Key) {
    && key in w.lim.buckets && key in w.lives
    && w.lim.buckets[key].algo.TokenState? && w.lim.cfg.algorithm.TokenBucket?
    && var (t, life) := (w.lim.buckets[key].algo.t, w.lives[key]);
       && life.born <= t.lastUpdate
       && GivenOut(CellOf(w, key)) <= life.budget + Earned(rate, t.lastUpdate - life.born)
       && t.credits <= w.lim.cfg.algorithm.capacity
  }

  lemma PoolsBound(w: World, rate: nat, key: Key)
    requires PoolsOk(w, rate) && key in w.lim.buckets
    ensures WithinBudget(w, rate, key)
  {
    hide Earned, TableOk;
    assert PoolOk(CellOf(w, key), rate) && CellOk(CellOf(w, key), w.lim.cfg.algorithm);
  }

  // With a clock that does not go back, in the caller's own time: from the call that created the
  // bucket to the latest call.
  lemma TokenBucketBoundInTime(cfg: Config, startedAt: Duration, ops: seq<Op>, c: (World, Op) -> bool, rate: nat,
                               key: Key)
    requires Along(Start(cfg, startedAt), ops, c)
    requires forall w, op :: c(w, op) ==> PoolSteady(w, op, rate) && w.clock <= op.now
    requires key in Run(Start(cfg, startedAt), ops).lim.buckets
    ensures WithinBudgetInTime(Run(Start(cfg, startedAt), ops), rate, key)
  {
    hide Along, Run, Start, WithinBudget, PoolSteady, Earned, TableOk;
    var w := Run(Start(cfg, startedAt), ops);
    TokenBucketBound(cfg, startedAt, ops, c, rate, key);
    StartIsTimely(cfg, startedAt);
    RunKeepsTimes(Start(cfg, startedAt), ops, c);
    BudgetInTime(w, rate, key);
  }

  predicate WithinBudgetInTime(w: World, rate: nat, key: Key) {
    && key in w.lim.buckets && key in w.lives && w.lives[key].born <= w.clock
    && GivenOut(CellOf(w, key)) <= w.lives[key].budget + Earned(rate, w.clock - w.lives[key].born)
  }

  lemma BudgetInTime(w: World, rate: nat, key: Key)
    requires WithinBudget(w, rate, key) && TimesOk(w)
    ensures WithinBudgetInTime(w, rate, key)
  {
    hide Earned, TableOk, CellOk;
    assert TimeOk(CellOf(w, key), w.clock);
    var life := w.lives[key];
    EarnedMono(rate, rate, w.lim.buckets[key].algo.t.lastUpdate - life.born, w.clock - life.born);
  }

  // ----- the budget under a constant capacity -----

  predicate CapacityIs(algo: Algorithm, capacity: u64) { algo.TokenBucket? && algo.capacity == capacity }

  lemma {:induction false} ConstantBudget(w: World, ops: seq<Op>, c: (World, Op) -> bool, capacity: u64)
    requires Accounted(w) && Along(w, ops, c)
    requires forall w, op :: c(w, op) ==> CapacityIs(w.lim.cfg.algorithm, capacity)
    requires forall w, op :: c(w, op) && op.Update? ==> CapacityIs(op.cfg.algorithm, capacity)
    requires forall k :: k in w.lives ==> w.lives[k].budget == capacity
    ensures forall k :: k in Run(w, ops).lives ==> Run(w, ops).lives[k].budget == capacity
    decreases |ops|
  {
    hide Step, Legal, CellOk, CellOf, EventFor, Accounted, TableOk;
    if ops != [] {
      var w' := Step(w, ops[0]);
      StepAccounted(w, ops[0]);
      forall k | k in w'.lives ensures w'.lives[k].budget == capacity { BudgetKept(w, ops[0], k, capacity); }
      ConstantBudget(w', ops[1..], c, capacity);
    }
  }

  lemma BudgetKept(w: World, op: Op, key: Key, capacity: u64)
    requires Accounted(w) && Legal(w, op)
    requires CapacityIs(w.lim.cfg.algorithm, capacity) && (op.Update? ==> CapacityIs(op.cfg.algorithm, capacity))
    requires forall k :: k in w.lives ==> w.lives[k].budget == capacity
    requires key in Step(w, op).lives
    ensures Step(w, op).lives[key].budget == capacity
  {
    hide Step, Legal, CellOk, PassesGates, UpdateConfig, EffectiveAlgorithm, Reserve, OnUpdate, TableOk, Of, NewBucket,
         Buckets.Commit, Buckets.Refund, BlockUntil, RemoveOne, Remapped, Backoff;
    StepAccounted(w, op);
    StepCell(w, op, key);
  }

  // ----- the refund that overflows -----

  // The largest pool, refilled at one credit a second.
  const LARGEST := Config(TokenBucket(U64_MAX, 1), None, DenyNewKey, None)
  const SECOND: Duration := 1_000_000_000
  const FIRST := Permit(7, 1, 0, 0, 0, TokenPermit)

  function OnePool(t: Tokens): Limiter { Limiter(LARGEST, 0, map[], map[7 := Bucket(None, TokenState(t))], [7], None) }

  lemma FirstUse()
    ensures TryAcquire(New(LARGEST, 0), 7, 1, 0) == (OnePool(Tokens(0, U64_MAX - 1, 1)), Granted(FIRST))
  {
    var (b, a) := Reserve(NewBucket(0, LARGEST.algorithm), 7, LARGEST.algorithm, 1, 0);
    assert b == Bucket(None, TokenState(Tokens(0, U64_MAX - 1, 1))) && a == Granted(FIRST);
    var l := TryAcquire(New(LARGEST, 0), 7, 1, 0).0;
    assert l.buckets == map[7 := b] && l.fifo == [7];
  }

  lemma FirstRefund()
    ensures RefundPermit(OnePool(Tokens(0, U64_MAX - 1, 1)), FIRST, SECOND) == OnePool(Tokens(SECOND, 0, 0))
  {
    assert SatMul128(SECOND, 1) == SECOND;
    assert WrapAdd64(U64_MAX, 1) == 0;
  }

  // One credit is taken, earned back within a second and then refunded: the sum wraps, and the refund
  // leaves the pool empty.
  lemma RefundCanEmptyFullPool()
    ensures var w := Step(Start(LARGEST, 0), Acquire(7, 1, 0));
            && w.ledger == [FIRST]
            && Step(w, Op.Refund(FIRST, SECOND)).lim == OnePool(Tokens(SECOND, 0, 0))
  {
    hide TryAcquire, RefundPermit;
    FirstUse();
    FirstRefund();
  }
}

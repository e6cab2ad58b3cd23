// In a run whose clock does not go back, no bucket is ahead of the clock.
module Clocks {
  import opened Machine
  import opened TokenBucket
  import opened Types
  import opened Buckets
  import opened Limiters
  import opened Ledgers
  import opened KeyTable
  import opened Worlds
  import opened Accounting
  import opened BackoffHistory

  predicate TimeOk(c: Cell, clock: Duration) {
    match c.b.algo
    case FixedState(f) => f.windowStart <= clock
    case TokenState(t) => t.lastUpdate <= clock
  }

  lemma FinishKeepsTime(c: Cell, e: Event, key: Key, clock: Duration, now: Duration)
    requires (e.Committing? || e.Refunding?) && TimeOk(c, clock) && clock <= now && TimedEvent(e, now)
    ensures TimeOk(CellStep(c, key, e), now)
  {
    hide TotalCost, RemoveOne, CreditsAdded, WrapAdd64;
  }

  lemma EventKeepsTime(c: Cell, key: Key, e: Event, clock: Duration, now: Duration)
    requires TimeOk(c, clock) && clock <= now && TimedEvent(e, now)
    ensures TimeOk(CellStep(c, key, e), now)
  {
    hide CreditsAdded, WrapAdd64, RetryAfterForDeficit, Buckets.Commit, Buckets.Refund, Reserve, RemoveOne;
    match e
    case Committing(_, _, _, _) => FinishKeepsTime(c, e, key, clock, now);
    case Refunding(_, _, _) => FinishKeepsTime(c, e, key, clock, now);
    case Taking(algo, cost, _) =>
      ReserveShape(c.b, key, algo, cost, now);
      TakingKeepsTime(c.b.algo, key, algo, cost, now);
    case _ =>
  }

  lemma TakingKeepsTime(s: AlgoState, key: Key, algo: Algorithm, cost: Cost, now: Duration)
    ensures match (s, algo)
            case (FixedState(f), FixedWindow(max, window)) =>
              TakeFromWindow(MaybeReset(f, now, window), key, max, window, cost, now).0.windowStart
              <= Max(f.windowStart, now)
            case (TokenState(t), TokenBucket(capacity, rate)) =>
              TakeFromPool(t, key, capacity, rate, cost, now).0.lastUpdate <= Max(t.lastUpdate, now)
            case _ => true
  {
    hide CreditsAdded, RetryAfterForDeficit;
  }

  ghost predicate TimesOk(w: World) {
    Accounted(w) && forall k :: k in w.lim.buckets ==> TimeOk(CellOf(w, k), w.clock)
  }

  lemma StartIsTimely(cfg: Config, startedAt: Duration)
    ensures TimesOk(Start(cfg, startedAt))
  {
    StartAccounted(cfg, startedAt);
  }

  lemma CellKeepsTime(w: World, op: Op, key: Key)
    requires TimesOk(w) && Legal(w, op) && w.clock <= op.now
    requires key in Step(w, op).lim.buckets && key in Step(w, op).lives
    ensures TimeOk(CellOf(Step(w, op), key), op.now)
  {
    hide Step, Legal, CellOk, CellStep, TableOk, UpdateConfig, PassesGates, EffectiveAlgorithm, Backoff, Remapped;
    StepCell(w, op, key);
    var clock := if key in w.lim.buckets then w.clock else op.now;
    EventKeepsTime(CellBefore(w, op, key), key, EventFor(w, op, key), clock, op.now);
  }

  lemma StepKeepsTimes(w: World, op: Op)
    requires TimesOk(w) && Legal(w, op) && w.clock <= op.now
    ensures TimesOk(Step(w, op))
  {
    hide Legal, CellOk, CellOf, TimeOk, TryAcquire, ApplyFeedback, UpdateConfig, CommitPermit, RefundPermit, TableOk;
    StepAccounted(w, op);
    assert Step(w, op).clock == op.now;
    forall k | k in Step(w, op).lim.buckets ensures TimeOk(CellOf(Step(w, op), k), op.now) {
      CellKeepsTime(w, op, k);
    }
  }

  lemma {:induction false} RunKeepsTimes(w: World, ops: seq<Op>, c: (World, Op) -> bool)
    requires TimesOk(w) && Along(w, ops, c)
    requires forall w, op :: c(w, op) ==> w.clock <= op.now
    ensures TimesOk(Run(w, ops))
    decreases |ops|
  {
    hide TimesOk, Step, Legal;
    if ops != [] {
      StepKeepsTimes(w, ops[0]);
      RunKeepsTimes(Step(w, ops[0]), ops[1..], c);
    }
  }
}

// The whole-run invariant of two-phase accounting: in every bucket the counter of outstanding
// reservations equals the cost of the permits the callers hold, whatever evictions, remaps, window
// resets and configuration updates come in between.
module Accounting {
  import opened Machine
  import opened TokenBucket
  import opened Types
  import opened Buckets
  import opened Limiters
  import opened Ledgers
  import opened KeyTable
  import opened Worlds

  // ----- one bucket -----

  predicate PermitFits(b: Bucket, p: Permit) {
    match b.algo
    case FixedState(f) => p.meta == WindowPermit(f.windowStart) && p.windowStart == f.windowStart
    case TokenState(_) => p.meta == TokenPermit
  }

  ghost predicate CellOk(c: Cell, algo: Algorithm) {
    && (forall p :: p in c.outs ==> PermitFits(c.b, p))
    && match (c.b.algo, algo)
       case (FixedState(f), FixedWindow(_, _)) => f.reserved == TotalCost(c.outs) && f.reserved + f.spent <= U32_MAX
       case (TokenState(t), TokenBucket(capacity, _)) => t.inFlight == TotalCost(c.outs) && t.credits <= capacity
       case _ => false
  }

  // The configured algorithm `before` the event and `after` it, and what the run guarantees of the event.
  predicate EventFits(c: Cell, e: Event, before: Algorithm, after: Algorithm) {
    match e
    case Taking(effective, cost, _) =>
      && before == after
      && (match (before, effective)
          case (FixedWindow(_, w), FixedWindow(_, w')) => w == w'
          case (TokenBucket(cap, _), TokenBucket(cap', _)) => cap' <= cap && TotalCost(c.outs) + cost <= U64_MAX
          case _ => false)
    case Committing(p, _, algo, _) => before == algo == after && p in c.outs
    case Refunding(p, algo, _) => before == algo == after && p in c.outs
    case Updating(prior, next, _) =>
      before == prior && after == next && (NeedsNoOutstanding(prior, next).Some? ==> c.outs == [])
    case _ => before == after
  }

  lemma CellOkAtBirth(now: Duration, algo: Algorithm)
    ensures CellOk(NewCell(now, algo), algo)
  {
  }

  lemma OutstandingIffHeld(c: Cell, algo: Algorithm)
    requires CellOk(c, algo)
    ensures HasOutstanding(c.b) <==> c.outs != []
  {
    NoCostNoPermit(c.outs);
  }

  // What an acquire does to the counters of a fixed window.
  lemma TakingFixed(f: Fixed, key: Key, max: u32, window: Window, cost: Cost, now: Duration)
    requires f.reserved + f.spent <= U32_MAX
    ensures var f0 := MaybeReset(f, now, window);
            var (f', a) := TakeFromWindow(f0, key, max, window, cost, now);
            && (f.reserved != 0 ==> f0 == f)
            && f0.reserved == f.reserved && f0.spent <= f.spent
            && f'.windowStart == f0.windowStart && f'.spent == f0.spent
            && (a.Granted? ==> f'.reserved == f0.reserved + cost && f'.reserved + f'.spent <= max)
            && (a.Granted? ==> a.permit.meta == WindowPermit(f0.windowStart) && a.permit.windowStart == f0.windowStart)
            && (a.Denied? ==> f' == f0)
  {
  }

  // What an acquire does to the counters of a pool.
  lemma TakingTokens(t: Tokens, key: Key, capacity: u64, rate: u64, cost: Cost, now: Duration, bound: u64)
    requires capacity <= bound && t.credits <= bound && t.inFlight + cost <= U64_MAX
    ensures var (t', a) := TakeFromPool(t, key, capacity, rate, cost, now);
            && t'.credits <= bound
            && t'.inFlight == t.inFlight + (if a.Granted? then cost else 0)
            && (a.Granted? ==> a.permit.meta == TokenPermit)
  {
  }

  lemma TakingKeepsCell(c: Cell, key: Key, e: Event, algo: Algorithm)
    requires e.Taking? && CellOk(c, algo) && EventFits(c, e, algo, algo)
    ensures CellOk(CellStep(c, key, e), algo)
  {
    hide TakeFromWindow, TakeFromPool, MaybeReset, Reserve, TotalCost;
    NoCostNoPermit(c.outs);
    ReserveShape(c.b, key, e.algo, e.cost, e.now);
    var attempt := Reserve(c.b, key, e.algo, e.cost, e.now).1;
    ReserveIssues(c.b, key, e.algo, e.cost, e.now);
    if attempt.Granted? {
      Append(c.outs, attempt.permit);
    }
    match c.b.algo
    case FixedState(f) => TakingFixed(f, key, e.algo.maxPerWindow, e.algo.window, e.cost, e.now);
    case TokenState(t) =>
      TakingTokens(t, key, e.algo.capacity, e.algo.refillPerSec, e.cost, e.now, algo.capacity);
  }

  // The pool is refilled and gets the cost back, clamped to the capacity - as long as the sum fits.
  predicate Returns(t: Tokens, t': Tokens, algo: Algorithm, cost: Cost, now: Duration) {
    algo.TokenBucket? &&
    var t0 := Refill(t, algo.capacity, algo.refillPerSec, now);
    && t'.lastUpdate == t0.lastUpdate
    && (t0.credits + cost <= U64_MAX ==> t'.credits == Min(t0.credits + cost, algo.capacity))
  }

  // Finalising a permit the caller holds has its full effect; it is never dropped.
  lemma CommitTakesEffect(c: Cell, p: Permit, outcome: Outcome, algo: Algorithm, now: Duration)
    requires CellOk(c, algo) && p in c.outs
    ensures match (c.b.algo, Buckets.Commit(c.b, p, outcome, now, algo).algo)
            case (FixedState(f), FixedState(f')) =>
              && f'.windowStart == f.windowStart
              && f'.reserved == f.reserved - p.cost
              && f'.spent == f.spent + (if outcome.NotSent? then 0 else p.cost)
            case (TokenState(t), TokenState(t')) =>
              && t'.inFlight == t.inFlight - p.cost && t'.credits <= algo.capacity
              && (!outcome.NotSent? ==> t'.credits == t.credits && t'.lastUpdate == t.lastUpdate)
              && (outcome.NotSent? ==> Returns(t, t', algo, p.cost, now))
            case _ => false
  {
    hide TotalCost;
    CostAtLeast(c.outs, p);
    assert PermitFits(c.b, p);
  }

  // A commit with NotSent leaves the very state a refund leaves.
  lemma NotSentIsRefund(c: Cell, p: Permit, algo: Algorithm, now: Duration)
    requires CellOk(c, algo) && p in c.outs
    ensures Buckets.Commit(c.b, p, NotSent, now, algo) == Buckets.Refund(c.b, p, now, algo)
  {
    hide TotalCost;
    CostAtLeast(c.outs, p);
    assert PermitFits(c.b, p);
  }

  // The 64-bit counter of a pool follows the ledger exactly as long as the sum of the costs fits it.
  lemma TokenCounterExactIff(c: Cell, key: Key, capacity: u64, rate: u64, cost: Cost, now: Duration)
    requires CellOk(c, TokenBucket(capacity, rate))
    requires TakeFromPool(c.b.algo.t, key, capacity, rate, cost, now).1.Granted?
    ensures TakeFromPool(c.b.algo.t, key, capacity, rate, cost, now).0.inFlight == TotalCost(c.outs) + cost
       <==> TotalCost(c.outs) + cost <= U64_MAX
  {
  }

  lemma FinishKeepsCell(c: Cell, key: Key, e: Event, algo: Algorithm)
    requires (e.Committing? || e.Refunding?) && CellOk(c, algo) && EventFits(c, e, algo, algo)
    ensures CellOk(CellStep(c, key, e), algo)
  {
    hide TotalCost, RemoveOne, Buckets.Commit, Buckets.Refund;
    Removed(c.outs, e.p);
    var outcome := if e.Committing? then e.outcome else NotSent;
    CommitTakesEffect(c, e.p, outcome, algo, e.now);
    if e.Refunding? {
      NotSentIsRefund(c, e.p, algo, e.now);
    }
    assert PermitFits(c.b, e.p);
  }

  lemma UpdateKeepsCell(c: Cell, key: Key, e: Event, before: Algorithm)
    requires e.Updating? && CellOk(c, before) && EventFits(c, e, before, e.after)
    ensures CellOk(CellStep(c, key, e), e.after)
  {
    NoCostNoPermit(c.outs);
  }

  // A change of kind or of window leaves a bucket that holds nothing as a new one, apart from its
  // backoff; a change of the maximum alone leaves a window as it is.
  lemma UpdateStartsAfresh(c: Cell, before: Algorithm, after: Algorithm, now: Duration)
    requires CellOk(c, before) && (NeedsNoOutstanding(before, after).Some? ==> c.outs == [])
    ensures var b' := OnUpdate(c.b, before, after, now);
            && (NeedsNoOutstanding(before, after).Some? ==> b'.algo == NewAlgo(now, after))
            && (NeedsNoOutstanding(before, after).None? && after.FixedWindow? ==> b'.algo == c.b.algo)
            && b'.blockedUntil == ClearExpired(c.b, now).blockedUntil
  {
    NoCostNoPermit(c.outs);
  }

  lemma EventKeepsCell(c: Cell, key: Key, e: Event, before: Algorithm, after: Algorithm)
    requires CellOk(c, before) && EventFits(c, e, before, after)
    ensures CellOk(CellStep(c, key, e), after)
  {
    match e
    case Taking(_, _, _) => TakingKeepsCell(c, key, e, before);
    case Committing(_, _, _, _) => FinishKeepsCell(c, key, e, before);
    case Refunding(_, _, _) => FinishKeepsCell(c, key, e, before);
    case Updating(_, _, _) => UpdateKeepsCell(c, key, e, before);
    case _ =>
  }

  // ----- every bucket of every run -----

  ghost predicate Accounted(w: World) {
    && Consistent(w)
    && forall k :: k in w.lim.buckets ==> CellOk(CellOf(w, k), w.lim.cfg.algorithm)
  }

  lemma AcquireEventFits(w: World, op: Op, key: Key)
    requires Accounted(w) && Legal(w, op) && op.Acquire? && key in Step(w, op).lim.buckets
    ensures EventFits(CellBefore(w, op, key), EventFor(w, op, key), w.lim.cfg.algorithm, Step(w, op).lim.cfg.algorithm)
  {
    hide Reserve, TryAcquire, EnsureCapacity, Insert, SlowStartPreDeny, EffectiveAlgorithm, CellOk, ApplyFeedback,
         UpdateConfig;
    var target := Resolve(w.lim, op.route);
    EffectiveWithin(w.lim.cfg, w.lim.startedAt, op.now);
    TryAcquireShape(w.lim, op.route, op.cost, op.now);
    if PassesGates(w.lim, target, op.cost, op.now) {
      RoomKeepsOthers(w.lim, target, op.now, key);
    }
    if key !in w.lim.buckets { NewKeyHoldsNothing(w, key); }
  }

  lemma FeedbackEventFits(w: World, op: Op, key: Key)
    requires Accounted(w) && op.Feedback? && key in Step(w, op).lim.buckets
    ensures EventFits(CellBefore(w, op, key), EventFor(w, op, key), w.lim.cfg.algorithm, Step(w, op).lim.cfg.algorithm)
  {
    hide EnsureCapacity, Insert, NewCell, CellOk, ApplyFeedback, TableOk;
    FeedbackShape(w.lim, op.route, op.feedback, op.now);
    var l := Remapped(w.lim, op.route, op.feedback);
    if EnsureCapacity(l, Resolve(l, op.route)).Some? {
      RoomKeepsOthers(l, Resolve(l, op.route), op.now, key);
    }
  }

  lemma UpdateEventFits(w: World, op: Op, key: Key)
    requires Accounted(w) && op.Update? && key in Step(w, op).lim.buckets
    ensures EventFits(CellBefore(w, op, key), EventFor(w, op, key), w.lim.cfg.algorithm, Step(w, op).lim.cfg.algorithm)
  {
    hide NewCell, CellOk, TableOk, OnUpdate, HasOutstanding;
    OutstandingIffHeld(CellOf(w, key), w.lim.cfg.algorithm);
  }

  lemma RunEventFits(w: World, op: Op, key: Key)
    requires Accounted(w) && Legal(w, op) && key in Step(w, op).lim.buckets
    ensures EventFits(CellBefore(w, op, key), EventFor(w, op, key), w.lim.cfg.algorithm, Step(w, op).lim.cfg.algorithm)
  {
    hide CellOk, TableOk, Buckets.Commit, Buckets.Refund, NewCell, TryAcquire, ApplyFeedback, UpdateConfig;
    match op
    case Acquire(_, _, _) => AcquireEventFits(w, op, key);
    case Feedback(_, _, _) => FeedbackEventFits(w, op, key);
    case Update(_, _) => UpdateEventFits(w, op, key);
    case _ =>
  }

  // ----- what stays tracked -----

  lemma NothingHeldIsEvicted(w: World, l: Limiter, key: Key, now: Duration)
    requires Accounted(w) && l.buckets == w.lim.buckets && l.fifo == w.lim.fifo
    requires EnsureCapacity(l, key).Some?
    ensures forall p :: p in w.ledger ==> p.key in Insert(EnsureCapacity(l, key).value, key, now).buckets
  {
    InsertKeepsTable(l, key, now);
    forall p | p in w.ledger ensures p.key in Insert(EnsureCapacity(l, key).value, key, now).buckets {
      OutstandingIffHeld(CellOf(w, p.key), w.lim.cfg.algorithm);
      assert p in Of(w.ledger, p.key);
    }
  }

  lemma AcquireTable(w: World, op: Op)
    requires Accounted(w) && op.Acquire?
    ensures var lim := TryAcquire(w.lim, op.route, op.cost, op.now).0;
            TableOk(lim) && forall p :: p in w.ledger ==> p.key in lim.buckets
  {
    hide Reserve, TryAcquire, EnsureCapacity, Insert, CellOk, Step, CellOf, SlowStartPreDeny, EffectiveAlgorithm;
    var target := Resolve(w.lim, op.route);
    TryAcquireShape(w.lim, op.route, op.cost, op.now);
    if PassesGates(w.lim, target, op.cost, op.now) {
      RoomKeepsOthers(w.lim, target, op.now, target);
      InsertKeepsTable(w.lim, target, op.now);
      NothingHeldIsEvicted(w, w.lim, target, op.now);
    }
  }

  lemma AcquireConsistent(w: World, op: Op)
    requires Accounted(w) && op.Acquire?
    ensures Consistent(Step(w, op))
  {
    hide ApplyFeedback, TableOk, CellOk, CellOf, TryAcquire, UpdateConfig, CommitPermit, RefundPermit, NewLife;
    hide SlowStartPreDeny, EnsureCapacity;
    AcquireTable(w, op);
    var target := Resolve(w.lim, op.route);
    TryAcquireShape(w.lim, op.route, op.cost, op.now);
    if PassesGates(w.lim, target, op.cost, op.now) {
      RoomKeepsOthers(w.lim, target, op.now, target);
    }
  }

  lemma FeedbackTable(w: World, op: Op)
    requires Accounted(w) && op.Feedback?
    ensures var lim := ApplyFeedback(w.lim, op.route, op.feedback, op.now);
            TableOk(lim) && forall p :: p in w.ledger ==> p.key in lim.buckets
  {
    hide EnsureCapacity, Insert, CellOk, ApplyFeedback, Step, Backoff, BlockUntil, LaterBlock, CellOf, Later;
    var l := Remapped(w.lim, op.route, op.feedback);
    var target := Resolve(l, op.route);
    FeedbackShape(w.lim, op.route, op.feedback, op.now);
    assert l.buckets == w.lim.buckets && l.fifo == w.lim.fifo;
    if !op.feedback.scope.GlobalFeedback? && EnsureCapacity(l, target).Some? {
      RoomKeepsOthers(l, target, op.now, target);
      InsertKeepsTable(l, target, op.now);
      NothingHeldIsEvicted(w, l, target, op.now);
    }
  }

  lemma FeedbackConsistent(w: World, op: Op)
    requires Accounted(w) && op.Feedback?
    ensures Consistent(Step(w, op))
  {
    hide ApplyFeedback, TableOk, CellOk, CellOf, TryAcquire, UpdateConfig, CommitPermit, RefundPermit, Backoff, Later,
         BlockLife, NewLife;
    FeedbackTable(w, op);
  }

  lemma AccountedIsConsistent(w: World)
    requires Accounted(w)
    ensures Consistent(w)
  {
  }

  lemma CommitConsistent(w: World, op: Op)
    requires Consistent(w) && op.Commit?
    ensures Consistent(Step(w, op))
  {
    hide Buckets.Commit, FinishLife, TryAcquire, ApplyFeedback, UpdateConfig, RefundPermit, Later, LaterBlock;
    assert Step(w, op).lim.buckets.Keys == w.lim.buckets.Keys;
    assert Step(w, op).lives.Keys == w.lives.Keys;
  }

  lemma RefundConsistent(w: World, op: Op)
    requires Consistent(w) && op.Refund?
    ensures Consistent(Step(w, op))
  {
    hide Buckets.Refund, TryAcquire, ApplyFeedback, UpdateConfig, CommitPermit;
    assert Step(w, op).lim.buckets.Keys == w.lim.buckets.Keys;
  }

  lemma UpdateConsistent(w: World, op: Op)
    requires Accounted(w) && op.Update?
    ensures Consistent(Step(w, op))
  {
    hide OnUpdate, UpdateLife, CellOk, AnyOutstanding, TryAcquire, ApplyFeedback, CellOf, NeedsNoOutstanding;
    assert Step(w, op).lim.buckets.Keys == w.lim.buckets.Keys;
  }

  lemma StepConsistent(w: World, op: Op)
    requires Accounted(w)
    ensures Consistent(Step(w, op))
  {
    hide *;
    match op
    case Acquire(_, _, _) => AcquireConsistent(w, op);
    case Feedback(_, _, _) => FeedbackConsistent(w, op);
    case Update(_, _) => UpdateConsistent(w, op);
    case Commit(_, _, _) => AccountedIsConsistent(w); CommitConsistent(w, op);
    case Refund(_, _) => AccountedIsConsistent(w); RefundConsistent(w, op);
  }

  lemma CellAccounted(w: World, op: Op, key: Key)
    requires Accounted(w) && Legal(w, op) && key in Step(w, op).lim.buckets && key in Step(w, op).lives
    ensures CellOk(CellOf(Step(w, op), key), Step(w, op).lim.cfg.algorithm)
  {
    hide Step, Legal, CellOk, EventFits, CellStep, EventFor, NewCell, TableOk;
    StepCell(w, op, key);
    RunEventFits(w, op, key);
    CellOkAtBirth(op.now, w.lim.cfg.algorithm);
    EventKeepsCell(CellBefore(w, op, key), key, EventFor(w, op, key),
                   w.lim.cfg.algorithm, Step(w, op).lim.cfg.algorithm);
  }

  lemma StepAccounted(w: World, op: Op)
    requires Accounted(w) && Legal(w, op)
    ensures Accounted(Step(w, op))
  {
    hide Step, Legal, CellOk, CellOf;
    StepConsistent(w, op);
    forall k | k in Step(w, op).lim.buckets
      ensures CellOk(CellOf(Step(w, op), k), Step(w, op).lim.cfg.algorithm)
    {
      CellAccounted(w, op, k);
    }
  }

  // In every run each outstanding permit's bucket is still tracked, has the permit's kind and
  // window, and counts exactly the permits outstanding against it.
  lemma {:induction false} RunAccounted(w: World, ops: seq<Op>, c: (World, Op) -> bool)
    requires Accounted(w) && Along(w, ops, c)
    ensures Accounted(Run(w, ops))
    decreases |ops|
  {
    if ops != [] {
      StepAccounted(w, ops[0]);
      RunAccounted(Step(w, ops[0]), ops[1..], c);
    }
  }

  lemma StartAccounted(cfg: Config, startedAt: Duration)
    ensures Accounted(Start(cfg, startedAt))
  {
  }

  // The in-flight helper may refund where the limiter would be told NotSent: at any point of any run
  // the two leave the same limiter.
  lemma FinalizeIsCommit(w: World, p: Permit, outcome: Outcome, now: Duration)
    requires Accounted(w) && p in w.ledger
    ensures (if outcome.NotSent? then RefundPermit(w.lim, p, now) else CommitPermit(w.lim, p, outcome, now))
         == CommitPermit(w.lim, p, outcome, now)
  {
    hide Buckets.Commit, Buckets.Refund, TableOk;
    if outcome.NotSent? {
      NotSentIsRefund(CellOf(w, p.key), p, w.lim.cfg.algorithm, now);
    }
  }

  lemma CommitStep(w: World, p: Permit, outcome: Outcome, now: Duration)
    requires p.key in w.lim.buckets
    ensures Step(w, Op.Commit(p, outcome, now)).lim.buckets
         == w.lim.buckets[p.key := Buckets.Commit(w.lim.buckets[p.key], p, outcome, now, w.lim.cfg.algorithm)]
  {
    hide Buckets.Commit, TryAcquire, ApplyFeedback, UpdateConfig, TableOk;
  }

  lemma FinishSteps(w: World, p: Permit, now: Duration)
    ensures Step(w, Op.Refund(p, now)).lim == RefundPermit(w.lim, p, now)
    ensures Step(w, Op.Commit(p, NotSent, now)).lim == CommitPermit(w.lim, p, NotSent, now)
  {
    hide CommitPermit, RefundPermit, TryAcquire, ApplyFeedback, UpdateConfig;
  }

  // No finalisation is silently dropped, at any point of any run; a refund leaves the very limiter a
  // NotSent leaves.
  lemma NoFinalisationDropped(cfg: Config, startedAt: Duration, ops: seq<Op>, c: (World, Op) -> bool,
                              p: Permit, outcome: Outcome, now: Duration)
    requires Along(Start(cfg, startedAt), ops, c) && p in Run(Start(cfg, startedAt), ops).ledger
    ensures var w := Run(Start(cfg, startedAt), ops);
            var w' := Step(w, Op.Commit(p, outcome, now));
            && p.key in w.lim.buckets && PermitFits(w.lim.buckets[p.key], p)
            && (match (w.lim.buckets[p.key].algo, w'.lim.buckets[p.key].algo)
                case (FixedState(f), FixedState(f')) =>
                  && f.reserved == TotalCost(Of(w.ledger, p.key))
                  && f'.reserved == f.reserved - p.cost
                  && f'.spent == f.spent + (if outcome.NotSent? then 0 else p.cost)
                  && f'.windowStart == f.windowStart == p.windowStart
                case (TokenState(t), TokenState(t')) =>
                  && t.inFlight == TotalCost(Of(w.ledger, p.key))
                  && t'.inFlight == t.inFlight - p.cost
                  && (!outcome.NotSent? ==> t'.credits == t.credits && t'.lastUpdate == t.lastUpdate)
                  && (outcome.NotSent? ==> Returns(t, t', w.lim.cfg.algorithm, p.cost, now))
                case _ => false)
            && (forall k :: k in w.lim.buckets && k != p.key ==> w'.lim.buckets[k] == w.lim.buckets[k])
            && Step(w, Op.Refund(p, now)).lim == Step(w, Op.Commit(p, NotSent, now)).lim
  {
    hide Buckets.Commit, Step, Along, Run, Start, TableOk, TotalCost, CommitPermit, RefundPermit, Returns;
    StartAccounted(cfg, startedAt);
    RunAccounted(Start(cfg, startedAt), ops, c);
    var w := Run(Start(cfg, startedAt), ops);
    var cell := CellOf(w, p.key);
    assert CellOk(cell, w.lim.cfg.algorithm) && p in cell.outs;
    CommitTakesEffect(cell, p, outcome, w.lim.cfg.algorithm, now);
    CommitStep(w, p, outcome, now);
    FinalizeIsCommit(w, p, NotSent, now);
    FinishSteps(w, p, now);
  }
}

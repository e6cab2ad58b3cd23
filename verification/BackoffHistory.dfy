// Backoff agrees with history: the stored deadlines, cleared lazily, stand for the maximum of all
// deadlines the server ever asked for.
module BackoffHistory {
  import opened Machine
  import opened TokenBucket
  import opened Types
  import opened Buckets
  import opened Limiters
  import opened KeyTable
  import opened Worlds
  import opened Accounting

  function Latest(ds: seq<Duration>): Duration {
    if ds == [] then 0 else Max(Latest(ds[..|ds| - 1]), ds[|ds| - 1])
  }

  lemma {:induction false} LatestIsMaximum(ds: seq<Duration>)
    ensures forall d :: d in ds ==> d <= Latest(ds)
    ensures ds != [] ==> Latest(ds) in ds
  {
    if ds != [] {
      var rest, last := ds[..|ds| - 1], ds[|ds| - 1];
      LatestIsMaximum(rest);
      forall d | d in ds ensures d <= Latest(ds) {
        if d != last { assert d in rest; }
      }
      if Latest(ds) != last { assert Latest(rest) in rest && forall d :: d in rest ==> d in ds; }
    }
  }

  lemma LatestAppend(ds: seq<Duration>, d: Duration)
    ensures Latest(ds + [d]) == Max(Latest(ds), d)
  {
    assert (ds + [d])[..|ds|] == ds;
  }

  // ----- one bucket -----

  // A stored deadline is the latest of all; a cleared one is past.
  predicate BlockOk(blocked: Option<Duration>, ds: seq<Duration>, clock: Duration) {
    match blocked
    case Some(until) => until == Latest(ds)
    case None => Latest(ds) <= clock
  }

  predicate CellBlockOk(c: Cell, clock: Duration) { BlockOk(c.b.blockedUntil, c.life.deadlines, clock) }

  predicate TimedEvent(e: Event, now: Duration) {
    match e
    case Quiet => true
    case Blocking(until) => until >= now
    case Taking(_, _, t) => t == now
    case Committing(_, _, _, t) => t == now
    case Refunding(_, _, t) => t == now
    case Updating(_, _, t) => t == now
  }

  lemma ClearKeepsBlock(b: Bucket, ds: seq<Duration>, clock: Duration, now: Duration)
    requires BlockOk(b.blockedUntil, ds, clock) && clock <= now
    ensures BlockOk(ClearExpired(b, now).blockedUntil, ds, now)
  {
  }

  lemma BlockKeepsBlock(blocked: Option<Duration>, ds: seq<Duration>, until: Duration, now: Duration)
    requires BlockOk(blocked, ds, now) && until >= now
    ensures BlockOk(LaterBlock(blocked, until), ds + [until], now)
  {
    LatestAppend(ds, until);
  }

  lemma EventKeepsBlock(c: Cell, key: Key, e: Event, clock: Duration, now: Duration)
    requires CellBlockOk(c, clock) && clock <= now && TimedEvent(e, now)
    ensures CellBlockOk(CellStep(c, key, e), now)
  {
    hide TakeFromWindow, TakeFromPool, MaybeReset, CommitFixed, RefundFixed, RefundTokens, SpendTokens, Refill,
         ChangeCapacity, NewAlgo, Latest, BlockOk, NewLife;
    ClearKeepsBlock(c.b, c.life.deadlines, clock, now);
    match e
    case Blocking(until) =>
      BlockOkLater(c.b.blockedUntil, c.life.deadlines, clock, now);
      BlockKeepsBlock(c.b.blockedUntil, c.life.deadlines, until, now);
    case Committing(_, outcome, _, _) =>
      if outcome.RateLimitedFeedback? {
        BlockKeepsBlock(ClearExpired(c.b, now).blockedUntil, c.life.deadlines, Later(now, outcome.retryAfter), now);
      }
    case Quiet => BlockOkLater(c.b.blockedUntil, c.life.deadlines, clock, now);
    case _ =>
  }

  lemma BlockOkLater(blocked: Option<Duration>, ds: seq<Duration>, clock: Duration, now: Duration)
    requires BlockOk(blocked, ds, clock) && clock <= now
    ensures BlockOk(blocked, ds, now)
  {
  }

  // ----- every bucket of every run -----

  ghost predicate BlocksOk(w: World) {
    && Accounted(w)
    && (w.lim.globalBlockedUntil.Some? <==> w.globalDeadlines != [])
    && (w.lim.globalBlockedUntil.Some? ==> w.lim.globalBlockedUntil.value == Latest(w.globalDeadlines))
    && forall k :: k in w.lim.buckets ==> CellBlockOk(CellOf(w, k), w.clock)
  }

  lemma CellKeepsBlock(w: World, op: Op, key: Key)
    requires BlocksOk(w) && Legal(w, op) && w.clock <= op.now
    requires key in Step(w, op).lim.buckets && key in Step(w, op).lives
    ensures CellBlockOk(CellOf(Step(w, op), key), op.now)
  {
    hide Step, Legal, CellOk, CellStep, Latest, TableOk, UpdateConfig, PassesGates, EffectiveAlgorithm, Backoff,
         Remapped;
    StepCell(w, op, key);
    assert Latest([]) == 0 by { LatestOfNone(); }
    var clock := if key in w.lim.buckets then w.clock else op.now;
    EventKeepsBlock(CellBefore(w, op, key), key, EventFor(w, op, key), clock, op.now);
  }

  lemma LatestOfNone() ensures Latest([]) == 0 {}

  lemma StepKeepsGlobal(w: World, op: Op)
    requires BlocksOk(w)
    ensures var w' := Step(w, op);
            && (w'.lim.globalBlockedUntil.Some? <==> w'.globalDeadlines != [])
            && (w'.lim.globalBlockedUntil.Some? ==> w'.lim.globalBlockedUntil.value == Latest(w'.globalDeadlines))
  {
    hide CellOk, CellOf, Consistent, Reserve, Buckets.Commit, Buckets.Refund, OnUpdate, Tracked, Latest, TryAcquire,
         ApplyFeedback;
    assert Latest([]) == 0 by { LatestOfNone(); }
    match op
    case Commit(_, outcome, now) =>
      if outcome.RateLimitedFeedback? { LatestAppend(w.globalDeadlines, Later(now, outcome.retryAfter)); }
    case Feedback(route, feedback, now) =>
      LatestAppend(w.globalDeadlines, Later(now, Backoff(feedback)));
      FeedbackGlobal(w.lim, route, feedback, now);
    case Acquire(route, cost, now) => AcquireGlobal(w.lim, route, cost, now);
    case _ =>
  }

  lemma FeedbackGlobal(l: Limiter, route: Key, feedback: Types.Feedback, now: Duration)
    ensures ApplyFeedback(l, route, feedback, now).globalBlockedUntil
         == if feedback.scope.GlobalFeedback? then LaterBlock(l.globalBlockedUntil, Later(now, Backoff(feedback)))
            else l.globalBlockedUntil
  {
    hide NewBucket, FirstEvictable, Backoff, Later, BlockUntil, LaterBlock;
  }

  lemma AcquireGlobal(l: Limiter, route: Key, cost: Cost, now: Duration)
    ensures TryAcquire(l, route, cost, now).0.globalBlockedUntil == l.globalBlockedUntil
  {
    hide NewBucket, FirstEvictable, Reserve, EffectiveAlgorithm, SlowStartPreDeny;
  }

  lemma StepKeepsBlocks(w: World, op: Op)
    requires BlocksOk(w) && Legal(w, op) && w.clock <= op.now
    ensures BlocksOk(Step(w, op))
  {
    hide Legal, CellOk, CellOf, CellBlockOk, TryAcquire, ApplyFeedback, UpdateConfig, CommitPermit, RefundPermit,
         TableOk;
    StepAccounted(w, op);
    StepKeepsGlobal(w, op);
    assert Step(w, op).clock == op.now;
    forall k | k in Step(w, op).lim.buckets ensures CellBlockOk(CellOf(Step(w, op), k), op.now) {
      CellKeepsBlock(w, op, k);
    }
  }

  lemma {:induction false} RunKeepsBlocks(w: World, ops: seq<Op>, c: (World, Op) -> bool)
    requires BlocksOk(w) && Along(w, ops, c)
    requires forall w, op :: c(w, op) ==> w.clock <= op.now
    ensures BlocksOk(Run(w, ops))
    decreases |ops|
  {
    hide BlocksOk, Step, Legal;
    if ops != [] {
      StepKeepsBlocks(w, ops[0]);
      RunKeepsBlocks(Step(w, ops[0]), ops[1..], c);
    }
  }

  // The deadlines of the bucket a request resolves to; none for a bucket that is not tracked yet.
  function BucketDeadlines(w: World, key: Key): seq<Duration> { if key in w.lives then w.lives[key].deadlines else [] }

  // In every run with a clock that does not go back: a permit is issued only at or past every
  // deadline, global or of the bucket; a request is held back by the global deadlines exactly until
  // the latest of them, and past that point - once slow start and the key table let it through -
  // by the bucket's deadlines exactly until the latest of them.
  lemma BackoffAgreesWithHistory(cfg: Config, startedAt: Duration, ops: seq<Op>, c: (World, Op) -> bool,
                                 route: Key, cost: Cost, now: Duration)
    requires Along(Start(cfg, startedAt), ops, c)
    requires forall w, op :: c(w, op) ==> w.clock <= op.now
    requires Run(Start(cfg, startedAt), ops).clock <= now
    ensures RespectsDeadlines(Run(Start(cfg, startedAt), ops), route, cost, now)
  {
    hide Along, Run, RespectsDeadlines;
    StartBlocksOk(cfg, startedAt);
    RunKeepsBlocks(Start(cfg, startedAt), ops, c);
    BlocksRespectDeadlines(Run(Start(cfg, startedAt), ops), route, cost, now);
  }

  predicate RespectsDeadlines(w: World, route: Key, cost: Cost, now: Duration) {
    var key := Resolve(w.lim, route);
    var attempt := TryAcquire(w.lim, route, cost, now).1;
    var global, local := Latest(w.globalDeadlines), Latest(BucketDeadlines(w, key));
    && (attempt.Granted? ==> global <= now && local <= now)
    && (now < global ==> attempt == Denied(global - now, FeedbackBackoff))
    && (PassesGates(w.lim, key, cost, now) && now < local ==> attempt == Denied(local - now, FeedbackBackoff))
    && (attempt.Denied? && attempt.reason == FeedbackBackoff ==> now < global || now < local)
  }

  lemma BlocksRespectDeadlines(w: World, route: Key, cost: Cost, now: Duration)
    requires BlocksOk(w) && w.clock <= now
    ensures RespectsDeadlines(w, route, cost, now)
  {
    hide Latest, CellOk, TableOk, TryAcquire, EnsureCapacity, Insert, Reserve, SlowStartPreDeny, EffectiveAlgorithm;
    assert Latest([]) == 0 by { LatestOfNone(); }
    var key := Resolve(w.lim, route);
    TryAcquireShape(w.lim, route, cost, now);
    GlobalDenial(w.lim, route, cost, now);
    if PassesGates(w.lim, key, cost, now) {
      RoomKeepsOthers(w.lim, key, now, key);
      var room := Insert(EnsureCapacity(w.lim, key).value, key, now);
      if key in w.lim.buckets { assert CellBlockOk(CellOf(w, key), w.clock); }
      ReserveDenial(room.buckets[key], key, EffectiveAlgorithm(w.lim.cfg, w.lim.startedAt, now), cost, now);
    }
  }

  lemma GlobalDenial(l: Limiter, route: Key, cost: Cost, now: Duration)
    ensures var a := TryAcquire(l, route, cost, now).1;
            var blocked := l.globalBlockedUntil.Some? && now < l.globalBlockedUntil.value;
            && (blocked ==> a == Denied(l.globalBlockedUntil.value - now, FeedbackBackoff))
            && (!blocked && !PassesGates(l, Resolve(l, route), cost, now) ==> a.Denied? && a.reason != FeedbackBackoff)
  {
    hide NewBucket, FirstEvictable, Reserve, EffectiveAlgorithm, SlowStartPreDeny;
  }

  lemma ReserveDenial(b: Bucket, key: Key, algo: Algorithm, cost: Cost, now: Duration)
    ensures var a := Reserve(b, key, algo, cost, now).1;
            if b.blockedUntil.Some? && now < b.blockedUntil.value
            then a == Denied(b.blockedUntil.value - now, FeedbackBackoff)
            else a.Granted? || a.reason != FeedbackBackoff
  {
    hide TakeTokens, MaybeReset;
  }

  // The deadline of a feedback signal: no earlier than the wait it names, nor - when nothing remains -
  // than the reset it names, and no later than the later of them.
  lemma FeedbackDeadline(feedback: Types.Feedback, now: Duration)
    ensures var until := Later(now, Backoff(feedback));
            var resets := feedback.remaining == Some(0) && feedback.resetAfter.Some?;
            && Later(now, feedback.retryAfter) <= until
            && (resets ==> Later(now, feedback.resetAfter.value) <= until)
            && (until == Later(now, feedback.retryAfter) || (resets && until == Later(now, feedback.resetAfter.value)))
  {
  }

  // ----- where no key is evicted the history is never cut short -----

  lemma HistoryGrows(w: World, op: Op, key: Key)
    requires Accounted(w) && Legal(w, op) && NeverEvicts(w.lim.cfg) && key in w.lives
    ensures var w' := Step(w, op);
            && key in w'.lives
            && w.lives[key].deadlines <= w'.lives[key].deadlines
            && (!op.Update? ==> w'.lives[key].born == w.lives[key].born && w.lives[key].spent <= w'.lives[key].spent)
  {
    hide Step, Legal, CellOk, TableOk, Reserve, Buckets.Commit, Buckets.Refund, OnUpdate, PassesGates, UpdateConfig,
         EffectiveAlgorithm;
    StepAccounted(w, op);
    StaysTracked(w, op, key);
    StepCell(w, op, key);
  }

  lemma StaysTracked(w: World, op: Op, key: Key)
    requires Consistent(w) && NeverEvicts(w.lim.cfg) && key in w.lim.buckets
    ensures key in Step(w, op).lim.buckets
  {
    hide TryAcquire, ApplyFeedback, EnsureCapacity, Insert, TableOk, Reserve, OnUpdate, SlowStartPreDeny,
         EffectiveAlgorithm, Tracked, FinishLife, AnyOutstanding, BlockUntil, Backoff, Later;
    match op
    case Acquire(route, cost, now) =>
      TryAcquireShape(w.lim, route, cost, now);
      RoomKeepsTracked(w.lim, Resolve(w.lim, route), now, key);
    case Feedback(route, feedback, now) =>
      var l := Remapped(w.lim, route, feedback);
      FeedbackShape(w.lim, route, feedback, now);
      RoomKeepsTracked(l, Resolve(l, route), now, key);
    case _ =>
  }

  lemma RoomKeepsTracked(l: Limiter, arriving: Key, now: Duration, key: Key)
    requires NeverEvicts(l.cfg) && key in l.buckets
    ensures EnsureCapacity(l, arriving).Some? ==>
              key in Insert(EnsureCapacity(l, arriving).value, arriving, now).buckets
  {
  }

  // A deadline from feedback is always applied when there is no key bound.
  lemma FeedbackIsApplied(w: World, route: Key, feedback: Types.Feedback, now: Duration)
    requires Consistent(w) && w.lim.cfg.maxKeys.None? && !feedback.scope.GlobalFeedback?
    ensures var w' := Step(w, Op.Feedback(route, feedback, now));
            var key := Resolve(w'.lim, route);
            && key in w'.lives
            && w'.lives[key].deadlines == BucketDeadlines(w, key) + [Later(now, Backoff(feedback))]
  {
    hide TableOk, Backoff, Later, NewBucket;
    FeedbackShape(w.lim, route, feedback, now);
  }

  lemma {:induction false} RunHistoryGrows(w: World, ops: seq<Op>, c: (World, Op) -> bool, key: Key)
    requires Accounted(w) && Along(w, ops, c) && key in w.lives
    requires forall w, op :: c(w, op) ==> NeverEvicts(w.lim.cfg)
    ensures key in Run(w, ops).lives && w.lives[key].deadlines <= Run(w, ops).lives[key].deadlines
    decreases |ops|
  {
    hide Accounted, Step, Legal;
    if ops != [] {
      StepAccounted(w, ops[0]);
      HistoryGrows(w, ops[0], key);
      RunHistoryGrows(Step(w, ops[0]), ops[1..], c, key);
    }
  }

  // Feedback is never forgotten: with no key bound and a clock that does not go back, whatever comes
  // before and after it, no request for the bucket it resolved to is granted before its deadline.
  lemma FeedbackHolds(cfg: Config, startedAt: Duration, before: seq<Op>, told: Op, after: seq<Op>,
                      c: (World, Op) -> bool, route: Key, cost: Cost, now: Duration)
    requires told.Feedback? && !told.feedback.scope.GlobalFeedback?
    requires Along(Start(cfg, startedAt), before, c) && c(Run(Start(cfg, startedAt), before), told)
    requires forall w, op :: c(w, op) ==> w.clock <= op.now && w.lim.cfg.maxKeys.None?
    requires var w := Step(Run(Start(cfg, startedAt), before), told);
             && Along(w, after, c) && Run(w, after).clock <= now
             && Resolve(Run(w, after).lim, route) == Resolve(w.lim, told.route)
    ensures var w := Run(Step(Run(Start(cfg, startedAt), before), told), after);
            TryAcquire(w.lim, route, cost, now).1.Granted? ==> now >= Later(told.now, Backoff(told.feedback))
  {
    hide Along, Run, Start, Step, Resolve, BlocksOk, TryAcquire, Backoff, Later;
    var w0 := Run(Start(cfg, startedAt), before);
    assert BlocksOk(w0) by {
      StartBlocksOk(cfg, startedAt);
      RunKeepsBlocks(Start(cfg, startedAt), before, c);
    }
    FeedbackReaches(w0, told, after, c, Resolve(Step(w0, told).lim, told.route));
    BlocksRespectDeadlines(Run(Step(w0, told), after), route, cost, now);
  }

  lemma StartBlocksOk(cfg: Config, startedAt: Duration)
    ensures BlocksOk(Start(cfg, startedAt))
  {
    StartAccounted(cfg, startedAt);
  }

  lemma FeedbackReaches(w0: World, told: Op, after: seq<Op>, c: (World, Op) -> bool, key: Key)
    requires BlocksOk(w0) && w0.clock <= told.now && w0.lim.cfg.maxKeys.None?
    requires told.Feedback? && !told.feedback.scope.GlobalFeedback? && key == Resolve(Step(w0, told).lim, told.route)
    requires Along(Step(w0, told), after, c)
    requires forall w, op :: c(w, op) ==> w.clock <= op.now && w.lim.cfg.maxKeys.None?
    ensures BlocksOk(Run(Step(w0, told), after))
    ensures Later(told.now, Backoff(told.feedback)) <= Latest(BucketDeadlines(Run(Step(w0, told), after), key))
  {
    hide Along, Run, Step, Resolve, CellOk, CellBlockOk, TableOk, Backoff, Later;
    var until := Later(told.now, Backoff(told.feedback));
    StepKeepsBlocks(w0, told);
    FeedbackIsApplied(w0, told.route, told.feedback, told.now);
    RunKeepsBlocks(Step(w0, told), after, c);
    RunHistoryGrows(Step(w0, told), after, c, key);
    assert told == Op.Feedback(told.route, told.feedback, told.now);
    var mine, all := Step(w0, told).lives[key].deadlines, Run(Step(w0, told), after).lives[key].deadlines;
    assert mine[|mine| - 1] == until && all[|mine| - 1] == until;
    LatestIsMaximum(all);
    assert until in all;
  }
}

// What an acquire answers, at any point of any run, told in the callers' own terms: the configuration,
// the deadlines, the permits they hold and the keys that are tracked.
module Replies {
  import opened Machine
  import opened TokenBucket
  import opened Types
  import Windows
  import opened Buckets
  import opened Limiters
  import opened Ledgers
  import opened KeyTable
  import opened Worlds
  import opened Accounting
  import S = SlowStart

  predicate PastGlobalBlock(l: Limiter, now: Duration) {
    l.globalBlockedUntil.None? || l.globalBlockedUntil.value <= now
  }

  // ----- a cost above the limit -----

  predicate AboveLimit(algo: Algorithm, cost: Cost) {
    match algo
    case FixedWindow(max, _) => max < cost
    case TokenBucket(capacity, _) => capacity < cost
  }

  predicate Disables(algo: Algorithm) {
    match algo
    case FixedWindow(max, _) => max == 0
    case TokenBucket(capacity, _) => capacity == 0
  }

  // Under slow start such a cost is told to wait for the end of the ramp, and past it to wait for
  // nothing; a pool of capacity zero is told to wait for nothing from the start.
  lemma AboveLimitUnderRamp(l: Limiter, route: Key, cost: Cost, now: Duration)
    requires PastGlobalBlock(l, now) && l.cfg.slowStart.Some? && AboveLimit(l.cfg.algorithm, cost)
    requires Disables(l.cfg.algorithm) ==> l.cfg.algorithm.TokenBucket?
    ensures var wait := if Disables(l.cfg.algorithm) then 0
                        else if now < l.startedAt then l.cfg.slowStart.value
                        else Max(l.startedAt + l.cfg.slowStart.value - now, 0);
            TryAcquire(l, route, cost, now) == (l, Denied(wait, SlowStartRamp))
  {
    hide EnsureCapacity, Insert, Reserve, S.EffectiveMax, S.EffectiveU64;
    match l.cfg.algorithm
    case FixedWindow(max, _) => S.EffectiveLimitsMonotone(max, l.cfg.slowStart.value, l.startedAt, now, now);
    case TokenBucket(capacity, _) => S.EffectiveLimitsMonotone(capacity, l.cfg.slowStart.value, l.startedAt, now, now);
  }

  // Without slow start it is told that it is unachievable, or that the limit disables the key: to wait
  // forever, or - at a maximum of zero, with slow start or without - for one window.
  lemma AboveLimitSaysWhy(w: World, route: Key, cost: Cost, now: Duration)
    requires Accounted(w) && AboveLimit(w.lim.cfg.algorithm, cost)
    requires w.lim.cfg.slowStart.None? || (w.lim.cfg.algorithm.FixedWindow? && Disables(w.lim.cfg.algorithm))
    ensures var a := TryAcquire(w.lim, route, cost, now).1;
            && a.Denied?
            && (a.reason != FeedbackBackoff && a.reason != KeyCardinalityBound ==>
                  a == if !Disables(w.lim.cfg.algorithm) then Denied(DURATION_MAX, Unachievable)
                       else if w.lim.cfg.algorithm.FixedWindow? then Denied(w.lim.cfg.algorithm.window, Disabled)
                       else Denied(DURATION_MAX, Disabled))
  {
    hide EnsureCapacity, Insert, Reserve, NewBucket, TableOk, CellOk, TryAcquire;
    var key := Resolve(w.lim, route);
    TryAcquireShape(w.lim, route, cost, now);
    NotPastGates(w.lim, route, cost, now);
    if PassesGates(w.lim, key, cost, now) {
      RoomKeepsOthers(w.lim, key, now, key);
      BucketIsOfKind(w, key, now);
      var room := Insert(EnsureCapacity(w.lim, key).value, key, now);
      ReserveSaysWhy(room.buckets[key], key, EffectiveAlgorithm(w.lim.cfg, w.lim.startedAt, now), cost, now);
      if Disables(w.lim.cfg.algorithm) { ZeroStaysZero(w.lim, now); }
    }
  }

  lemma ZeroStaysZero(l: Limiter, now: Duration)
    requires Disables(l.cfg.algorithm)
    ensures EffectiveAlgorithm(l.cfg, l.startedAt, now)
         == if l.cfg.algorithm.FixedWindow? then l.cfg.algorithm
            else TokenBucket(0, EffectiveAlgorithm(l.cfg, l.startedAt, now).refillPerSec)
  {
    hide S.EffectiveMax, S.EffectiveU64;
    EffectiveWithin(l.cfg, l.startedAt, now);
  }

  // The bucket a request gets, old or new, is of the configured kind.
  lemma BucketIsOfKind(w: World, key: Key, now: Duration)
    requires Accounted(w)
    ensures key in w.lim.buckets ==> (w.lim.buckets[key].algo.FixedState? <==> w.lim.cfg.algorithm.FixedWindow?)
    ensures NewBucket(now, w.lim.cfg.algorithm).algo.FixedState? <==> w.lim.cfg.algorithm.FixedWindow?
  {
    hide TableOk;
    if key in w.lim.buckets { assert CellOk(CellOf(w, key), w.lim.cfg.algorithm); }
  }

  // A refusal before the bucket is reached names the gate that refused.
  lemma NotPastGates(l: Limiter, route: Key, cost: Cost, now: Duration)
    ensures var a := TryAcquire(l, route, cost, now).1;
            if !PastGlobalBlock(l, now) then a.Denied? && a.reason == FeedbackBackoff
            else if SlowStartPreDeny(l.cfg, l.startedAt, cost, now).Some? then a.Denied? && a.reason == SlowStartRamp
            else EnsureCapacity(l, Resolve(l, route)).None? ==>
              a == Denied(if l.cfg.algorithm.FixedWindow? then l.cfg.algorithm.window else NANOS, KeyCardinalityBound)
  {
    hide EnsureCapacity, Insert, Reserve, SlowStartPreDeny, EffectiveAlgorithm;
  }

  // Why a bucket of the right kind denies.
  lemma ReserveSaysWhy(b: Bucket, key: Key, algo: Algorithm, cost: Cost, now: Duration)
    requires b.algo.FixedState? <==> algo.FixedWindow?
    ensures var a := Reserve(b, key, algo, cost, now).1;
            a.Denied? && a.reason != FeedbackBackoff ==>
              && (a.reason == Disabled <==> Disables(algo))
              && (a.reason == Unachievable <==>
                    !Disables(algo) && (AboveLimit(algo, cost) || (algo.TokenBucket? && algo.refillPerSec == 0)))
              && (a.reason == WindowExhausted || a.reason == Unachievable || a.reason == Disabled)
              && (a.reason == Disabled ==> a.retryAfter == if algo.FixedWindow? then algo.window else DURATION_MAX)
              && (a.reason == Unachievable ==> a.retryAfter == DURATION_MAX)
    ensures AboveLimit(algo, cost) ==> Reserve(b, key, algo, cost, now).1.Denied?
  {
    hide Refill, MaybeReset, RetryAfterForDeficit;
    if algo.TokenBucket? && !AboveLimit(algo, cost) && algo.refillPerSec > 0 {
      FiniteWait(SatSub(cost, Refill(b.algo.t, algo.capacity, algo.refillPerSec, now).credits), algo.refillPerSec);
    }
  }

  lemma FiniteWait(missing: u32, rate: u64)
    requires rate > 0
    ensures RetryAfterForDeficit(missing, rate) < DURATION_MAX
  {
    RetryIsCeiling(missing, rate);
    CeilAtMost(missing * NANOS, rate, missing * NANOS);
    MulMono(1, rate, missing * NANOS);
  }

  // Every denial names its cause.
  predicate SaysWhy(l: Limiter, route: Key, cost: Cost, now: Duration) {
    var a, algo := TryAcquire(l, route, cost, now).1, EffectiveAlgorithm(l.cfg, l.startedAt, now);
    a.Denied? ==>
      match a.reason
      case FeedbackBackoff => true
      case SlowStartRamp => SlowStartPreDeny(l.cfg, l.startedAt, cost, now).Some?
      case KeyCardinalityBound => Resolve(l, route) !in l.buckets
      case Disabled => Disables(algo)
      case Unachievable =>
        !Disables(algo) && (AboveLimit(algo, cost) || (algo.TokenBucket? && algo.refillPerSec == 0))
      case WindowExhausted =>
        !Disables(algo) && !AboveLimit(algo, cost) && (algo.TokenBucket? ==> algo.refillPerSec > 0)
  }

  lemma DenialSaysWhy(w: World, route: Key, cost: Cost, now: Duration)
    requires Accounted(w)
    ensures SaysWhy(w.lim, route, cost, now)
  {
    hide Insert, Reserve, NewBucket, TableOk, CellOk, TryAcquire, SlowStartPreDeny, EffectiveAlgorithm, FirstEvictable;
    var key := Resolve(w.lim, route);
    TryAcquireShape(w.lim, route, cost, now);
    NotPastGates(w.lim, route, cost, now);
    if PassesGates(w.lim, key, cost, now) {
      RoomKeepsOthers(w.lim, key, now, key);
      BucketIsOfKind(w, key, now);
      EffectiveWithin(w.lim.cfg, w.lim.startedAt, now);
      var room := Insert(EnsureCapacity(w.lim, key).value, key, now);
      ReserveSaysWhy(room.buckets[key], key, EffectiveAlgorithm(w.lim.cfg, w.lim.startedAt, now), cost, now);
    }
  }

  // What a grant hands out: a permit for the bucket the route resolves to, of the cost asked, issued
  // now; of a window, charged to the window the bucket is in, and with its end.
  predicate GrantIssues(l: Limiter, route: Key, cost: Cost, now: Duration) {
    var (l', a) := TryAcquire(l, route, cost, now);
    a.Granted? ==>
      && a.permit.key == Resolve(l, route) && a.permit.key in l'.buckets
      && match (l'.buckets[a.permit.key].algo, l.cfg.algorithm)
         case (FixedState(f), FixedWindow(_, window)) =>
           a.permit == Permit(a.permit.key, cost, f.windowStart, now, Min(f.windowStart + window, DURATION_MAX),
                              WindowPermit(f.windowStart))
         case (TokenState(_), TokenBucket(_, _)) => a.permit == Permit(a.permit.key, cost, 0, now, 0, TokenPermit)
         case _ => false
  }

  lemma ReserveIssuesPermit(b: Bucket, key: Key, algo: Algorithm, cost: Cost, now: Duration)
    requires b.algo.FixedState? <==> algo.FixedWindow?
    ensures var (b', a) := Reserve(b, key, algo, cost, now);
            a.Granted? ==>
              match (b'.algo, algo)
              case (FixedState(f), FixedWindow(_, window)) =>
                a.permit == Permit(key, cost, f.windowStart, now, Min(f.windowStart + window, DURATION_MAX),
                                   WindowPermit(f.windowStart))
              case (TokenState(_), TokenBucket(_, _)) => a.permit == Permit(key, cost, 0, now, 0, TokenPermit)
              case _ => false
  {
    hide MaybeReset, Refill, RetryAfterForDeficit;
  }

  lemma GrantIssuesPermit(w: World, route: Key, cost: Cost, now: Duration)
    requires Accounted(w)
    ensures GrantIssues(w.lim, route, cost, now)
  {
    hide Insert, Reserve, NewBucket, TableOk, CellOk, TryAcquire, SlowStartPreDeny, EffectiveAlgorithm, EnsureCapacity;
    var key := Resolve(w.lim, route);
    TryAcquireShape(w.lim, route, cost, now);
    if PassesGates(w.lim, key, cost, now) {
      RoomKeepsOthers(w.lim, key, now, key);
      BucketIsOfKind(w, key, now);
      EffectiveWithin(w.lim.cfg, w.lim.startedAt, now);
      var room := Insert(EnsureCapacity(w.lim, key).value, key, now);
      ReserveIssuesPermit(room.buckets[key], key, EffectiveAlgorithm(w.lim.cfg, w.lim.startedAt, now), cost, now);
    }
  }

  // ----- the key table -----

  // No room for a new key, and none to be made: all that are tracked have permits outstanding.
  ghost predicate NoRoom(w: World, key: Key) {
    && key !in w.lim.buckets && w.lim.cfg.maxKeys.Some? && |w.lim.buckets| >= w.lim.cfg.maxKeys.value
    && (w.lim.cfg.overflowPolicy.DenyNewKey? || forall k :: k in w.lim.buckets ==> Of(w.ledger, k) != [])
  }

  // The key at `i` of the queue is the oldest none of whose permits is outstanding.
  ghost predicate OldestIdle(w: World, i: nat) {
    && i < |w.lim.fifo| && Of(w.ledger, w.lim.fifo[i]) == []
    && forall j :: 0 <= j < i ==> Of(w.ledger, w.lim.fifo[j]) != []
  }

  // Past the global block and slow start, a request is refused for the bound on keys exactly if there
  // is no room, with a wait of one window or one second. Otherwise a new key joins the queue; below the
  // bound nothing leaves it, at the bound exactly the oldest idle key does.
  ghost predicate TableAnswers(w: World, route: Key, cost: Cost, now: Duration) {
    var key := Resolve(w.lim, route);
    var (l, a) := TryAcquire(w.lim, route, cost, now);
    var below := w.lim.cfg.maxKeys.None? || |w.lim.buckets| < w.lim.cfg.maxKeys.value;
    && (a.Denied? && a.reason == KeyCardinalityBound <==> NoRoom(w, key))
    && (NoRoom(w, key) ==>
          l == w.lim && a.retryAfter == if l.cfg.algorithm.FixedWindow? then l.cfg.algorithm.window else NANOS)
    && (key in w.lim.buckets ==> l.fifo == w.lim.fifo)
    && (key !in w.lim.buckets && below ==> l.fifo == w.lim.fifo + [key])
    && (key !in w.lim.buckets && !below && !NoRoom(w, key) ==>
          exists i: nat :: OldestIdle(w, i) && l.fifo == w.lim.fifo[..i] + w.lim.fifo[i + 1..] + [key])
    && forall k :: k in l.buckets <==> k in l.fifo
  }

  lemma TableIsAnswered(w: World, route: Key, cost: Cost, now: Duration)
    requires Accounted(w) && PastGlobalBlock(w.lim, now)
    requires SlowStartPreDeny(w.lim.cfg, w.lim.startedAt, cost, now).None?
    ensures TableAnswers(w, route, cost, now)
  {
    hide Insert, Reserve, NewBucket, TryAcquire, SlowStartPreDeny, EffectiveAlgorithm, FirstEvictable, HasOutstanding,
         CellOk, CellOf, TableOk;
    var key := Resolve(w.lim, route);
    NotPastGates(w.lim, route, cost, now);
    TryAcquireShape(w.lim, route, cost, now);
    assert TableOk(w.lim) by { TableIsOk(w); }
    HeldIffOutstanding(w);
    FirstIdle(w);
    if PassesGates(w.lim, key, cost, now) {
      DenialSaysWhy(w, route, cost, now);
      RoomKeepsOthers(w.lim, key, now, key);
      InsertionOrder(w.lim, key, now);
      InsertKeepsTable(w.lim, key, now);
      ListsTracked(Insert(EnsureCapacity(w.lim, key).value, key, now));
      ReserveNotTable(w, key, cost, now);
    }
    ListsTracked(w.lim);
  }

  lemma TableIsOk(w: World)
    requires Accounted(w)
    ensures TableOk(w.lim)
  {
  }

  lemma ListsTracked(l: Limiter)
    requires TableOk(l)
    ensures forall k :: k in l.fifo <==> k in l.buckets
  {
  }

  lemma ReserveNotTable(w: World, key: Key, cost: Cost, now: Duration)
    requires EnsureCapacity(w.lim, key).Some?
    ensures var room := Insert(EnsureCapacity(w.lim, key).value, key, now);
            key in room.buckets &&
            var a := Reserve(room.buckets[key], key, EffectiveAlgorithm(w.lim.cfg, w.lim.startedAt, now), cost, now).1;
            a.Denied? ==> a.reason != KeyCardinalityBound
  {
    hide TakeTokens, MaybeReset, EffectiveAlgorithm, NewBucket, FirstEvictable;
  }

  lemma HeldIffOutstanding(w: World)
    requires Accounted(w)
    ensures forall k :: k in w.lim.buckets ==> (HasOutstanding(w.lim.buckets[k]) <==> Of(w.ledger, k) != [])
  {
    hide HasOutstanding, CellOk, TableOk;
    forall k | k in w.lim.buckets ensures HasOutstanding(w.lim.buckets[k]) <==> Of(w.ledger, k) != [] {
      OutstandingIffHeld(CellOf(w, k), w.lim.cfg.algorithm);
    }
  }

  lemma FirstIdle(w: World)
    requires Accounted(w)
    ensures var i := FirstEvictable(w.lim.buckets, w.lim.fifo);
            && (i < |w.lim.fifo| ==> OldestIdle(w, i))
            && (i == |w.lim.fifo| <==> forall k :: k in w.lim.buckets ==> Of(w.ledger, k) != [])
  {
    hide HasOutstanding, CellOk, CellOf;
    HeldIffOutstanding(w);
    var i := FirstEvictable(w.lim.buckets, w.lim.fifo);
    assert forall j :: 0 <= j < |w.lim.fifo| ==> w.lim.fifo[j] in w.lim.buckets;
    if i == |w.lim.fifo| {
      forall k | k in w.lim.buckets ensures Of(w.ledger, k) != [] {
        assert k in w.lim.fifo;
      }
    } else {
      assert Of(w.ledger, w.lim.fifo[i]) == [];
    }
  }

  // ----- feedback -----

  // Global feedback blocks everyone and touches no bucket. Any other blocks the bucket its route
  // resolves to - as remapped by that very feedback - unless that is a new key without room, which
  // leaves every bucket as it was.
  ghost predicate FeedbackAnswers(w: World, route: Key, feedback: Types.Feedback, now: Duration) {
    var w' := Step(w, Op.Feedback(route, feedback, now));
    var until, key := Later(now, Backoff(feedback)), Resolve(w'.lim, route);
    if feedback.scope.GlobalFeedback? then
      && w'.lim.buckets == w.lim.buckets && w'.lim.fifo == w.lim.fifo
      && w'.lim.globalBlockedUntil.Some? && w'.lim.globalBlockedUntil.value >= until
    else
      && w'.lim.globalBlockedUntil == w.lim.globalBlockedUntil
      && if NoRoom(w, key) then w'.lim.buckets == w.lim.buckets && w'.lim.fifo == w.lim.fifo
         else
           && key in w'.lim.buckets
           && w'.lim.buckets[key].blockedUntil.Some? && w'.lim.buckets[key].blockedUntil.value >= until
           && w'.lim.buckets[key].algo
              == (if key in w.lim.buckets then w.lim.buckets[key].algo else NewAlgo(now, w.lim.cfg.algorithm))
           && forall k :: k in w'.lim.buckets && k != key ==>
                k in w.lim.buckets && w'.lim.buckets[k] == w.lim.buckets[k]
  }

  // A remap changes nothing about the room for a key.
  lemma RoomIff(w: World, l: Limiter, key: Key)
    requires Accounted(w) && l == w.lim.(routes := l.routes)
    ensures EnsureCapacity(l, key).None? <==> NoRoom(w, key)
  {
    hide FirstEvictable, HasOutstanding, CellOk, CellOf, TableOk;
    FirstIdle(w);
  }

  lemma FeedbackIsAnswered(w: World, route: Key, feedback: Types.Feedback, now: Duration)
    requires Accounted(w)
    ensures FeedbackAnswers(w, route, feedback, now)
  {
    hide Insert, TryAcquire, ApplyFeedback, FirstEvictable, HasOutstanding, CellOk, CellOf, TableOk, Backoff, Later,
         Tracked, BlockLife;
    var l := Remapped(w.lim, route, feedback);
    var key := Resolve(l, route);
    FeedbackShape(w.lim, route, feedback, now);
    RoomIff(w, l, key);
    hide NoRoom, EnsureCapacity, Accounted;
    if EnsureCapacity(l, key).Some? {
      RoomKeepsOthers(l, key, now, key);
      forall k ensures var room := Insert(EnsureCapacity(l, key).value, key, now);
                       k in room.buckets && k != key ==> k in l.buckets && room.buckets[k] == l.buckets[k]
      {
        RoomKeepsOthers(l, key, now, k);
      }
    }
  }

  // At any point of any run.
  lemma TableReplies(cfg: Config, startedAt: Duration, ops: seq<Op>, c: (World, Op) -> bool,
                     route: Key, cost: Cost, now: Duration)
    requires Along(Start(cfg, startedAt), ops, c)
    requires var l := Run(Start(cfg, startedAt), ops).lim;
             PastGlobalBlock(l, now) && SlowStartPreDeny(l.cfg, l.startedAt, cost, now).None?
    ensures TableAnswers(Run(Start(cfg, startedAt), ops), route, cost, now)
  {
    hide Along, Run, Start, TableAnswers, Accounted, SlowStartPreDeny;
    StartAccounted(cfg, startedAt);
    RunAccounted(Start(cfg, startedAt), ops, c);
    TableIsAnswered(Run(Start(cfg, startedAt), ops), route, cost, now);
  }

  lemma DenialReplies(cfg: Config, startedAt: Duration, ops: seq<Op>, c: (World, Op) -> bool,
                      route: Key, cost: Cost, now: Duration)
    requires Along(Start(cfg, startedAt), ops, c)
    ensures SaysWhy(Run(Start(cfg, startedAt), ops).lim, route, cost, now)
  {
    hide Along, Run, Start, SaysWhy, Accounted;
    StartAccounted(cfg, startedAt);
    RunAccounted(Start(cfg, startedAt), ops, c);
    DenialSaysWhy(Run(Start(cfg, startedAt), ops), route, cost, now);
  }

  lemma GrantReplies(cfg: Config, startedAt: Duration, ops: seq<Op>, c: (World, Op) -> bool,
                     route: Key, cost: Cost, now: Duration)
    requires Along(Start(cfg, startedAt), ops, c)
    ensures GrantIssues(Run(Start(cfg, startedAt), ops).lim, route, cost, now)
  {
    hide Along, Run, Start, GrantIssues, Accounted;
    StartAccounted(cfg, startedAt);
    RunAccounted(Start(cfg, startedAt), ops, c);
    GrantIssuesPermit(Run(Start(cfg, startedAt), ops), route, cost, now);
  }

  lemma FeedbackReplies(cfg: Config, startedAt: Duration, ops: seq<Op>, c: (World, Op) -> bool,
                        route: Key, feedback: Types.Feedback, now: Duration)
    requires Along(Start(cfg, startedAt), ops, c)
    ensures FeedbackAnswers(Run(Start(cfg, startedAt), ops), route, feedback, now)
  {
    hide Along, Run, Start, FeedbackAnswers, Accounted;
    StartAccounted(cfg, startedAt);
    RunAccounted(Start(cfg, startedAt), ops, c);
    FeedbackIsAnswered(Run(Start(cfg, startedAt), ops), route, feedback, now);
  }

  // ----- what slow start hides -----

  const SECOND: Duration := 1_000_000_000

  function Ramped(ramp: Option<Duration>): Config { Config(FixedWindow(10, 10 * SECOND), None, DenyNewKey, ramp) }

  // A cost of eleven in a window of ten: halfway through a ramp of ten seconds it is told to wait five,
  // after it to wait for nothing - where without slow start it is told to wait forever.
  lemma RampHidesUnachievable()
    ensures TryAcquire(New(Ramped(Some(10 * SECOND)), 0), 7, 11, 5 * SECOND).1 == Denied(5 * SECOND, SlowStartRamp)
    ensures TryAcquire(New(Ramped(Some(10 * SECOND)), 0), 7, 11, 20 * SECOND).1 == Denied(0, SlowStartRamp)
    ensures TryAcquire(New(Ramped(None), 0), 7, 11, 20 * SECOND).1 == Denied(DURATION_MAX, Unachievable)
  {
    AboveLimitUnderRamp(New(Ramped(Some(10 * SECOND)), 0), 7, 11, 5 * SECOND);
    AboveLimitUnderRamp(New(Ramped(Some(10 * SECOND)), 0), 7, 11, 20 * SECOND);
    hide Windows.WindowStartFor;
  }
}

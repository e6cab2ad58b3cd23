// The key table over whole runs: how one operation changes the insertion queue, and the bound on
// tracked keys and route remaps.
module TableRuns {
  import opened Machine
  import opened TokenBucket
  import opened Types
  import opened Buckets
  import opened Limiters
  import opened KeyTable
  import opened Worlds
  import opened Accounting

  // The key an operation may bring into the table.
  function Arriving(l: Limiter, op: Op): Option<Key> {
    match op
    case Acquire(route, cost, now) =>
      if PassesGates(l, Resolve(l, route), cost, now) then Some(Resolve(l, route)) else None
    case Feedback(route, feedback, _) =>
      var remapped := Remapped(l, route, feedback);
      var key := Resolve(remapped, route);
      if !feedback.scope.GlobalFeedback? && EnsureCapacity(remapped, key).Some? then Some(key) else None
    case _ => None
  }

  // One operation lets at most the first key with nothing outstanding leave the queue, keeps the
  // order of the rest, and appends a new key.
  lemma StepFifo(w: World, op: Op)
    requires Consistent(w)
    ensures Step(w, op).lim.fifo
         == match Arriving(w.lim, op) case None => w.lim.fifo case Some(key) => NextFifo(w.lim, key)
  {
    hide Reserve, TryAcquire, ApplyFeedback, NewBucket, TableOk, EnsureCapacity, Insert, NextFifo, Tracked,
         SlowStartPreDeny, EffectiveAlgorithm, AnyOutstanding;
    match op
    case Acquire(route, cost, now) =>
      var key := Resolve(w.lim, route);
      TryAcquireShape(w.lim, route, cost, now);
      if PassesGates(w.lim, key, cost, now) { InsertionOrder(w.lim, key, now); }
    case Feedback(route, feedback, now) =>
      var l := Remapped(w.lim, route, feedback);
      FeedbackShape(w.lim, route, feedback, now);
      RemapKeepsTable(w.lim, route, feedback, Resolve(l, route));
      if EnsureCapacity(l, Resolve(l, route)).Some? { InsertionOrder(l, Resolve(l, route), now); }
    case _ =>
  }

  // ----- the queue is in order of creation -----

  // The queue lists the tracked keys by the time their buckets were created, none in the future.
  ghost predicate ByBirth(w: World) {
    && (forall k :: k in w.lives ==> w.lives[k].born <= w.clock)
    && (forall k :: k in w.lim.fifo ==> k in w.lives)
    && forall i, j :: 0 <= i < j < |w.lim.fifo| ==> w.lives[w.lim.fifo[i]].born <= w.lives[w.lim.fifo[j]].born
  }

  // A change of the algorithm's kind gives every bucket a new life at once.
  predicate Renews(w: World, op: Op) {
    && op.Update? && UpdateConfig(w.lim, op.cfg, op.now).1.None?
    && !SameKind(w.lim.cfg.algorithm, op.cfg.algorithm)
  }

  lemma BornAfter(w: World, op: Op, key: Key)
    requires key in Step(w, op).lives
    ensures Step(w, op).lives[key].born
         == if Renews(w, op) || key !in w.lives then op.now else w.lives[key].born
  {
    hide TryAcquire, ApplyFeedback, CommitPermit, RefundPermit, ForceConfig, AnyOutstanding;
  }

  lemma NextFifoKeepsOrder(l: Limiter, key: Key, i: nat, j: nat)
    requires TableOk(l) && i < j < |NextFifo(l, key)|
    ensures var next := NextFifo(l, key);
            && next[i] in l.fifo
            && (next[j] in l.fifo ==> Precedes(l.fifo, next[i], next[j]))
            && (next[j] !in l.fifo ==> next[j] !in l.buckets)
  {
    hide FirstEvictable, TableFull, TableOk;
    var next, e := NextFifo(l, key), FirstEvictable(l.buckets, l.fifo);
    var cut := key !in l.buckets && TableFull(l, key) && e < |l.fifo|;
    var a, b := if cut && i >= e then i + 1 else i, if cut && j >= e then j + 1 else j;
    assert l.fifo[a] == next[i];
    if j < |next| - 1 || key in l.buckets {
      assert l.fifo[b] == next[j];
    } else {
      assert next[j] == key;
      TableListsTracked(l, key);
    }
  }

  ghost predicate Precedes(s: seq<Key>, x: Key, y: Key) {
    exists a, b :: 0 <= a < b < |s| && s[a] == x && s[b] == y
  }

  lemma TableListsTracked(l: Limiter, key: Key)
    requires TableOk(l)
    ensures key in l.fifo <==> key in l.buckets
  {
  }

  lemma StepKeepsByBirth(w: World, op: Op)
    requires Accounted(w) && Legal(w, op) && w.clock <= op.now && ByBirth(w)
    ensures ByBirth(Step(w, op))
  {
    hide Legal, CellOk, CellOf, TableOk, TryAcquire, ApplyFeedback, UpdateConfig, CommitPermit, RefundPermit, Tracked,
         NextFifo, FinishLife, UpdateLife, Renews, Arriving;
    var w' := Step(w, op);
    assert w'.clock == op.now;
    StepAccounted(w, op);
    StepFifo(w, op);
    forall k | k in w'.lives ensures w'.lives[k].born <= op.now { BornAfter(w, op, k); }
    QueueIsTracked(w');
    forall i, j | 0 <= i < j < |w'.lim.fifo|
      ensures w'.lives[w'.lim.fifo[i]].born <= w'.lives[w'.lim.fifo[j]].born
    {
      BornAfter(w, op, w'.lim.fifo[i]);
      BornAfter(w, op, w'.lim.fifo[j]);
      QueueIsTracked(w);
      if Arriving(w.lim, op).Some? {
        AccountedTable(w);
        NextFifoKeepsOrder(w.lim, Arriving(w.lim, op).value, i, j);
      }
    }
  }

  lemma QueueIsTracked(w: World)
    requires Accounted(w)
    ensures forall k :: k in w.lim.fifo <==> k in w.lives
    ensures forall k :: k in w.lives <==> k in w.lim.buckets
  {
  }

  lemma AccountedTable(w: World)
    requires Accounted(w)
    ensures TableOk(w.lim)
  {
  }

  // In every run with a clock that does not go back, eviction looks at the oldest bucket first.
  lemma {:induction false} RunByBirth(w: World, ops: seq<Op>, c: (World, Op) -> bool)
    requires Accounted(w) && ByBirth(w) && Along(w, ops, c)
    requires forall w, op :: c(w, op) ==> w.clock <= op.now
    ensures ByBirth(Run(w, ops))
    decreases |ops|
  {
    hide Step, Legal, ByBirth, CellOk;
    if ops != [] {
      StepAccounted(w, ops[0]);
      StepKeepsByBirth(w, ops[0]);
      RunByBirth(Step(w, ops[0]), ops[1..], c);
    }
  }

  lemma InsertedByBirth(cfg: Config, startedAt: Duration, ops: seq<Op>, c: (World, Op) -> bool)
    requires Along(Start(cfg, startedAt), ops, c)
    requires forall w, op :: c(w, op) ==> w.clock <= op.now
    ensures ByBirth(Run(Start(cfg, startedAt), ops))
  {
    StartAccounted(cfg, startedAt);
    RunByBirth(Start(cfg, startedAt), ops, c);
  }

  // ----- route remaps -----

  lemma RemapKeepsTable(l: Limiter, route: Key, feedback: Types.Feedback, key: Key)
    ensures TableOk(l) ==> TableOk(Remapped(l, route, feedback))
    ensures NextFifo(Remapped(l, route, feedback), key) == NextFifo(l, key)
    ensures Remapped(l, route, feedback).fifo == l.fifo
  {
  }

  // A remap from feedback takes effect for every later request of the route if and only if the route
  // is already remapped or the remap table has room; other routes are never affected.
  lemma RemapTakesEffectIff(l: Limiter, route: Key, feedback: Types.Feedback, now: Duration, other: Key)
    requires feedback.bucketRemap.Some? && feedback.bucketRemap.value != Resolve(l, route)
    ensures var lim := ApplyFeedback(l, route, feedback, now);
            && (Resolve(lim, route) == feedback.bucketRemap.value
                <==> (l.cfg.maxKeys.None? || |l.routes| < l.cfg.maxKeys.value || route in l.routes))
            && (other != route ==> Resolve(lim, other) == Resolve(l, other))
  {
    hide ApplyFeedback, EnsureCapacity, Insert;
    var remapped := Remapped(l, route, feedback);
    var key := Resolve(remapped, route);
    FeedbackShape(l, route, feedback, now);
    if EnsureCapacity(remapped, key).Some? {
      RoomKeepsOthers(remapped, key, now, key);
    }
  }

  // ----- bounds at a constant key bound -----

  ghost predicate Bounded(l: Limiter, n: nat) {
    l.cfg.maxKeys == Some(n) && |l.buckets| <= n && |l.routes| <= n
  }

  lemma RemapBounded(l: Limiter, route: Key, feedback: Types.Feedback, n: nat)
    requires Bounded(l, n)
    ensures Bounded(Remapped(l, route, feedback), n)
  {
    if feedback.bucketRemap.Some? {
      var next := l.routes[route := feedback.bucketRemap.value];
      assert next.Keys == l.routes.Keys + {route};
      assert |next.Keys| == |l.routes.Keys| + (if route in l.routes then 0 else 1);
    }
  }

  lemma ArrivalBounded(l: Limiter, key: Key, now: Duration, b: Bucket, n: nat)
    requires TableOk(l) && EnsureCapacity(l, key).Some? && Bounded(l, n)
    ensures var room := Insert(EnsureCapacity(l, key).value, key, now);
            Bounded(room.(buckets := room.buckets[key := b]), n)
  {
    hide EnsureCapacity, Insert, TableOk, NewBucket;
    InsertKeepsTable(l, key, now);
    RoomKeepsOthers(l, key, now, key);
    var room := Insert(EnsureCapacity(l, key).value, key, now);
    assert room.buckets[key := b].Keys == room.buckets.Keys;
    assert |room.buckets[key := b].Keys| == |room.buckets.Keys|;
  }

  lemma AcquireBounded(l: Limiter, route: Key, cost: Cost, now: Duration, n: nat)
    requires TableOk(l) && Bounded(l, n)
    ensures Bounded(TryAcquire(l, route, cost, now).0, n)
  {
    hide TryAcquire, Reserve, EnsureCapacity, Insert, TableOk, Bounded, EffectiveAlgorithm, SlowStartPreDeny;
    var key := Resolve(l, route);
    TryAcquireShape(l, route, cost, now);
    if PassesGates(l, key, cost, now) {
      var room := Insert(EnsureCapacity(l, key).value, key, now);
      RoomKeepsOthers(l, key, now, key);
      ArrivalBounded(l, key, now,
                     Reserve(room.buckets[key], key, EffectiveAlgorithm(l.cfg, l.startedAt, now), cost, now).0, n);
    }
  }

  lemma FeedbackBounded(l: Limiter, route: Key, feedback: Types.Feedback, now: Duration, n: nat)
    requires TableOk(l) && Bounded(l, n)
    ensures Bounded(ApplyFeedback(l, route, feedback, now), n)
  {
    hide ApplyFeedback, EnsureCapacity, Insert, TableOk, Backoff, Later, BlockUntil, Remapped, LaterBlock;
    var remapped := Remapped(l, route, feedback);
    var key := Resolve(remapped, route);
    FeedbackShape(l, route, feedback, now);
    RemapBounded(l, route, feedback, n);
    RemapKeepsTable(l, route, feedback, key);
    if EnsureCapacity(remapped, key).Some? {
      var room := Insert(EnsureCapacity(remapped, key).value, key, now);
      RoomKeepsOthers(remapped, key, now, key);
      ArrivalBounded(remapped, key, now, BlockUntil(room.buckets[key], Later(now, Backoff(feedback))), n);
    }
  }

  // At a constant key bound the tracked keys and the route remaps both stay within it.
  lemma StepBounded(w: World, op: Op, n: nat)
    requires Consistent(w) && Bounded(w.lim, n)
    requires op.Update? ==> op.cfg.maxKeys == Some(n)
    ensures Bounded(Step(w, op).lim, n)
  {
    hide TryAcquire, ApplyFeedback, TableOk, Tracked, AnyOutstanding, OnUpdate, Buckets.Commit, Buckets.Refund;
    var lim := Step(w, op).lim;
    match op
    case Acquire(route, cost, now) => AcquireBounded(w.lim, route, cost, now, n);
    case Feedback(route, feedback, now) => FeedbackBounded(w.lim, route, feedback, now, n);
    case _ =>
      assert lim.buckets.Keys == w.lim.buckets.Keys;
      assert |lim.buckets.Keys| == |w.lim.buckets.Keys|;
  }

  lemma {:induction false} RunBounded(w: World, ops: seq<Op>, c: (World, Op) -> bool, n: nat)
    requires Accounted(w) && Bounded(w.lim, n) && Along(w, ops, c)
    requires forall w, op :: c(w, op) && op.Update? ==> op.cfg.maxKeys == Some(n)
    ensures TableOk(Run(w, ops).lim) && Bounded(Run(w, ops).lim, n)
    decreases |ops|
  {
    hide Step, Legal, Bounded, TableOk, CellOk;
    if ops != [] {
      StepAccounted(w, ops[0]);
      StepBounded(w, ops[0], n);
      RunBounded(Step(w, ops[0]), ops[1..], c, n);
    }
  }

  // ----- a refusal under DenyNewKey is for good -----

  predicate Refuses(l: Limiter, key: Key) { TableFull(l, key) && l.cfg.overflowPolicy.DenyNewKey? }

  lemma RefusesEveryNewKey(l: Limiter, key: Key, other: Key, now: Duration)
    requires Refuses(l, key)
    ensures if other in l.buckets then EnsureCapacity(l, other) == Some(l) && Insert(l, other, now) == l
            else EnsureCapacity(l, other).None?
  {
  }

  // Nothing but an update of the key bound or the policy lets in a key that a full table refuses:
  // commits and refunds free reservations, but no key leaves.
  lemma StepKeepsRefusal(w: World, op: Op, key: Key)
    requires Refuses(w.lim, key)
    requires op.Update? ==> op.cfg.maxKeys == w.lim.cfg.maxKeys && op.cfg.overflowPolicy.DenyNewKey?
    ensures Refuses(Step(w, op).lim, key) && Step(w, op).lim.cfg.maxKeys == w.lim.cfg.maxKeys
  {
    hide Reserve, TryAcquire, ApplyFeedback, EnsureCapacity, Insert, SlowStartPreDeny, EffectiveAlgorithm, Tracked,
         AnyOutstanding, OnUpdate, Buckets.Commit, Buckets.Refund, Backoff, Later, BlockUntil;
    match op
    case Acquire(route, cost, now) =>
      TryAcquireShape(w.lim, route, cost, now);
      RefusesEveryNewKey(w.lim, key, Resolve(w.lim, route), now);
    case Feedback(route, feedback, now) =>
      var l := Remapped(w.lim, route, feedback);
      FeedbackShape(w.lim, route, feedback, now);
      RefusesEveryNewKey(l, key, Resolve(l, route), now);
    case _ =>
    assert Step(w, op).lim.buckets.Keys == w.lim.buckets.Keys;
    assert |Step(w, op).lim.buckets.Keys| == |w.lim.buckets.Keys|;
  }

  lemma {:induction false} RunKeepsRefusal(w: World, ops: seq<Op>, key: Key)
    requires Refuses(w.lim, key)
    requires forall op :: op in ops && op.Update? ==>
               op.cfg.maxKeys == w.lim.cfg.maxKeys && op.cfg.overflowPolicy.DenyNewKey?
    ensures Refuses(Run(w, ops).lim, key) && EnsureCapacity(Run(w, ops).lim, key).None?
    decreases |ops|
  {
    hide Step;
    if ops != [] {
      StepKeepsRefusal(w, ops[0], key);
      RunKeepsRefusal(Step(w, ops[0]), ops[1..], key);
    }
  }
}

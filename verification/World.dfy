// Runs of the limiter together with their history: the ledger of outstanding permits, and for each
// tracked bucket what happened in its current lifetime (from its creation to its eviction).
module Worlds {
  import opened Machine
  import opened TokenBucket
  import opened Types
  import opened Buckets
  import opened Limiters
  import opened Ledgers
  import opened KeyTable

  datatype Op =
    | Acquire(route: Key, cost: Cost, now: Duration)
    | Commit(permit: Permit, outcome: Outcome, now: Duration)
    | Refund(permit: Permit, now: Duration)
    | Feedback(route: Key, feedback: Types.Feedback, now: Duration)
    | Update(cfg: Config, now: Duration)

  // `budget` is the capacity at birth plus every later increase; `spent` the permits finalised as
  // sent; `deadlines` the backoff deadlines applied to the bucket.
  datatype Life = Life(born: Duration, budget: nat, spent: seq<Permit>, deadlines: seq<Duration>)

  datatype World = World(
    lim: Limiter,
    ledger: seq<Permit>,
    lives: map<Key, Life>,
    globalDeadlines: seq<Duration>,
    clock: Duration)

  function Start(cfg: Config, startedAt: Duration): World {
    World(New(cfg, startedAt), [], map[], [], 0)
  }

  function NewLife(now: Duration, algo: Algorithm): Life {
    Life(now, if algo.TokenBucket? then algo.capacity else 0, [], [])
  }

  function Tracked(lives: map<Key, Life>, lim: Limiter, now: Duration): map<Key, Life> {
    map k | k in lim.buckets :: if k in lives then lives[k] else NewLife(now, lim.cfg.algorithm)
  }

  function FinishLife(life: Life, p: Permit, outcome: Outcome, now: Duration): Life {
    var life := if outcome.NotSent? then life else life.(spent := life.spent + [p]);
    if outcome.RateLimitedFeedback? && outcome.scope.PerKey?
    then life.(deadlines := life.deadlines + [Later(now, outcome.retryAfter)]) else life
  }

  function BlockLife(life: Life, until: Duration): Life { life.(deadlines := life.deadlines + [until]) }

  // A change of algorithm starts the accounting afresh; an increase of the capacity is granted at once.
  function UpdateLife(life: Life, before: Algorithm, after: Algorithm, now: Duration): Life {
    if !SameKind(before, after) then NewLife(now, after).(deadlines := life.deadlines)
    else if after.TokenBucket? then life.(budget := life.budget + SatSub(after.capacity, before.capacity))
    else life
  }

  function Step(w: World, op: Op): World {
    match op
    case Acquire(route, cost, now) =>
      var (lim, attempt) := TryAcquire(w.lim, route, cost, now);
      World(lim, if attempt.Granted? then w.ledger + [attempt.permit] else w.ledger,
            Tracked(w.lives, lim, now), w.globalDeadlines, now)
    case Commit(p, outcome, now) =>
      World(CommitPermit(w.lim, p, outcome, now), RemoveOne(w.ledger, p),
            if p.key in w.lives then w.lives[p.key := FinishLife(w.lives[p.key], p, outcome, now)] else w.lives,
            if outcome.RateLimitedFeedback? && outcome.scope.Global?
            then w.globalDeadlines + [Later(now, outcome.retryAfter)] else w.globalDeadlines,
            now)
    case Refund(p, now) =>
      World(RefundPermit(w.lim, p, now), RemoveOne(w.ledger, p), w.lives, w.globalDeadlines, now)
    case Feedback(route, feedback, now) =>
      var lim := ApplyFeedback(w.lim, route, feedback, now);
      var until := Later(now, Backoff(feedback));
      var key := Resolve(lim, route);
      var lives := Tracked(w.lives, lim, now);
      if feedback.scope.GlobalFeedback? then World(lim, w.ledger, lives, w.globalDeadlines + [until], now)
      else World(lim, w.ledger, if key in lives then lives[key := BlockLife(lives[key], until)] else lives,
                 w.globalDeadlines, now)
    case Update(cfg, now) =>
      var (lim, error) := UpdateConfig(w.lim, cfg, now);
      World(lim, w.ledger,
            if error.Some? then w.lives
            else map k | k in w.lives :: UpdateLife(w.lives[k], w.lim.cfg.algorithm, cfg.algorithm, now),
            w.globalDeadlines, now)
  }

  // What a caller can do: it finalises only permits it holds, and (the counter being 64 bits wide)
  // it never holds token permits of one bucket worth 2^64 or more.
  predicate Legal(w: World, op: Op) {
    match op
    case Acquire(route, cost, _) =>
      w.lim.cfg.algorithm.TokenBucket? ==> TotalCost(Of(w.ledger, Resolve(w.lim, route))) + cost <= U64_MAX
    case Commit(p, _, _) => p in w.ledger
    case Refund(p, _) => p in w.ledger
    case _ => true
  }

  function Run(w: World, ops: seq<Op>): World
    decreases |ops|
  {
    if ops == [] then w else Run(Step(w, ops[0]), ops[1..])
  }

  // Every operation of the run is legal and meets the condition `c` where it happens.
  ghost predicate Along(w: World, ops: seq<Op>, c: (World, Op) -> bool)
    decreases |ops|
  {
    ops == [] || (Legal(w, ops[0]) && c(w, ops[0]) && Along(Step(w, ops[0]), ops[1..], c))
  }

  lemma {:induction false} RunAppend(w: World, ops: seq<Op>, op: Op, c: (World, Op) -> bool)
    ensures Run(w, ops + [op]) == Step(Run(w, ops), op)
    ensures Along(w, ops + [op], c) <==> Along(w, ops, c) && Legal(Run(w, ops), op) && c(Run(w, ops), op)
    decreases |ops|
  {
    hide Step, Legal;
    if ops == [] {
      assert (ops + [op])[1..] == [];
    } else {
      RunAppend(Step(w, ops[0]), ops[1..], op, c);
      assert (ops + [op])[1..] == ops[1..] + [op];
    }
  }

  // ----- one bucket of a run -----

  datatype Cell = Cell(b: Bucket, outs: seq<Permit>, life: Life)

  datatype Event =
    | Quiet
    | Taking(algo: Algorithm, cost: Cost, now: Duration)
    | Committing(p: Permit, outcome: Outcome, algo: Algorithm, now: Duration)
    | Refunding(p: Permit, algo: Algorithm, now: Duration)
    | Blocking(until: Duration)
    | Updating(before: Algorithm, after: Algorithm, now: Duration)

  function NewCell(now: Duration, algo: Algorithm): Cell { Cell(NewBucket(now, algo), [], NewLife(now, algo)) }

  function CellStep(c: Cell, key: Key, e: Event): Cell {
    match e
    case Quiet => c
    case Taking(algo, cost, now) =>
      var (b, attempt) := Reserve(c.b, key, algo, cost, now);
      Cell(b, if attempt.Granted? then c.outs + [attempt.permit] else c.outs, c.life)
    case Committing(p, outcome, algo, now) =>
      Cell(Buckets.Commit(c.b, p, outcome, now, algo), RemoveOne(c.outs, p), FinishLife(c.life, p, outcome, now))
    case Refunding(p, algo, now) =>
      Cell(Buckets.Refund(c.b, p, now, algo), RemoveOne(c.outs, p), c.life)
    case Blocking(until) => Cell(BlockUntil(c.b, until), c.outs, BlockLife(c.life, until))
    case Updating(before, after, now) =>
      Cell(OnUpdate(c.b, before, after, now), c.outs, UpdateLife(c.life, before, after, now))
  }

  // The acquire gets past the global block, slow start and the key table.
  predicate PassesGates(l: Limiter, key: Key, cost: Cost, now: Duration) {
    && !(l.globalBlockedUntil.Some? && now < l.globalBlockedUntil.value)
    && SlowStartPreDeny(l.cfg, l.startedAt, cost, now).None?
    && EnsureCapacity(l, key).Some?
  }

  function EventFor(w: World, op: Op, key: Key): Event {
    var algo := w.lim.cfg.algorithm;
    match op
    case Acquire(route, cost, now) =>
      if key == Resolve(w.lim, route) && PassesGates(w.lim, key, cost, now)
      then Taking(EffectiveAlgorithm(w.lim.cfg, w.lim.startedAt, now), cost, now) else Quiet
    case Commit(p, outcome, now) => if key == p.key then Committing(p, outcome, algo, now) else Quiet
    case Refund(p, now) => if key == p.key then Refunding(p, algo, now) else Quiet
    case Feedback(route, feedback, now) =>
      if !feedback.scope.GlobalFeedback? && key == Resolve(Remapped(w.lim, route, feedback), route)
      then Blocking(Later(now, Backoff(feedback))) else Quiet
    case Update(cfg, now) =>
      if UpdateConfig(w.lim, cfg, now).1.None? then Updating(algo, cfg.algorithm, now) else Quiet
  }

  function CellOf(w: World, key: Key): Cell
    requires key in w.lim.buckets && key in w.lives
  {
    Cell(w.lim.buckets[key], Of(w.ledger, key), w.lives[key])
  }

  function CellBefore(w: World, op: Op, key: Key): Cell
    requires key in w.lim.buckets ==> key in w.lives
  {
    if key in w.lim.buckets then CellOf(w, key) else NewCell(op.now, w.lim.cfg.algorithm)
  }

  // The key table and the history agree on what is tracked, and nothing outstanding is untracked.
  ghost predicate Consistent(w: World) {
    && w.lives.Keys == w.lim.buckets.Keys
    && TableOk(w.lim)
    && (forall p :: p in w.ledger ==> p.key in w.lim.buckets)
  }

  lemma ReserveIssues(b: Bucket, key: Key, algo: Algorithm, cost: Cost, now: Duration)
    ensures var a := Reserve(b, key, algo, cost, now).1;
            a.Granted? ==> a.permit.key == key && a.permit.cost == cost && a.permit.issuedAt == now
  {
  }

  lemma NewKeyHoldsNothing(w: World, key: Key)
    requires Consistent(w) && key !in w.lim.buckets
    ensures Of(w.ledger, key) == []
  {
    NoneOf(w.ledger, key);
  }

  // An acquire that gets past the gates changes the bucket it resolves to, in a table with room.
  lemma TryAcquireShape(l: Limiter, route: Key, cost: Cost, now: Duration)
    ensures var key := Resolve(l, route);
            var (lim, attempt) := TryAcquire(l, route, cost, now);
            if PassesGates(l, key, cost, now) then
              var room := Insert(EnsureCapacity(l, key).value, key, now);
              var (b, a) := Reserve(room.buckets[key], key, EffectiveAlgorithm(l.cfg, l.startedAt, now), cost, now);
              && lim == room.(buckets := room.buckets[key := b]) && attempt == a
              && (a.Granted? ==> a.permit.key == key && a.permit.cost == cost && a.permit.issuedAt == now)
            else lim == l && attempt.Denied?
  {
    hide Reserve, SlowStartPreDeny, EffectiveAlgorithm, FirstEvictable;
    var key := Resolve(l, route);
    if PassesGates(l, key, cost, now) {
      var room := Insert(EnsureCapacity(l, key).value, key, now);
      ReserveIssues(room.buckets[key], key, EffectiveAlgorithm(l.cfg, l.startedAt, now), cost, now);
    }
  }

  lemma RoomKeepsOthers(l: Limiter, key: Key, now: Duration, other: Key)
    requires EnsureCapacity(l, key).Some?
    ensures var room := Insert(EnsureCapacity(l, key).value, key, now);
            && key in room.buckets
            && room == l.(fifo := room.fifo, buckets := room.buckets)
            && room.buckets[key] == (if key in l.buckets then l.buckets[key] else NewBucket(now, l.cfg.algorithm))
            && (other in room.buckets && other != key ==> other in l.buckets && room.buckets[other] == l.buckets[other])
  {
  }

  lemma AcquireCell(w: World, op: Op, key: Key)
    requires Consistent(w) && op.Acquire? && key in Step(w, op).lim.buckets
    ensures key in Step(w, op).lives
    ensures CellOf(Step(w, op), key) == CellStep(CellBefore(w, op, key), key, EventFor(w, op, key))
  {
    hide Reserve, SlowStartPreDeny, EffectiveAlgorithm, EnsureCapacity, TryAcquire, Insert, NewBucket;
    if key !in w.lim.buckets { NewKeyHoldsNothing(w, key); }
    var target := Resolve(w.lim, op.route);
    var attempt := TryAcquire(w.lim, op.route, op.cost, op.now).1;
    TryAcquireShape(w.lim, op.route, op.cost, op.now);
    if PassesGates(w.lim, target, op.cost, op.now) {
      assert EnsureCapacity(w.lim, target).Some?;
      RoomKeepsOthers(w.lim, target, op.now, key);
    }
    if attempt.Granted? {
      AppendOf(w.ledger, attempt.permit, key);
    }
  }

  lemma FeedbackShape(l: Limiter, route: Key, feedback: Types.Feedback, now: Duration)
    ensures var remapped := Remapped(l, route, feedback);
            var key := Resolve(remapped, route);
            var until := Later(now, Backoff(feedback));
            var lim := ApplyFeedback(l, route, feedback, now);
            && Resolve(lim, route) == key
            && (key in l.buckets ==> EnsureCapacity(remapped, key).Some?)
            && lim == if feedback.scope.GlobalFeedback? then
                        remapped.(globalBlockedUntil := LaterBlock(remapped.globalBlockedUntil, until))
                      else if EnsureCapacity(remapped, key).None? then remapped
                      else
                        var room := Insert(EnsureCapacity(remapped, key).value, key, now);
                        room.(buckets := room.buckets[key := BlockUntil(room.buckets[key], until)])
  {
    hide FirstEvictable, NewBucket, Later, Backoff, BlockUntil;
  }

  lemma FeedbackCell(w: World, op: Op, key: Key)
    requires Consistent(w) && op.Feedback? && key in Step(w, op).lim.buckets
    ensures key in Step(w, op).lives
    ensures CellOf(Step(w, op), key) == CellStep(CellBefore(w, op, key), key, EventFor(w, op, key))
  {
    hide EnsureCapacity, Insert, NewBucket, Backoff, Later, BlockUntil, ApplyFeedback, TableOk, TryAcquire,
         CommitPermit, RefundPermit, UpdateConfig, FinishLife, UpdateLife, RemoveOne, PassesGates,
         LaterBlock, BlockLife;
    if key !in w.lim.buckets { NewKeyHoldsNothing(w, key); }
    FeedbackShape(w.lim, op.route, op.feedback, op.now);
    var l := Remapped(w.lim, op.route, op.feedback);
    var target := Resolve(l, op.route);
    if EnsureCapacity(l, target).Some? {
      RoomKeepsOthers(l, target, op.now, key);
    }
  }

  lemma CommitCell(w: World, op: Op, key: Key)
    requires Consistent(w) && op.Commit? && key in Step(w, op).lim.buckets
    ensures key in Step(w, op).lives
    ensures CellOf(Step(w, op), key) == CellStep(CellBefore(w, op, key), key, EventFor(w, op, key))
  {
    hide Buckets.Commit, FinishLife, NewCell, TryAcquire, RefundPermit, ApplyFeedback, UpdateConfig, PassesGates,
         LaterBlock;
    RemovedOf(w.ledger, op.permit, key);
  }

  lemma RefundCell(w: World, op: Op, key: Key)
    requires Consistent(w) && op.Refund? && key in Step(w, op).lim.buckets
    ensures key in Step(w, op).lives
    ensures CellOf(Step(w, op), key) == CellStep(CellBefore(w, op, key), key, EventFor(w, op, key))
  {
    hide Buckets.Refund, NewCell, TryAcquire, CommitPermit, ApplyFeedback, UpdateConfig, PassesGates;
    RemovedOf(w.ledger, op.permit, key);
  }

  lemma UpdateCell(w: World, op: Op, key: Key)
    requires Consistent(w) && op.Update? && key in Step(w, op).lim.buckets
    ensures key in Step(w, op).lives
    ensures CellOf(Step(w, op), key) == CellStep(CellBefore(w, op, key), key, EventFor(w, op, key))
  {
    hide OnUpdate, UpdateLife, AnyOutstanding, NewCell, NeedsNoOutstanding;
  }

  // Each operation changes each bucket of the next world by its own event and by nothing else;
  // a bucket that is new starts from a new cell.
  lemma StepCell(w: World, op: Op, key: Key)
    requires Consistent(w) && key in Step(w, op).lim.buckets
    ensures key in Step(w, op).lives
    ensures CellOf(Step(w, op), key) == CellStep(CellBefore(w, op, key), key, EventFor(w, op, key))
  {
    hide *;
    match op
    case Acquire(_, _, _) => AcquireCell(w, op, key);
    case Commit(_, _, _) => CommitCell(w, op, key);
    case Refund(_, _) => RefundCell(w, op, key);
    case Feedback(_, _, _) => FeedbackCell(w, op, key);
    case Update(_, _) => UpdateCell(w, op, key);
  }
}

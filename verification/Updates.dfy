// What a configuration update answers and does, at any point of any run, in terms of the permits the
// callers hold.
module Updates {
  import opened Machine
  import opened TokenBucket
  import opened Types
  import opened Buckets
  import opened Limiters
  import opened Ledgers
  import opened KeyTable
  import opened Worlds
  import opened Accounting
  import opened Clocks
  import opened Windows

  lemma OutstandingIffLedger(w: World)
    requires Accounted(w)
    ensures AnyOutstanding(w.lim) <==> w.ledger != []
  {
    hide TableOk, CellOk, HasOutstanding;
    forall k | k in w.lim.buckets ensures HasOutstanding(w.lim.buckets[k]) <==> Of(w.ledger, k) != [] {
      OutstandingIffHeld(CellOf(w, k), w.lim.cfg.algorithm);
    }
    if w.ledger != [] {
      var p := w.ledger[0];
      assert p in Of(w.ledger, p.key);
      assert HasOutstanding(w.lim.buckets[p.key]);
    } else {
      assert forall k :: Of(w.ledger, k) == [];
    }
  }

  // The update is refused for a change of kind, or of the length of the windows, exactly while any
  // permit is outstanding; a refusal changes nothing, and else the new configuration is in force.
  predicate AnswersUpdate(w: World, cfg: Config, now: Duration) {
    var before, after := w.lim.cfg.algorithm, cfg.algorithm;
    var (l, error) := UpdateConfig(w.lim, cfg, now);
    && (error == Some(AlgorithmChanged) <==> before.FixedWindow? != after.FixedWindow? && w.ledger != [])
    && (error == Some(WindowChanged) <==>
          before.FixedWindow? && after.FixedWindow? && before.window != after.window && w.ledger != [])
    && (if error.Some? then l == w.lim else l == w.lim.(cfg := cfg, buckets := l.buckets))
    && l.buckets.Keys == w.lim.buckets.Keys
  }

  lemma UpdateIsAnswered(w: World, cfg: Config, now: Duration)
    requires Accounted(w)
    ensures AnswersUpdate(w, cfg, now)
  {
    hide TableOk, CellOk, OnUpdate, AnyOutstanding;
    OutstandingIffLedger(w);
  }

  lemma UpdateReplies(cfg: Config, startedAt: Duration, ops: seq<Op>, c: (World, Op) -> bool,
                      next: Config, now: Duration)
    requires Along(Start(cfg, startedAt), ops, c)
    ensures AnswersUpdate(Run(Start(cfg, startedAt), ops), next, now)
  {
    hide Along, Run, Start, AnswersUpdate;
    StartAccounted(cfg, startedAt);
    RunAccounted(Start(cfg, startedAt), ops, c);
    UpdateIsAnswered(Run(Start(cfg, startedAt), ops), next, now);
  }

  // ----- what it does to a bucket -----

  // A pool is brought current at the old rate; then an increase of the capacity is granted at once and
  // a decrease clamps.
  predicate PoolUpdated(t: Tokens, t': Tokens, before: Algorithm, after: Algorithm, now: Duration)
    requires before.TokenBucket? && after.TokenBucket? && t.lastUpdate <= now
  {
    var current := Min(t.credits + Earned(before.refillPerSec, now - t.lastUpdate), before.capacity);
    && t'.lastUpdate == now && t'.inFlight == t.inFlight
    && t'.credits == if after.capacity >= before.capacity then current + (after.capacity - before.capacity)
                     else Min(current, after.capacity)
  }

  predicate FreshWindow(s: AlgoState, window: Window, now: Duration) {
    && s.FixedState? && s.f.reserved == 0 && s.f.spent == 0
    && Aligned(s.f.windowStart, window) && s.f.windowStart <= now < s.f.windowStart + window
  }

  // A window of the same length stays as it is, a window of another length starts afresh, and so does
  // a bucket whose kind changes. A backoff still in force stays, one that is past is cleared.
  predicate BucketUpdated(b: Bucket, b': Bucket, before: Algorithm, after: Algorithm, now: Duration) {
    && b'.blockedUntil == (if b.blockedUntil.Some? && b.blockedUntil.value > now then b.blockedUntil else None)
    && match (before, after)
       case (FixedWindow(_, w), FixedWindow(_, w')) =>
         if w == w' then b'.algo == b.algo else FreshWindow(b'.algo, w', now)
       case (TokenBucket(_, _), TokenBucket(_, _)) =>
         && b.algo.TokenState? && b'.algo.TokenState? && b.algo.t.lastUpdate <= now
         && PoolUpdated(b.algo.t, b'.algo.t, before, after, now)
       case (_, FixedWindow(_, w')) => FreshWindow(b'.algo, w', now)
       case (_, TokenBucket(capacity, _)) => b'.algo == TokenState(Tokens(now, capacity, 0))
  }

  lemma PoolIsUpdated(t: Tokens, before: Algorithm, after: Algorithm, now: Duration)
    requires before.TokenBucket? && after.TokenBucket? && t.lastUpdate <= now && t.credits <= before.capacity
    ensures PoolUpdated(t, ChangeCapacity(Refill(t, before.capacity, before.refillPerSec, now),
                                          before.capacity, after.capacity), before, after, now)
  {
    hide Refill, Earned;
    if now > t.lastUpdate {
      RefillExact(t, before.capacity, before.refillPerSec, now);
    } else {
      assert Earned(before.refillPerSec, 0) == 0 by { EarnedInNoTime(before.refillPerSec); }
      assert Refill(t, before.capacity, before.refillPerSec, now) == t by { RefillAtOnce(t, before); }
    }
  }

  lemma RefillAtOnce(t: Tokens, algo: Algorithm)
    requires algo.TokenBucket?
    ensures Refill(t, algo.capacity, algo.refillPerSec, t.lastUpdate) == t
  {
  }

  lemma CellIsUpdated(c: Cell, before: Algorithm, after: Algorithm, clock: Duration, now: Duration)
    requires CellOk(c, before) && TimeOk(c, clock) && clock <= now
    requires NeedsNoOutstanding(before, after).Some? ==> c.outs == []
    ensures BucketUpdated(c.b, OnUpdate(c.b, before, after, now), before, after, now)
  {
    hide Refill, ChangeCapacity, Earned, PoolUpdated;
    NoCostNoPermit(c.outs);
    if before.TokenBucket? && after.TokenBucket? {
      PoolIsUpdated(c.b.algo.t, before, after, now);
    }
  }

  lemma UpdateReaches(w: World, cfg: Config, now: Duration, key: Key)
    requires TimesOk(w) && w.clock <= now && key in w.lim.buckets && UpdateConfig(w.lim, cfg, now).1.None?
    ensures var l := UpdateConfig(w.lim, cfg, now).0;
            && key in l.buckets
            && BucketUpdated(w.lim.buckets[key], l.buckets[key], w.lim.cfg.algorithm, cfg.algorithm, now)
  {
    hide TableOk, CellOk, OnUpdate, AnyOutstanding, BucketUpdated, TimeOk, HasOutstanding;
    OutstandingIffLedger(w);
    var c := CellOf(w, key);
    assert CellOk(c, w.lim.cfg.algorithm) && TimeOk(c, w.clock);
    if w.ledger == [] { assert c.outs == []; }
    CellIsUpdated(c, w.lim.cfg.algorithm, cfg.algorithm, w.clock, now);
  }

  // In every run with a clock that does not go back, an accepted update leaves every bucket so.
  lemma UpdateTakesEffect(cfg: Config, startedAt: Duration, ops: seq<Op>, c: (World, Op) -> bool,
                          next: Config, now: Duration, key: Key)
    requires Along(Start(cfg, startedAt), ops, c)
    requires forall w, op :: c(w, op) ==> w.clock <= op.now
    requires var w := Run(Start(cfg, startedAt), ops);
             w.clock <= now && key in w.lim.buckets && UpdateConfig(w.lim, next, now).1.None?
    ensures var w := Run(Start(cfg, startedAt), ops);
            var l := Step(w, Update(next, now)).lim;
            && key in l.buckets
            && BucketUpdated(w.lim.buckets[key], l.buckets[key], w.lim.cfg.algorithm, next.algorithm, now)
  {
    hide Along, Run, Start, BucketUpdated, TimesOk, UpdateConfig;
    StartIsTimely(cfg, startedAt);
    RunKeepsTimes(Start(cfg, startedAt), ops, c);
    UpdateReaches(Run(Start(cfg, startedAt), ops), next, now, key);
  }
}

// Finalising a set of outstanding permits at one instant gives the same state in every order.
module FinishOrder {
  import opened Machine
  import opened TokenBucket
  import opened Types
  import opened Buckets
  import opened Ledgers
  import opened Limiters
  import Worlds
  import A = Accounting

  datatype Final = Committing(p: Permit, outcome: Outcome) | Refunding(p: Permit)

  function Finish(b: Bucket, x: Final, now: Duration, algo: Algorithm): Bucket {
    match x
    case Committing(p, outcome) => Commit(b, p, outcome, now, algo)
    case Refunding(p) => Refund(b, p, now, algo)
  }

  function FinishAll(b: Bucket, xs: seq<Final>, now: Duration, algo: Algorithm): Bucket
    decreases |xs|
  {
    if xs == [] then b else FinishAll(Finish(b, xs[0], now, algo), xs[1..], now, algo)
  }

  // ----- totals that do not depend on the order -----

  function Total(xs: seq<Final>, g: Final -> nat): nat { if xs == [] then 0 else g(xs[0]) + Total(xs[1..], g) }

  function Greatest(xs: seq<Final>, g: Final -> nat): nat {
    if xs == [] then 0 else Max(g(xs[0]), Greatest(xs[1..], g))
  }

  lemma {:induction false} TakeOut(xs: seq<Final>, i: nat, g: Final -> nat)
    requires i < |xs|
    ensures var rest := xs[..i] + xs[i + 1..];
            && Total(xs, g) == g(xs[i]) + Total(rest, g)
            && Greatest(xs, g) == Max(g(xs[i]), Greatest(rest, g))
            && multiset(xs) == multiset{xs[i]} + multiset(rest)
  {
    var rest := xs[..i] + xs[i + 1..];
    assert xs == xs[..i] + [xs[i]] + xs[i + 1..];
    if i == 0 {
      assert rest == xs[1..];
    } else {
      TakeOut(xs[1..], i - 1, g);
      assert rest[1..] == xs[1..][..i - 1] + xs[1..][i..];
      assert rest[0] == xs[0];
    }
  }

  lemma {:induction false} OrderFree(xs: seq<Final>, ys: seq<Final>, g: Final -> nat)
    requires multiset(xs) == multiset(ys)
    ensures Total(xs, g) == Total(ys, g) && Greatest(xs, g) == Greatest(ys, g)
    decreases |xs|
  {
    if xs == [] {
      assert |multiset(ys)| == 0;
    } else {
      var i := Matching(xs, ys);
      hide Total, Greatest;
      TakeOut(xs, 0, g);
      TakeOut(ys, i, g);
      assert xs[..0] + xs[1..] == xs[1..];
      OrderFree(xs[1..], ys[..i] + ys[i + 1..], g);
    }
  }

  lemma Matching(xs: seq<Final>, ys: seq<Final>) returns (i: nat)
    requires xs != [] && multiset(xs) == multiset(ys)
    ensures i < |ys| && ys[i] == xs[0] && multiset(xs[1..]) == multiset(ys[..i] + ys[i + 1..])
  {
    assert xs[0] in multiset(ys);
    i :| 0 <= i < |ys| && ys[i] == xs[0];
    assert xs == [xs[0]] + xs[1..];
    assert ys == ys[..i] + [ys[i]] + ys[i + 1..];
    assert multiset(xs[1..]) == multiset(xs) - multiset{xs[0]};
  }

  function CostOf(x: Final): nat { x.p.cost }

  predicate Returned(x: Final) { x.Refunding? || x.outcome.NotSent? }

  function SpentBy(x: Final): nat { if Returned(x) then 0 else x.p.cost }

  function ReturnedBy(x: Final): nat { if Returned(x) then x.p.cost else 0 }

  // How far past `now` the outcome asks the bucket to be blocked.
  function AskedBy(now: Duration): Final -> nat {
    (x: Final) =>
      if x.Committing? && x.outcome.RateLimitedFeedback? && x.outcome.scope.PerKey?
      then Later(now, x.outcome.retryAfter) - now else 0
  }

  // How long the bucket stays blocked.
  function Wall(b: Bucket, now: Duration): nat {
    if b.blockedUntil.Some? then SatSub(b.blockedUntil.value, now) else 0
  }

  // ----- the permits are outstanding in the bucket -----

  predicate Holds(b: Bucket, xs: seq<Final>, algo: Algorithm) {
    match (b.algo, algo)
    case (FixedState(f), FixedWindow(_, _)) =>
      && (forall x :: x in xs ==> x.p.meta == WindowPermit(f.windowStart))
      && Total(xs, CostOf) <= f.reserved && f.reserved + f.spent <= U32_MAX
    case (TokenState(t), TokenBucket(capacity, _)) =>
      && (forall x :: x in xs ==> x.p.meta == TokenPermit)
      && Total(xs, CostOf) <= t.inFlight && t.credits <= capacity && capacity + U32_MAX <= U64_MAX
    case _ => false
  }

  // The state after any order.
  function AfterAll(s: AlgoState, spent: nat, returned: nat, now: Duration, algo: Algorithm): AlgoState
    requires match (s, algo)
             case (FixedState(f), FixedWindow(_, _)) =>
               spent + returned <= f.reserved && f.reserved + f.spent <= U32_MAX
             case (TokenState(t), TokenBucket(_, _)) => spent + returned <= t.inFlight
             case _ => false
  {
    match s
    case FixedState(f) => FixedState(Fixed(f.windowStart, f.reserved - spent - returned, f.spent + spent))
    case TokenState(t) =>
      var t0 := if returned == 0 then t else Refill(t, algo.capacity, algo.refillPerSec, now);
      TokenState(Tokens(t0.lastUpdate, if returned == 0 then t.credits else Min(t0.credits + returned, algo.capacity),
                        t.inFlight - spent - returned))
  }

  lemma {:induction false} TotalSplits(xs: seq<Final>)
    ensures Total(xs, CostOf) == Total(xs, SpentBy) + Total(xs, ReturnedBy)
  {
    if xs != [] {
      TotalSplits(xs[1..]);
    }
  }

  lemma FinishFixed(b: Bucket, x: Final, now: Duration, algo: Algorithm)
    requires Holds(b, [x], algo) && b.algo.FixedState?
    ensures var b' := Finish(b, x, now, algo);
            && b'.algo == AfterAll(b.algo, SpentBy(x), ReturnedBy(x), now, algo)
            && Wall(b', now) == Max(Wall(b, now), AskedBy(now)(x))
  {
    hide Refill;
    assert x in [x];
    assert Total([x], CostOf) == CostOf(x);
  }

  lemma FinishTokens(b: Bucket, x: Final, now: Duration, algo: Algorithm)
    requires Holds(b, [x], algo) && b.algo.TokenState?
    ensures var b' := Finish(b, x, now, algo);
            && b'.algo == AfterAll(b.algo, SpentBy(x), ReturnedBy(x), now, algo)
            && b'.algo.t.credits <= algo.capacity
            && Wall(b', now) == Max(Wall(b, now), AskedBy(now)(x))
  {
    hide Refill, RefundTokens;
    assert x in [x];
    assert Total([x], CostOf) == CostOf(x);
    RefundExact(b.algo.t, algo.capacity, algo.refillPerSec, x.p.cost, now);
    RefillBelow(b.algo.t, algo.capacity, algo.refillPerSec, now);
  }

  lemma RefundExact(t: Tokens, capacity: u64, rate: u64, cost: Cost, now: Duration)
    requires t.credits <= capacity && capacity + U32_MAX <= U64_MAX
    ensures var t0 := Refill(t, capacity, rate, now);
            RefundTokens(t, capacity, cost, now, rate) ==
            Tokens(t0.lastUpdate, Min(t0.credits + cost, capacity), SatSub(t.inFlight, cost))
  {
    RefillBelow(t, capacity, rate, now);
    hide Refill;
  }

  lemma RefillBelow(t: Tokens, capacity: u64, rate: u64, now: Duration)
    requires t.credits <= capacity
    ensures Refill(t, capacity, rate, now).credits <= capacity
    ensures Refill(t, capacity, rate, now).inFlight == t.inFlight
  {
  }

  lemma HoldsHead(b: Bucket, xs: seq<Final>, algo: Algorithm)
    requires xs != [] && Holds(b, xs, algo)
    ensures Holds(b, [xs[0]], algo)
  {
    assert Total([xs[0]], CostOf) == CostOf(xs[0]) + Total([xs[0]][1..], CostOf);
  }

  lemma HoldsTail(b: Bucket, b': Bucket, xs: seq<Final>, now: Duration, algo: Algorithm)
    requires xs != [] && Holds(b, xs, algo) && Holds(b, [xs[0]], algo)
    requires b'.algo == AfterAll(b.algo, SpentBy(xs[0]), ReturnedBy(xs[0]), now, algo)
    requires b'.algo.TokenState? ==> b'.algo.t.credits <= algo.capacity
    ensures Holds(b', xs[1..], algo)
  {
    hide Refill;
  }

  lemma {:induction false} FinishAllClosed(b: Bucket, xs: seq<Final>, now: Duration, algo: Algorithm)
    requires Holds(b, xs, algo)
    ensures var b' := FinishAll(b, xs, now, algo);
            && (TotalSplits(xs); b'.algo == AfterAll(b.algo, Total(xs, SpentBy), Total(xs, ReturnedBy), now, algo))
            && Wall(b', now) == Max(Wall(b, now), Greatest(xs, AskedBy(now)))
    decreases |xs|
  {
    TotalSplits(xs);
    if xs != [] {
      hide Finish, Wall, AskedBy;
      HoldsHead(b, xs, algo);
      if b.algo.FixedState? { FinishFixed(b, xs[0], now, algo); } else { FinishTokens(b, xs[0], now, algo); }
      var b1 := Finish(b, xs[0], now, algo);
      HoldsTail(b, b1, xs, now, algo);
      TotalSplits(xs[1..]);
      FinishAllClosed(b1, xs[1..], now, algo);
    }
  }

  // The same set of finalisations in two orders: the same spent and reserved, or credits and
  // in-flight, and the same remaining backoff.
  lemma OrderDoesNotMatter(b: Bucket, xs: seq<Final>, ys: seq<Final>, now: Duration, algo: Algorithm)
    requires Holds(b, xs, algo) && multiset(xs) == multiset(ys)
    ensures var mine, theirs := FinishAll(b, xs, now, algo), FinishAll(b, ys, now, algo);
            mine.algo == theirs.algo && Wall(mine, now) == Wall(theirs, now)
  {
    forall y | y in ys ensures y in xs { assert y in multiset(ys); }
    OrderFree(xs, ys, CostOf);
    OrderFree(xs, ys, SpentBy);
    OrderFree(xs, ys, ReturnedBy);
    OrderFree(xs, ys, AskedBy(now));
    hide FinishAll, AfterAll, Wall;
    FinishAllClosed(b, xs, now, algo);
    FinishAllClosed(b, ys, now, algo);
  }

  // ----- the permits of a run -----

  function Permits(xs: seq<Final>): seq<Permit> { if xs == [] then [] else [xs[0].p] + Permits(xs[1..]) }

  lemma {:induction false} RemovedBag(ps: seq<Permit>, p: Permit)
    requires p in ps
    ensures multiset(RemoveOne(ps, p)) == multiset(ps) - multiset{p}
  {
    assert ps == ps[..|ps| - 1] + [ps[|ps| - 1]];
    if ps[|ps| - 1] != p {
      RemovedBag(ps[..|ps| - 1], p);
    }
  }

  lemma {:induction false} HeldCost(outs: seq<Permit>, xs: seq<Final>)
    requires multiset(Permits(xs)) <= multiset(outs)
    ensures Total(xs, CostOf) <= Ledgers.TotalCost(outs)
    ensures forall x :: x in xs ==> x.p in outs
    decreases |xs|
  {
    if xs != [] {
      var p := xs[0].p;
      assert p in multiset(Permits(xs));
      RemovedBag(outs, p);
      Removed(outs, p);
      HeldCost(RemoveOne(outs, p), xs[1..]);
    }
  }

  // In every run, any of the permits outstanding against a bucket, finalised at one instant by a
  // caller that holds them, leave the same state in every order.
  lemma RunOrderDoesNotMatter(w: Worlds.World, key: Key, xs: seq<Final>, ys: seq<Final>, now: Duration)
    requires A.Accounted(w) && key in w.lim.buckets
    requires multiset(Permits(xs)) <= multiset(Of(w.ledger, key)) && multiset(xs) == multiset(ys)
    requires w.lim.cfg.algorithm.TokenBucket? ==> w.lim.cfg.algorithm.capacity + U32_MAX <= U64_MAX
    ensures var algo := w.lim.cfg.algorithm;
            var mine := FinishAll(w.lim.buckets[key], xs, now, algo);
            var theirs := FinishAll(w.lim.buckets[key], ys, now, algo);
            mine.algo == theirs.algo && Wall(mine, now) == Wall(theirs, now)
  {
    hide FinishAll, Wall;
    var c := Worlds.CellOf(w, key);
    assert A.CellOk(c, w.lim.cfg.algorithm);
    HeldCost(c.outs, xs);
    forall x | x in xs ensures A.PermitFits(c.b, x.p) {}
    OrderDoesNotMatter(c.b, xs, ys, now, w.lim.cfg.algorithm);
  }

  // ----- permits over several keys -----

  function FinishOne(l: Limiter, x: Final, now: Duration): Limiter {
    match x
    case Committing(p, outcome) => CommitPermit(l, p, outcome, now)
    case Refunding(p) => RefundPermit(l, p, now)
  }

  function FinishEach(l: Limiter, xs: seq<Final>, now: Duration): Limiter
    decreases |xs|
  {
    if xs == [] then l else FinishEach(FinishOne(l, xs[0], now), xs[1..], now)
  }

  // Those of one key, in order.
  function For(xs: seq<Final>, key: Key): seq<Final> {
    if xs == [] then []
    else if xs[0].p.key == key then [xs[0]] + For(xs[1..], key)
    else For(xs[1..], key)
  }

  // The deadline, shifted by one, that the outcome asks the whole limiter to be blocked until.
  function GloballyAskedBy(now: Duration): Final -> nat {
    (x: Final) =>
      if x.Committing? && x.outcome.RateLimitedFeedback? && x.outcome.scope.Global?
      then Later(now, x.outcome.retryAfter) + 1 else 0
  }

  function Shifted(block: Option<Duration>): nat { if block.Some? then block.value + 1 else 0 }

  // What finalising does to the limiter, bucket by bucket.
  lemma {:induction false} FinishEachClosed(l: Limiter, xs: seq<Final>, now: Duration, key: Key)
    ensures var l' := FinishEach(l, xs, now);
            && l' == l.(buckets := l'.buckets, globalBlockedUntil := l'.globalBlockedUntil)
            && l'.buckets.Keys == l.buckets.Keys
            && (key in l.buckets ==> l'.buckets[key] == FinishAll(l.buckets[key], For(xs, key), now, l.cfg.algorithm))
            && Shifted(l'.globalBlockedUntil) == Max(Shifted(l.globalBlockedUntil), Greatest(xs, GloballyAskedBy(now)))
    decreases |xs|
  {
    if xs != [] {
      var next := FinishOne(l, xs[0], now);
      OneFinish(l, xs[0], now, key);
      FinishEachClosed(next, xs[1..], now, key);
      hide FinishOne, Finish, Shifted, GloballyAskedBy;
      if xs[0].p.key == key {
        assert For(xs, key)[0] == xs[0] && For(xs, key)[1..] == For(xs[1..], key);
      }
    }
  }

  lemma OneFinish(l: Limiter, x: Final, now: Duration, key: Key)
    ensures var next := FinishOne(l, x, now);
            && next == l.(buckets := next.buckets, globalBlockedUntil := next.globalBlockedUntil)
            && next.buckets.Keys == l.buckets.Keys
            && (key in l.buckets ==>
                 var b := l.buckets[key];
                 next.buckets[key] == if x.p.key == key then Finish(b, x, now, l.cfg.algorithm) else b)
            && Shifted(next.globalBlockedUntil) == Max(Shifted(l.globalBlockedUntil), GloballyAskedBy(now)(x))
  {
    hide Commit, Refund;
  }

  lemma {:induction false} CountFor(xs: seq<Final>, key: Key, x: Final)
    ensures multiset(For(xs, key))[x] == if x.p.key == key then multiset(xs)[x] else 0
  {
    if xs != [] {
      CountFor(xs[1..], key, x);
      assert xs == [xs[0]] + xs[1..];
    }
  }

  lemma SamePermutation(xs: seq<Final>, ys: seq<Final>, key: Key)
    requires multiset(xs) == multiset(ys)
    ensures multiset(For(xs, key)) == multiset(For(ys, key))
  {
    forall x ensures multiset(For(xs, key))[x] == multiset(For(ys, key))[x] {
      CountFor(xs, key, x);
      CountFor(ys, key, x);
    }
  }

  lemma {:induction false} CountPermits(xs: seq<Final>, key: Key, p: Permit)
    ensures multiset(Permits(For(xs, key)))[p] == if p.key == key then multiset(Permits(xs))[p] else 0
  {
    if xs != [] {
      CountPermits(xs[1..], key, p);
      assert multiset(Permits(xs)) == multiset{xs[0].p} + multiset(Permits(xs[1..]));
      if xs[0].p.key == key {
        assert For(xs, key)[1..] == For(xs[1..], key);
        assert multiset(Permits(For(xs, key))) == multiset{xs[0].p} + multiset(Permits(For(xs[1..], key)));
      }
    }
  }

  lemma {:induction false} CountOf(ps: seq<Permit>, key: Key, p: Permit)
    ensures multiset(Of(ps, key))[p] == if p.key == key then multiset(ps)[p] else 0
  {
    if ps != [] {
      CountOf(ps[..|ps| - 1], key, p);
      assert ps == ps[..|ps| - 1] + [ps[|ps| - 1]];
    }
  }

  lemma HeldFor(ledger: seq<Permit>, xs: seq<Final>, key: Key)
    requires multiset(Permits(xs)) <= multiset(ledger)
    ensures multiset(Permits(For(xs, key))) <= multiset(Of(ledger, key))
  {
    forall p ensures multiset(Permits(For(xs, key)))[p] <= multiset(Of(ledger, key))[p] {
      CountPermits(xs, key, p);
      CountOf(ledger, key, p);
    }
  }

  // At any point of any run, any of the permits outstanding, of any keys, finalised at one instant:
  // every order leaves the same limiter, up to deadlines already past.
  lemma LimiterOrderDoesNotMatter(w: Worlds.World, xs: seq<Final>, ys: seq<Final>, now: Duration)
    requires A.Accounted(w) && multiset(Permits(xs)) <= multiset(w.ledger) && multiset(xs) == multiset(ys)
    requires w.lim.cfg.algorithm.TokenBucket? ==> w.lim.cfg.algorithm.capacity + U32_MAX <= U64_MAX
    ensures var mine, theirs := FinishEach(w.lim, xs, now), FinishEach(w.lim, ys, now);
            && mine == theirs.(buckets := mine.buckets)
            && mine.buckets.Keys == theirs.buckets.Keys
            && forall k :: k in mine.buckets ==>
                 mine.buckets[k].algo == theirs.buckets[k].algo
                 && Wall(mine.buckets[k], now) == Wall(theirs.buckets[k], now)
  {
    hide FinishEach, FinishAll, Wall, Permits, A.Accounted;
    var mine, theirs := FinishEach(w.lim, xs, now), FinishEach(w.lim, ys, now);
    FinishEachClosed(w.lim, xs, now, 0);
    FinishEachClosed(w.lim, ys, now, 0);
    OrderFree(xs, ys, GloballyAskedBy(now));
    forall k | k in mine.buckets
      ensures mine.buckets[k].algo == theirs.buckets[k].algo
      ensures Wall(mine.buckets[k], now) == Wall(theirs.buckets[k], now)
    {
      FinishEachClosed(w.lim, xs, now, k);
      FinishEachClosed(w.lim, ys, now, k);
      SamePermutation(xs, ys, k);
      HeldFor(w.ledger, xs, k);
      RunOrderDoesNotMatter(w, k, For(xs, k), For(ys, k), now);
    }
  }
}

// src/limiter.rs: the limiter object, which owns its buckets and updates them in place, proved
// against Limiter.dfy; and the in-flight helper of src/in_flight.rs that carries a permit.
module LimiterObject {
  import opened Machine
  import opened TokenBucket
  import opened Types
  import opened B = Buckets
  import opened BucketObjects
  import opened Limiters
  import InFlight

  class RateLimiter {
    var cfg: Config
    const startedAt: Duration
    var routes: map<Key, Key>
    var buckets: map<Key, BucketState>
    var fifo: seq<Key>
    var globalBlockedUntil: Option<Duration>
    ghost var Repr: set<object>

    // Each bucket and its inner state are owned by one key alone.
    ghost predicate Valid()
      reads this, Repr
    {
      && this in Repr
      && (forall k :: k in buckets ==> buckets[k] in Repr && buckets[k].Inner() in Repr && buckets[k].Inner() != this)
      && (forall k, k' :: k in buckets && k' in buckets && k != k' ==>
            buckets[k] != buckets[k'] && buckets[k].Inner() != buckets[k'].Inner())
    }

    ghost function BucketModels(): map<Key, Bucket>
      requires Valid()
      reads this, Repr
    {
      map k | k in buckets :: buckets[k].Model()
    }

    ghost function Model(): Limiter
      requires Valid()
      reads this, Repr
    {
      Limiter(cfg, startedAt, routes, BucketModels(), fifo, globalBlockedUntil)
    }

    constructor NewAt(cfg: Config, startedAt: Duration)
      ensures Valid() && fresh(Repr) && Model() == Limiters.New(cfg, startedAt)
    {
      this.cfg, this.startedAt := cfg, startedAt;
      routes, buckets, fifo, globalBlockedUntil := map[], map[], [], None;
      Repr := {this};
    }

    method TryAcquire(route: Key, cost: Cost, now: Duration) returns (a: Attempt)
      requires Valid()
      modifies Repr
      ensures Valid() && fresh(Repr - old(Repr))
      ensures (Model(), a) == Limiters.TryAcquire(old(Model()), route, cost, now)
    {
      hide Reserve, SlowStartPreDeny, EffectiveAlgorithm, FirstEvictable, NewBucket;
      var key := if route in routes then routes[route] else route;
      if globalBlockedUntil.Some? && now < globalBlockedUntil.value {
        return Denied(globalBlockedUntil.value - now, FeedbackBackoff);
      }
      var preDeny := SlowStartPreDeny(cfg, startedAt, cost, now);
      if preDeny.Some? {
        return Denied(preDeny.value, SlowStartRamp);
      }
      a := AcquireBucket(key, cost, now);
    }

    // The part of an acquire that touches the key table and the bucket.
    method AcquireBucket(key: Key, cost: Cost, now: Duration) returns (a: Attempt)
      requires Valid()
      modifies Repr
      ensures Valid() && fresh(Repr - old(Repr))
      ensures match EnsureCapacity(old(Model()), key)
              case None =>
                Model() == old(Model()) && a == Denied(RetryAfterOnNewKeyDeny(cfg.algorithm), KeyCardinalityBound)
              case Some(room) =>
                var l := Insert(room, key, now);
                && key in l.buckets
                && var effective := EffectiveAlgorithm(l.cfg, startedAt, now);
                   var (b, attempt) := Reserve(l.buckets[key], key, effective, cost, now);
                   a == attempt && Model() == l.(buckets := l.buckets[key := b])
    {
      hide Reserve, EffectiveAlgorithm, EnsureCapacity, Insert, RetryAfterOnNewKeyDeny, BucketModels;
      var room := EnsureBucketCapacity(key);
      if !room {
        return Denied(RetryAfterOnNewKeyDeny(cfg.algorithm), KeyCardinalityBound);
      }
      assert Model().cfg == old(Model()).cfg;
      ghost var owned := Repr;
      assert owned == old(Repr);
      InsertIfNew(key, now);
      assert fresh(Repr - old(Repr));
      SameKeys();
      a := ReserveIn(key, EffectiveAlgorithm(cfg, startedAt, now), cost, now);
    }

    // Makes room for `key`, evicting the first key in insertion order that holds no reservation.
    method EnsureBucketCapacity(key: Key) returns (ok: bool)
      requires Valid()
      modifies this`buckets, this`fifo
      ensures Valid()
      ensures ok == EnsureCapacity(old(Model()), key).Some?
      ensures Model() == if ok then EnsureCapacity(old(Model()), key).value else old(Model())
    {
      hide FirstEvictable, RemoveAt;
      SameSize();
      if key in buckets || cfg.maxKeys.None? || |buckets| < cfg.maxKeys.value {
        return true;
      }
      if cfg.overflowPolicy.DenyNewKey? {
        return false;
      }
      var evict := FindEvictable();
      if evict == |fifo| {
        return false;
      }
      Evict(evict);
      ok := true;
    }

    lemma SameSize()
      requires Valid()
      ensures |BucketModels()| == |buckets|
    {
      assert BucketModels().Keys == buckets.Keys;
      assert |BucketModels().Keys| == |buckets.Keys|;
    }

    method FindEvictable() returns (evict: nat)
      requires Valid()
      ensures evict == FirstEvictable(BucketModels(), fifo)
    {
      hide HasOutstanding;
      evict := |fifo|;
      for i := 0 to |fifo|
        invariant evict == |fifo|
        invariant forall j :: 0 <= j < i ==> fifo[j] in buckets && buckets[fifo[j]].Outstanding()
      {
        if fifo[i] !in buckets || !buckets[fifo[i]].Outstanding() {
          evict := i;
          break;
        }
      }
    }

    method Evict(i: nat)
      requires Valid() && i < |fifo|
      modifies this`buckets, this`fifo
      ensures Valid() && Model() == EvictAt(old(Model()), i)
    {
      var gone := fifo[i];
      buckets := buckets - {gone};
      fifo := RemoveAt(fifo, i);
      assert BucketModels() == old(BucketModels()) - {gone};
    }

    method InsertIfNew(key: Key, now: Duration)
      requires Valid()
      modifies this`buckets, this`fifo, this`Repr
      ensures Valid() && fresh(Repr - old(Repr)) && key in buckets
      ensures Model() == Insert(old(Model()), key, now)
    {
      hide NewBucket;
      if key !in buckets {
        var b := new BucketState(now, cfg.algorithm);
        fifo := fifo + [key];
        buckets := buckets[key := b];
        Repr := Repr + {b, b.Inner()};
        assert BucketModels() == old(Model()).buckets[key := NewBucket(now, cfg.algorithm)];
      }
    }

    method ReserveIn(key: Key, algorithm: Algorithm, cost: Cost, now: Duration) returns (a: Attempt)
      requires Valid() && key in buckets
      modifies buckets[key], buckets[key].Inner()
      ensures Valid() && Repr == old(Repr)
      ensures var (b, attempt) := Reserve(old(Model()).buckets[key], key, algorithm, cost, now);
              a == attempt && Model() == old(Model()).(buckets := old(Model()).buckets[key := b])
    {
      hide Reserve;
      var b := buckets[key];
      a := b.TryReserve(key, algorithm, cost, now);
      OthersKept(key);
      OneChanged(key);
    }

    method Commit(permit: Permit, outcome: Outcome, now: Duration)
      requires Valid()
      modifies Repr
      ensures Valid() && Repr == old(Repr)
      ensures Model() == CommitPermit(old(Model()), permit, outcome, now)
    {
      hide B.Commit, BucketModels;
      if outcome.RateLimitedFeedback? && outcome.scope.Global? {
        BlockGlobally(Later(now, outcome.retryAfter));
      }
      SameKeys();
      if permit.key in buckets {
        CommitIn(permit, outcome, now);
      }
    }

    lemma SameKeys()
      requires Valid()
      ensures BucketModels().Keys == buckets.Keys
    {
    }

    method CommitIn(permit: Permit, outcome: Outcome, now: Duration)
      requires Valid() && permit.key in buckets
      modifies buckets[permit.key], buckets[permit.key].Inner()
      ensures Valid() && Repr == old(Repr)
      ensures var bs := old(BucketModels());
              var b := B.Commit(bs[permit.key], permit, outcome, now, cfg.algorithm);
              Model() == old(Model()).(buckets := bs[permit.key := b])
    {
      hide B.Commit;
      var b := buckets[permit.key];
      b.Commit(permit, outcome, now, cfg.algorithm);
      OthersKept(permit.key);
      OneChanged(permit.key);
    }

    method BlockGlobally(until: Duration)
      requires Valid()
      modifies this`globalBlockedUntil
      ensures Valid() && Model() == old(Model()).(globalBlockedUntil := LaterBlock(old(globalBlockedUntil), until))
    {
      globalBlockedUntil := Some(if globalBlockedUntil.Some? then Max(globalBlockedUntil.value, until) else until);
      assert BucketModels() == old(BucketModels());
    }

    method Refund(permit: Permit, now: Duration)
      requires Valid()
      modifies Repr
      ensures Valid() && Repr == old(Repr)
      ensures Model() == RefundPermit(old(Model()), permit, now)
    {
      hide B.Refund;
      if permit.key in buckets {
        var b := buckets[permit.key];
        b.Refund(permit, now, cfg.algorithm);
        assert BucketModels() == old(BucketModels())[permit.key := b.Model()];
      }
    }

    method ApplyFeedback(route: Key, feedback: Feedback, now: Duration)
      requires Valid()
      modifies Repr
      ensures Valid() && fresh(Repr - old(Repr))
      ensures Model() == Limiters.ApplyFeedback(old(Model()), route, feedback, now)
    {
      hide EnsureCapacity, Insert, BlockUntil, LaterBlock, Later, BucketModels;
      if feedback.bucketRemap.Some? {
        ApplyRemap(route, feedback.bucketRemap.value);
      }
      var key := if route in routes then routes[route] else route;
      var backoff := feedback.retryAfter;
      if feedback.remaining == Some(0) && feedback.resetAfter.Some? {
        backoff := Max(backoff, feedback.resetAfter.value);
      }
      var until := Later(now, backoff);
      if feedback.scope.GlobalFeedback? {
        BlockGlobally(until);
      } else {
        BlockBucket(key, until, now);
      }
    }

    method ApplyRemap(route: Key, target: Key)
      requires Valid()
      modifies this`routes
      ensures Valid() && Model() == ApplyRouteRemap(old(Model()), route, target)
    {
      if !(cfg.maxKeys.Some? && |routes| >= cfg.maxKeys.value && route !in routes) {
        routes := routes[route := target];
      }
      assert BucketModels() == old(BucketModels());
    }

    // The bucket is created if it is unknown and the table has room; otherwise the deadline is dropped.
    method BlockBucket(key: Key, until: Duration, now: Duration)
      requires Valid()
      modifies Repr
      ensures Valid() && fresh(Repr - old(Repr))
      ensures match EnsureCapacity(old(Model()), key)
              case None => Model() == old(Model())
              case Some(room) =>
                var l := Insert(room, key, now);
                && key in l.buckets
                && Model() == l.(buckets := l.buckets[key := BlockUntil(l.buckets[key], until)])
    {
      hide EnsureCapacity, Insert, BlockUntil, BucketModels;
      var room := EnsureBucketCapacity(key);
      if room {
        ghost var owned := Repr;
        assert owned == old(Repr);
        InsertIfNew(key, now);
        assert fresh(Repr - old(Repr));
        SameKeys();
        BlockIn(key, until);
      }
    }

    method BlockIn(key: Key, until: Duration)
      requires Valid() && key in buckets
      modifies buckets[key]
      ensures Valid() && Repr == old(Repr)
      ensures var bs := old(BucketModels());
              Model() == old(Model()).(buckets := bs[key := BlockUntil(bs[key], until)])
    {
      hide BlockUntil;
      var b := buckets[key];
      b.ApplyBlockedUntil(until);
      OthersKept(key);
      OneChanged(key);
    }

    method UpdateConfig(newCfg: Config, now: Duration) returns (error: Option<UpdateError>)
      requires Valid()
      modifies Repr
      ensures Valid() && fresh(Repr - old(Repr))
      ensures (Model(), error) == Limiters.UpdateConfig(old(Model()), newCfg, now)
    {
      hide OnUpdate, HasOutstanding, NeedsNoOutstanding;
      var needs := NeedsNoOutstanding(cfg.algorithm, newCfg.algorithm);
      var outstanding := exists k :: k in buckets && buckets[k].Outstanding();
      assert outstanding == AnyOutstanding(Model()) by {
        assert forall k :: k in buckets ==> buckets[k].Outstanding() == HasOutstanding(BucketModels()[k]);
      }
      if needs.Some? && outstanding {
        return needs;
      }
      UpdateConfigUnchecked(newCfg, now);
      error := None;
    }

    method UpdateConfigUnchecked(newCfg: Config, now: Duration)
      requires Valid()
      modifies Repr
      ensures Valid() && fresh(Repr - old(Repr))
      ensures Model() == ForceConfig(old(Model()), newCfg, now)
    {
      hide OnUpdate, BucketModels, PartlyUpdated, ForceConfig;
      var oldAlgo := cfg.algorithm;
      SetConfig(newCfg);
      UpdateAll(oldAlgo, newCfg.algorithm, now);
      AllUpdated(old(Model()), newCfg, now);
    }

    method UpdateAll(before: Algorithm, after: Algorithm, now: Duration)
      requires Valid()
      modifies Repr
      ensures Valid() && fresh(Repr - old(Repr))
      ensures Model() == old(Model()).(buckets := PartlyUpdated(old(BucketModels()), {}, before, after, now))
    {
      hide OnUpdate, BucketModels, PartlyUpdated;
      ghost var bs := BucketModels();
      SameKeys();
      NoneUpdated(bs, before, after, now);
      var todo := buckets.Keys;
      while todo != {}
        invariant Valid() && fresh(Repr - old(Repr)) && old(Repr) <= Repr
        invariant todo <= bs.Keys
        invariant Model() == old(Model()).(buckets := PartlyUpdated(bs, todo, before, after, now))
        decreases todo
      {
        var k :| k in todo;
        SameKeys();
        OneMoreUpdated(bs, todo, k, before, after, now);
        UpdateOne(k, before, after, now);
        todo := todo - {k};
      }
    }

    method SetConfig(newCfg: Config)
      requires Valid()
      modifies this`cfg
      ensures Valid() && Model() == old(Model()).(cfg := newCfg)
    {
      cfg := newCfg;
      assert BucketModels() == old(BucketModels());
    }

    static ghost function PartlyUpdated(bs: map<Key, Bucket>, todo: set<Key>, before: Algorithm, after: Algorithm,
                                        now: Duration): map<Key, Bucket>
    {
      map k | k in bs :: if k in todo then bs[k] else OnUpdate(bs[k], before, after, now)
    }

    // What is owned by other keys is not touched by a change of one bucket.
    twostate lemma OthersKept(key: Key)
      requires old(Valid()) && buckets == old(buckets) && old(key in buckets)
      requires forall o: object ::
                 o in old(Repr) && o != old(buckets[key]) && o != old(buckets[key].Inner()) && o != this
                 ==> unchanged(o)
      ensures forall k :: k in buckets && k != key ==>
                buckets[k].Inner() == old(buckets[k].Inner()) && buckets[k].Model() == old(buckets[k].Model())
    {
    }

    twostate lemma StillOwned(key: Key, new inner: object)
      requires old(Valid()) && buckets == old(buckets) && key in buckets
      requires buckets[key].Inner() == inner && Repr == old(Repr) + {inner}
      requires forall k :: k in buckets && k != key ==> buckets[k].Inner() == old(buckets[k].Inner())
      requires inner == old(buckets[key].Inner()) || !old(allocated(inner))
      ensures Valid()
    {
    }

    twostate lemma OneChanged(key: Key)
      requires old(Valid()) && Valid() && buckets == old(buckets) && key in buckets
      requires forall k :: k in buckets && k != key ==> buckets[k].Model() == old(buckets[k].Model())
      ensures BucketModels() == old(BucketModels())[key := buckets[key].Model()]
      ensures old(BucketModels())[key] == old(buckets[key].Model())
    {
      forall k | k in buckets ensures BucketModels()[k] == old(BucketModels())[key := buckets[key].Model()][k] {
        if k != key {
          assert old(BucketModels())[k] == old(buckets[k].Model());
        }
      }
    }

    lemma NoneUpdated(bs: map<Key, Bucket>, before: Algorithm, after: Algorithm, now: Duration)
      ensures PartlyUpdated(bs, bs.Keys, before, after, now) == bs
    {
      hide OnUpdate;
    }

    lemma AllUpdated(l: Limiter, cfg: Config, now: Duration)
      ensures ForceConfig(l, cfg, now)
           == l.(cfg := cfg, buckets := PartlyUpdated(l.buckets, {}, l.cfg.algorithm, cfg.algorithm, now))
    {
      hide OnUpdate;
    }

    lemma OneMoreUpdated(bs: map<Key, Bucket>, todo: set<Key>, key: Key, before: Algorithm, after: Algorithm,
                         now: Duration)
      requires todo <= bs.Keys && key in todo
      ensures var partly := PartlyUpdated(bs, todo, before, after, now);
              && partly.Keys == bs.Keys && partly[key] == bs[key]
              && partly[key := OnUpdate(bs[key], before, after, now)]
                   == PartlyUpdated(bs, todo - {key}, before, after, now)
    {
      hide OnUpdate;
    }

    method UpdateOne(key: Key, before: Algorithm, after: Algorithm, now: Duration)
      requires Valid() && key in buckets
      modifies buckets[key], buckets[key].Inner(), this`Repr
      ensures Valid() && fresh(Repr - old(Repr)) && old(Repr) <= Repr
      ensures var bs := old(BucketModels());
              Model() == old(Model()).(buckets := bs[key := OnUpdate(bs[key], before, after, now)])
    {
      hide OnUpdate, BucketModels, AlgoOf;
      var b := buckets[key];
      b.OnUpdate(before, after, now);
      ghost var inner := b.Inner();
      assert inner == old(b.Inner()) || !old(allocated(inner));
      Repr := Repr + {inner};
      assert b.Inner() == inner;
      OthersKept(key);
      StillOwned(key, inner);
      OneChanged(key);
    }
  }

  // ----- src/in_flight.rs: a permit carried through completion or expiry -----

  datatype ExpiryPolicy = CommitSentNoConfirm | RefundOnExpiry

  class LimiterInFlight<W> {
    const permit: Permit
    const deadline: Duration
    var waiters: InFlight.Waiters<W>

    constructor (permit: Permit, deadline: Duration, waiter: W)
      ensures this.permit == permit && this.deadline == deadline && waiters == InFlight.One(waiter)
    {
      this.permit, this.deadline, waiters := permit, deadline, InFlight.One(waiter);
    }

    method Join(waiter: W)
      modifies this
      ensures InFlight.IntoVec(waiters) == InFlight.IntoVec(old(waiters)) + [waiter]
    {
      waiters := InFlight.Push(waiters, waiter);
    }

    method Finalize(limiter: RateLimiter, outcome: Outcome, now: Duration) returns (out: seq<W>)
      requires limiter.Valid()
      modifies limiter.Repr
      ensures limiter.Valid()
      ensures limiter.Model() == if outcome.NotSent? then RefundPermit(old(limiter.Model()), permit, now)
                                 else CommitPermit(old(limiter.Model()), permit, outcome, now)
      ensures out == InFlight.IntoVec(old(waiters))
    {
      out := InFlight.IntoVec(waiters);
      if outcome.NotSent? {
        limiter.Refund(permit, now);
      } else {
        limiter.Commit(permit, outcome, now);
      }
    }

    method Expire(limiter: RateLimiter, policy: ExpiryPolicy, now: Duration) returns (out: seq<W>)
      requires limiter.Valid()
      modifies limiter.Repr
      ensures limiter.Valid()
      ensures limiter.Model() == if policy.RefundOnExpiry? then RefundPermit(old(limiter.Model()), permit, now)
                                 else CommitPermit(old(limiter.Model()), permit, SentNoConfirm, now)
      ensures out == InFlight.IntoVec(old(waiters))
    {
      out := InFlight.IntoVec(waiters);
      match policy {
        case CommitSentNoConfirm => limiter.Commit(permit, SentNoConfirm, now);
        case RefundOnExpiry => limiter.Refund(permit, now);
      }
    }
  }
}

// tests/deterministic_server_model.rs: the server object and the loop that drives a limiter and a
// server side by side, with the limiter's own lockstep theorem behind it.
module TraceDriver {
  import opened Machine
  import opened TokenBucket
  import opened Types
  import opened Windows
  import opened Buckets
  import opened Limiters
  import opened Servers
  import opened Lockstep
  import opened LimiterObject

  class DeterministicServer {
    const algo: Algorithm
    var keys: map<Key, ServerKey>
    var globalBlockedUntil: Option<Duration>

    ghost function Model(): Server
      reads this
    {
      Server(algo, keys, globalBlockedUntil)
    }

    constructor (algo: Algorithm)
      ensures Model() == Server(algo, map[], None)
    {
      this.algo, keys, globalBlockedUntil := algo, map[], None;
    }

    method TouchKey(key: Key, now: Duration)
      modifies this`keys
      ensures Model() == Touch(old(Model()), key, now)
    {
      if key !in keys {
        keys := keys[key := NewServerKey(now, algo)];
      }
    }

    method Decide(key: Key, cost: Cost, now: Duration) returns (d: Decision)
      modifies this`keys
      ensures (Model(), d) == Servers.Decide(old(Model()), key, cost, now)
    {
      hide AdvanceWindow, RefillKey, NewServerKey, RetryAfterForDeficit;
      if globalBlockedUntil.Some? && now < globalBlockedUntil.value {
        return RateLimited(globalBlockedUntil.value - now, Global);
      }
      TouchKey(key, now);
      assert keys[key := keys[key]] == keys;
      var st := keys[key];
      if st.blockedUntil.Some? && now < st.blockedUntil.value {
        return RateLimited(st.blockedUntil.value - now, PerKey);
      }
      match algo {
        case FixedWindow(maxPerWindow, window) =>
          st := AdvanceWindow(st, window, now);
          keys := keys[key := st];
          if cost > maxPerWindow {
            return RateLimited(DURATION_MAX, PerKey);
          }
          if SatAdd32(st.spent, cost) > maxPerWindow {
            return RateLimited(SatSub(Later(st.windowStart, window), now), PerKey);
          }
          d := Accepts;
        case TokenBucket(capacity, refillPerSec) =>
          if cost > capacity {
            return RateLimited(DURATION_MAX, PerKey);
          }
          st := RefillKey(st, capacity, refillPerSec, now);
          keys := keys[key := st];
          if st.credits >= cost {
            d := Accepts;
          } else if refillPerSec == 0 {
            d := RateLimited(DURATION_MAX, PerKey);
          } else {
            d := RateLimited(RetryAfterForDeficit(cost - st.credits, refillPerSec), PerKey);
          }
      }
    }

    method ApplyOutcome(key: Key, cost: Cost, outcome: Outcome, now: Duration)
      modifies this`keys, this`globalBlockedUntil
      ensures Model() == Servers.ApplyOutcome(old(Model()), key, cost, outcome, now)
    {
      hide AdvanceWindow, RefillKey, NewServerKey;
      TouchKey(key, now);
      var st := keys[key];
      match algo {
        case FixedWindow(_, window) =>
          st := AdvanceWindow(st, window, now);
          if !outcome.NotSent? {
            st := st.(spent := SatAdd32(st.spent, cost));
          }
        case TokenBucket(capacity, refillPerSec) =>
          st := RefillKey(st, capacity, refillPerSec, now);
          if !outcome.NotSent? {
            st := st.(credits := SatSub(st.credits, cost));
          }
      }
      if outcome.RateLimitedFeedback? {
        var until := Later(now, outcome.retryAfter);
        if outcome.scope.Global? {
          globalBlockedUntil := LaterBlock(globalBlockedUntil, until);
        } else {
          st := st.(blockedUntil := LaterBlock(st.blockedUntil, until));
        }
      }
      keys := keys[key := st];
    }
  }

  // ----- driving a trace -----

  datatype Try = Try(now: Duration, cost: Cost)

  function Answer(d: Decision): Outcome {
    if d.Accepts? then Confirmed else RateLimitedFeedback(d.retryAfter, d.scope, None)
  }

  // One attempt: None where the driver would panic, else both states after it.
  function DriveOne(l: Limiter, s: Server, key: Key, t: Try): Option<(Limiter, Server)> {
    var (s1, d) := Servers.Decide(s, key, t.cost, t.now);
    var (l1, a) := Limiters.TryAcquire(l, key, t.cost, t.now);
    if a.Granted? then
      Some((CommitPermit(l1, a.permit, Answer(d), t.now), Servers.ApplyOutcome(s1, key, t.cost, Answer(d), t.now)))
    else if d.RateLimited? && a.retryAfter == d.retryAfter then Some((l1, s1))
    else None
  }

  function DriveOk(l: Limiter, s: Server, key: Key, tries: seq<Try>): bool
    decreases |tries|
  {
    tries == [] ||
    (DriveOne(l, s, key, tries[0]).Some? &&
     var (l', s') := DriveOne(l, s, key, tries[0]).value;
     DriveOk(l', s', key, tries[1..]))
  }

  method DriveTrace(client: RateLimiter, server: DeterministicServer, key: Key, tries: seq<Try>) returns (ok: bool)
    requires client.Valid() && server !in client.Repr
    modifies client.Repr, server
    ensures client.Valid()
    ensures ok == DriveOk(old(client.Model()), old(server.Model()), key, tries)
  {
    hide Limiters.TryAcquire, CommitPermit, Servers.Decide, Servers.ApplyOutcome;
    ghost var l0, s0 := client.Model(), server.Model();
    for i := 0 to |tries|
      invariant client.Valid() && server !in client.Repr && fresh(client.Repr - old(client.Repr))
      invariant DriveOk(l0, s0, key, tries) == DriveOk(client.Model(), server.Model(), key, tries[i..])
    {
      assert tries[i..][1..] == tries[i + 1..];
      var t := tries[i];
      ghost var l, s := client.Model(), server.Model();
      var fine := Attempt(client, server, key, t);
      assert fine == DriveOne(l, s, key, t).Some?;
      if !fine {
        return false;
      }
    }
    ok := true;
  }

  method Attempt(client: RateLimiter, server: DeterministicServer, key: Key, t: Try) returns (fine: bool)
    requires client.Valid() && server !in client.Repr
    modifies client.Repr, server
    ensures client.Valid() && server !in client.Repr && fresh(client.Repr - old(client.Repr))
    ensures var next := DriveOne(old(client.Model()), old(server.Model()), key, t);
            fine == next.Some? && (fine ==> (client.Model(), server.Model()) == next.value)
  {
    hide Limiters.TryAcquire, CommitPermit, Servers.Decide, Servers.ApplyOutcome;
    hide RateLimiter.Valid, RateLimiter.Model, RateLimiter.BucketModels;
    ghost var l, s := client.Model(), server.Model();
    var d := server.Decide(key, t.cost, t.now);
    assert client.Model() == l;
    var a := client.TryAcquire(key, t.cost, t.now);
    assert server.Model() == Servers.Decide(s, key, t.cost, t.now).0;
    if a.Granted? {
      server.ApplyOutcome(key, t.cost, Answer(d), t.now);
      client.Commit(a.permit, Answer(d), t.now);
      fine := true;
    } else {
      fine := d.RateLimited? && a.retryAfter == d.retryAfter;
    }
  }

  function TriedAt(t: Try): Duration { t.now }

  // A client that knows the server's algorithm, or takes the maximum of its windows for larger than it is.
  predicate Follows(client: Algorithm, server: Algorithm, cost: Cost) {
    || (client == server && Comparable(server, cost))
    || (client.FixedWindow? && server.FixedWindow? && client.window == server.window
        && cost <= server.maxPerWindow <= client.maxPerWindow < U32_MAX)
  }

  // One attempt on the one key.
  function DriveKey(b: Bucket, st: ServerKey, client: Algorithm, server: Algorithm, key: Key, t: Try)
    : Option<(Bucket, ServerKey)>
  {
    var (st1, d) := DecideKey(st, server, t.cost, t.now);
    var (b1, a) := Reserve(b, key, client, t.cost, t.now);
    if a.Granted? then
      Some((Buckets.Commit(b1, a.permit, Answer(d), t.now, client), ChargeKey(st1, server, t.cost, Answer(d), t.now)))
    else if d.RateLimited? && a.retryAfter == d.retryAfter then Some((b1, st1))
    else None
  }

  // An optimistic client overshoots, is told to wait for the end of the window, and from then on names
  // the server's waits.
  lemma OptimistKeyDrives(b: Bucket, st: ServerKey, client: Algorithm, server: Algorithm, key: Key, t: Try,
                          clock: Duration)
    requires SameKey(b, st, client, clock) && clock <= t.now
    requires client.FixedWindow? && server.FixedWindow? && client.window == server.window
             && t.cost <= server.maxPerWindow <= client.maxPerWindow < U32_MAX
    ensures var next := DriveKey(b, st, client, server, key, t);
            next.Some? && SameKey(next.value.0, next.value.1, client, t.now)
  {
    hide WindowStartFor;
  }

  lemma KeyDrives(b: Bucket, st: ServerKey, client: Algorithm, server: Algorithm, key: Key, t: Try, clock: Duration)
    requires SameKey(b, st, client, clock) && clock <= t.now && Follows(client, server, t.cost)
    ensures var next := DriveKey(b, st, client, server, key, t);
            next.Some? && SameKey(next.value.0, next.value.1, client, t.now)
  {
    hide SameKey, Comparable, Reserve, DecideKey, Buckets.Commit, ChargeKey;
    if client == server && Comparable(server, t.cost) {
      KeysAgree(b, st, client, Request(key, t.cost, t.now, Committed(Confirmed)), clock);
    } else {
      OptimistKeyDrives(b, st, client, server, key, t, clock);
    }
  }

  lemma SameAtFirstSight(client: Algorithm, server: Algorithm, cost: Cost, now: Duration)
    requires Follows(client, server, cost)
    ensures SameKey(NewBucket(now, client), NewServerKey(now, server), client, now)
  {
  }

  ghost predicate InTune(l: Limiter, s: Server, clock: Duration) {
    && l.cfg.slowStart.None? && l.cfg.maxKeys.None? && l.routes == map[]
    && l.globalBlockedUntil.None? && s.globalBlockedUntil.None?
    && l.buckets.Keys == s.keys.Keys
    && forall k :: k in l.buckets ==> SameKey(l.buckets[k], s.keys[k], l.cfg.algorithm, clock)
  }

  lemma DriveOneShape(l: Limiter, s: Server, key: Key, t: Try)
    requires l.cfg.slowStart.None? && l.cfg.maxKeys.None? && l.routes == map[]
    requires l.globalBlockedUntil.None? && s.globalBlockedUntil.None?
    ensures var b := if key in l.buckets then l.buckets[key] else NewBucket(t.now, l.cfg.algorithm);
            var st := if key in s.keys then s.keys[key] else NewServerKey(t.now, s.algo);
            var next := DriveKey(b, st, l.cfg.algorithm, s.algo, key, t);
            next.Some? ==>
              && DriveOne(l, s, key, t).Some?
              && var (l', s') := DriveOne(l, s, key, t).value;
                 && l' == l.(buckets := l.buckets[key := next.value.0], fifo := l'.fifo)
                 && s' == s.(keys := s.keys[key := next.value.1])
  {
    hide Reserve, Buckets.Commit, NewBucket, DecideKey, ChargeKey, NewServerKey;
    var b := if key in l.buckets then l.buckets[key] else NewBucket(t.now, l.cfg.algorithm);
    var st := if key in s.keys then s.keys[key] else NewServerKey(t.now, s.algo);
    ReserveKey(b, key, l.cfg.algorithm, t.cost, t.now);
    DecidesPerKey(st, s.algo, t.cost, t.now);
  }

  lemma DecidesPerKey(st: ServerKey, algo: Algorithm, cost: Cost, now: Duration)
    ensures DecideKey(st, algo, cost, now).1.RateLimited? ==> DecideKey(st, algo, cost, now).1.scope.PerKey?
  {
    hide AdvanceWindow, RefillKey, RetryAfterForDeficit;
  }

  lemma DriveStaysInTune(l: Limiter, s: Server, key: Key, t: Try, clock: Duration)
    requires InTune(l, s, clock) && clock <= t.now && Follows(l.cfg.algorithm, s.algo, t.cost)
    ensures var next := DriveOne(l, s, key, t);
            && next.Some? && InTune(next.value.0, next.value.1, t.now)
            && next.value.0.cfg == l.cfg && next.value.1.algo == s.algo
  {
    hide DriveOne, DriveKey, NewBucket, NewServerKey, SameState;
    var b := if key in l.buckets then l.buckets[key] else NewBucket(t.now, l.cfg.algorithm);
    var st := if key in s.keys then s.keys[key] else NewServerKey(t.now, s.algo);
    SameAtFirstSight(l.cfg.algorithm, s.algo, t.cost, t.now);
    DriveOneShape(l, s, key, t);
    KeyDrives(b, st, l.cfg.algorithm, s.algo, key, t, if key in l.buckets then clock else t.now);
  }

  lemma {:induction false} InTuneAlong(l: Limiter, s: Server, key: Key, tries: seq<Try>, clock: Duration)
    requires InTune(l, s, clock) && Timely(clock, tries, TriedAt)
    requires forall t :: t in tries ==> Follows(l.cfg.algorithm, s.algo, t.cost)
    ensures DriveOk(l, s, key, tries)
    decreases |tries|
  {
    hide InTune, Follows, DriveOne;
    if tries != [] {
      DriveStaysInTune(l, s, key, tries[0], clock);
      var (l', s') := DriveOne(l, s, key, tries[0]).value;
      InTuneAlong(l', s', key, tries[1..], tries[0].now);
    }
  }

  // The driver never panics, on any trace: whether the client's limiter has the server's algorithm or
  // an optimistic maximum, every wait it names is the server's.
  lemma DriverNeverPanics(client: Algorithm, server: Algorithm, policy: OverflowPolicy, startedAt: Duration,
                          key: Key, tries: seq<Try>)
    requires Timely(0, tries, TriedAt) && forall t :: t in tries ==> Follows(client, server, t.cost)
    ensures DriveOk(New(Config(client, None, policy, None), startedAt), Server(server, map[], None), key, tries)
  {
    InTuneAlong(New(Config(client, None, policy, None), startedAt), Server(server, map[], None), key, tries, 0);
  }
}

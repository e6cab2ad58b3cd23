// The limiter simulates the reference server: on every trace whose permits are finalised at once,
// both take the same decision with the same wait at every step.
module Lockstep {
  import opened Machine
  import opened TokenBucket
  import opened Types
  import opened Windows
  import opened Buckets
  import opened Limiters
  import opened Servers

  // How the caller finalises the permit, at once, if it gets one.
  datatype Finish = Committed(outcome: Outcome) | Refunded

  datatype Request = Request(key: Key, cost: Cost, now: Duration, finish: Finish)

  // What the server sees of it.
  function Seen(finish: Finish): Outcome { if finish.Refunded? then NotSent else finish.outcome }

  predicate Agree(a: Attempt, d: Decision) {
    match (a, d)
    case (Granted(_), Accepts) => true
    case (Denied(wait, _), RateLimited(wait', _)) => wait == wait'
    case _ => false
  }

  // ----- one key -----

  predicate SameState(b: Bucket, st: ServerKey, algo: Algorithm) {
    match (b.algo, algo)
    case (FixedState(f), FixedWindow(_, _)) => f == Fixed(st.windowStart, 0, st.spent)
    case (TokenState(t), TokenBucket(capacity, _)) => t == Tokens(st.lastUpdate, st.credits, 0) && t.credits <= capacity
    case _ => false
  }

  // The limiter forgets a deadline once it is past; the server keeps it.
  predicate SameBlock(mine: Option<Duration>, theirs: Option<Duration>, clock: Duration) {
    mine == theirs || (mine.None? && theirs.value <= clock)
  }

  predicate SameKey(b: Bucket, st: ServerKey, algo: Algorithm, clock: Duration) {
    SameState(b, st, algo) && SameBlock(b.blockedUntil, st.blockedUntil, clock)
  }

  // Where the two agree: a positive maximum below 2^32 - 1, or a cost within the capacity.
  predicate Comparable(algo: Algorithm, cost: Cost) {
    match algo
    case FixedWindow(max, _) => 0 < max < U32_MAX
    case TokenBucket(capacity, _) => cost <= capacity
  }

  // Fixed windows in the same state take the same decision exactly outside two corners: a maximum
  // of zero (different waits) and the largest maximum, where the server's addition saturates and
  // it accepts what the limiter denies.
  lemma FixedDecisionsAgreeIff(f: Fixed, st: ServerKey, key: Key, max: u32, window: Window, cost: Cost, now: Duration)
    requires f == Fixed(st.windowStart, 0, st.spent)
    requires st.blockedUntil.None? || st.blockedUntil.value <= now
    ensures var f' := MaybeReset(f, now, window);
            Agree(TakeFromWindow(f', key, max, window, cost, now).1,
                  DecideKey(st, FixedWindow(max, window), cost, now).1)
            <==> ((max == 0 ==> window == DURATION_MAX) && !(max == U32_MAX && f'.spent + cost > U32_MAX))
  {
    hide WindowStartFor;
  }

  // After the decision on a pool the states agree exactly unless the cost passes a positive
  // capacity when time has gone by: the limiter refills before it refuses, the server does not.
  lemma PoolStatesAgreeIff(t: Tokens, st: ServerKey, key: Key, capacity: u64, rate: u64, cost: Cost, now: Duration)
    requires t == Tokens(st.lastUpdate, st.credits, 0) && t.credits <= capacity
    requires st.blockedUntil.None? || st.blockedUntil.value <= now
    ensures var (t', a) := TakeFromPool(t, key, capacity, rate, cost, now);
            var (st', d) := DecideKey(st, TokenBucket(capacity, rate), cost, now);
            && Agree(a, d)
            && (t'.lastUpdate == st'.lastUpdate <==> !(0 < capacity < cost && st.lastUpdate < now))
            && (t'.lastUpdate == st'.lastUpdate ==> t'.credits == st'.credits - (if a.Granted? then cost else 0))
  {
    hide CreditsAdded, RetryAfterForDeficit;
  }

  // A decision, and the finalisation that follows it at once.
  function MyStep(b: Bucket, algo: Algorithm, r: Request): (Bucket, Attempt) {
    var (b, a) := Reserve(b, r.key, algo, r.cost, r.now);
    (if a.Denied? then b
     else if r.finish.Refunded? then Refund(b, a.permit, r.now, algo)
     else Commit(b, a.permit, r.finish.outcome, r.now, algo), a)
  }

  function TheirStep(st: ServerKey, algo: Algorithm, r: Request): (ServerKey, Decision) {
    var (st, d) := DecideKey(st, algo, r.cost, r.now);
    (if d.Accepts? then ChargeKey(st, algo, r.cost, Seen(r.finish), r.now) else st, d)
  }

  lemma FixedKeysAgree(b: Bucket, st: ServerKey, algo: Algorithm, r: Request, clock: Duration)
    requires SameKey(b, st, algo, clock) && clock <= r.now && Comparable(algo, r.cost) && algo.FixedWindow?
    ensures Agree(MyStep(b, algo, r).1, TheirStep(st, algo, r).1)
    ensures SameKey(MyStep(b, algo, r).0, TheirStep(st, algo, r).0, algo, r.now)
  {
    hide WindowStartFor;
  }

  // The pool after an acquire, after spending and after a refund at the same instant, in the server's terms.
  lemma PoolMoves(t: Tokens, st: ServerKey, key: Key, capacity: u64, rate: u64, cost: Cost, now: Duration)
    requires t == Tokens(st.lastUpdate, st.credits, 0) && t.credits <= capacity && cost <= capacity
    ensures var (t', a) := TakeFromPool(t, key, capacity, rate, cost, now);
            var st' := RefillKey(st, capacity, rate, now);
            && st' == st.(lastUpdate := st'.lastUpdate, credits := st'.credits)
            && RefillKey(st', capacity, rate, now) == st' && st'.credits <= capacity
            && (a.Granted? <==> st'.credits >= cost)
            && (a.Granted? ==> SpendTokens(t', cost) == Tokens(st'.lastUpdate, st'.credits - cost, 0))
            && (a.Granted? ==> RefundTokens(t', capacity, cost, now, rate) == Tokens(st'.lastUpdate, st'.credits, 0))
            && (a.Granted? ==> a.permit.meta == TokenPermit && a.permit.cost == cost)
            && (a.Denied? ==> t' == Tokens(st'.lastUpdate, st'.credits, 0))
            && (a.Denied? ==>
                 a.retryAfter == if rate == 0 then DURATION_MAX else RetryAfterForDeficit(cost - st'.credits, rate))
  {
    hide CreditsAdded, RetryAfterForDeficit;
  }

  lemma PoolKeysAgree(b: Bucket, st: ServerKey, algo: Algorithm, r: Request, clock: Duration)
    requires SameKey(b, st, algo, clock) && clock <= r.now && Comparable(algo, r.cost) && algo.TokenBucket?
    ensures Agree(MyStep(b, algo, r).1, TheirStep(st, algo, r).1)
    ensures SameKey(MyStep(b, algo, r).0, TheirStep(st, algo, r).0, algo, r.now)
  {
    hide TakeFromPool, RefillKey, SpendTokens, RefundTokens, CreditsAdded, RetryAfterForDeficit;
    PoolMoves(b.algo.t, st, r.key, algo.capacity, algo.refillPerSec, r.cost, r.now);
  }

  // ----- every key, every trace -----

  function LimiterStep(l: Limiter, r: Request): (Limiter, Attempt) {
    var (l, a) := TryAcquire(l, r.key, r.cost, r.now);
    (if a.Denied? then l
     else if r.finish.Refunded? then RefundPermit(l, a.permit, r.now)
     else CommitPermit(l, a.permit, r.finish.outcome, r.now), a)
  }

  function ServerStep(s: Server, r: Request): (Server, Decision) {
    var (s, d) := Decide(s, r.key, r.cost, r.now);
    (if d.Accepts? then ApplyOutcome(s, r.key, r.cost, Seen(r.finish), r.now) else s, d)
  }

  ghost predicate InStep(l: Limiter, s: Server, clock: Duration) {
    && l.cfg.slowStart.None? && l.cfg.maxKeys.None? && l.routes == map[]
    && l.cfg.algorithm == s.algo
    && l.globalBlockedUntil == s.globalBlockedUntil
    && l.buckets.Keys == s.keys.Keys
    && forall k :: k in l.buckets ==> SameKey(l.buckets[k], s.keys[k], s.algo, clock)
  }

  lemma SameAtBirth(now: Duration, algo: Algorithm)
    ensures SameKey(NewBucket(now, algo), NewServerKey(now, algo), algo, now)
  {
  }

  // The limiter's step on the whole is its step on the one bucket.
  lemma LimiterStepShape(l: Limiter, r: Request)
    requires l.cfg.slowStart.None? && l.cfg.maxKeys.None? && l.routes == map[]
    ensures var (l', a) := LimiterStep(l, r);
            if l.globalBlockedUntil.Some? && r.now < l.globalBlockedUntil.value
            then l' == l && a.Denied? && a.retryAfter == l.globalBlockedUntil.value - r.now
            else
              var b := if r.key in l.buckets then l.buckets[r.key] else NewBucket(r.now, l.cfg.algorithm);
              var (b', a') := MyStep(b, l.cfg.algorithm, r);
              && a == a'
              && l'.buckets == l.buckets[r.key := b']
              && l' == l.(buckets := l'.buckets, fifo := l'.fifo, globalBlockedUntil := l'.globalBlockedUntil)
              && l'.globalBlockedUntil == GlobalAfter(l.globalBlockedUntil, a.Granted?, r)
  {
    hide Reserve, Commit, Refund, NewBucket, Later, LaterBlock;
    var b := if r.key in l.buckets then l.buckets[r.key] else NewBucket(r.now, l.cfg.algorithm);
    ReserveKey(b, r.key, l.cfg.algorithm, r.cost, r.now);
  }

  lemma ReserveKey(b: Bucket, key: Key, algo: Algorithm, cost: Cost, now: Duration)
    ensures var a := Reserve(b, key, algo, cost, now).1;
            a.Granted? ==> a.permit.key == key
  {
  }

  function GlobalAfter(current: Option<Duration>, sent: bool, r: Request): Option<Duration> {
    if sent && Seen(r.finish).RateLimitedFeedback? && Seen(r.finish).scope.Global?
    then LaterBlock(current, Later(r.now, Seen(r.finish).retryAfter)) else current
  }

  lemma ServerStepShape(s: Server, r: Request)
    ensures var (s', d) := ServerStep(s, r);
            if s.globalBlockedUntil.Some? && r.now < s.globalBlockedUntil.value
            then s' == s && d == RateLimited(s.globalBlockedUntil.value - r.now, Global)
            else
              var st := if r.key in s.keys then s.keys[r.key] else NewServerKey(r.now, s.algo);
              var (st', d') := TheirStep(st, s.algo, r);
              d == d' && s' == Server(s.algo, s.keys[r.key := st'], GlobalAfter(s.globalBlockedUntil, d.Accepts?, r))
  {
    hide DecideKey, ChargeKey, NewServerKey, Later, LaterBlock;
  }

  lemma KeysAgree(b: Bucket, st: ServerKey, algo: Algorithm, r: Request, clock: Duration)
    requires SameKey(b, st, algo, clock) && clock <= r.now && Comparable(algo, r.cost)
    ensures Agree(MyStep(b, algo, r).1, TheirStep(st, algo, r).1)
    ensures SameKey(MyStep(b, algo, r).0, TheirStep(st, algo, r).0, algo, r.now)
  {
    hide *;
    match algo
    case FixedWindow(_, _) => FixedKeysAgree(b, st, algo, r, clock);
    case TokenBucket(_, _) => PoolKeysAgree(b, st, algo, r, clock);
  }

  lemma StepsAgree(l: Limiter, s: Server, r: Request, clock: Duration)
    requires InStep(l, s, clock) && clock <= r.now && Comparable(s.algo, r.cost)
    ensures Agree(LimiterStep(l, r).1, ServerStep(s, r).1)
    ensures InStep(LimiterStep(l, r).0, ServerStep(s, r).0, r.now)
  {
    hide LimiterStep, ServerStep, MyStep, TheirStep, SameState, NewBucket, NewServerKey, LaterBlock, Later;
    LimiterStepShape(l, r);
    ServerStepShape(s, r);
    SameAtBirth(r.now, s.algo);
    var b := if r.key in l.buckets then l.buckets[r.key] else NewBucket(r.now, s.algo);
    var st := if r.key in s.keys then s.keys[r.key] else NewServerKey(r.now, s.algo);
    KeysAgree(b, st, s.algo, r, if r.key in l.buckets then clock else r.now);
  }

  // Both run the trace; at every step they agree.
  predicate AgreeAlong(l: Limiter, s: Server, trace: seq<Request>)
    decreases |trace|
  {
    trace == [] ||
    var (l', a) := LimiterStep(l, trace[0]);
    var (s', d) := ServerStep(s, trace[0]);
    Agree(a, d) && AgreeAlong(l', s', trace[1..])
  }

  function AskedAt(r: Request): Duration { r.now }

  lemma {:induction false} InStepAlong(l: Limiter, s: Server, trace: seq<Request>, clock: Duration)
    requires InStep(l, s, clock) && Timely(clock, trace, AskedAt)
    requires forall r :: r in trace ==> Comparable(s.algo, r.cost)
    ensures AgreeAlong(l, s, trace)
    decreases |trace|
  {
    hide InStep, LimiterStep, Comparable, Agree;
    if trace != [] {
      StepsAgree(l, s, trace[0], clock);
      InStepAlong(LimiterStep(l, trace[0]).0, ServerStep(s, trace[0]).0, trace[1..], trace[0].now);
    }
  }

  // Lockstep on every trace of every set of keys, with every outcome, 429s of both scopes included.
  lemma LimiterMatchesServer(algo: Algorithm, policy: OverflowPolicy, startedAt: Duration, trace: seq<Request>)
    requires Timely(0, trace, AskedAt) && forall r :: r in trace ==> Comparable(algo, r.cost)
    ensures AgreeAlong(New(Config(algo, None, policy, None), startedAt), Server(algo, map[], None), trace)
  {
    InStepAlong(New(Config(algo, None, policy, None), startedAt), Server(algo, map[], None), trace, 0);
  }

  // ----- where it breaks, from a new limiter and a new server -----

  function Fresh(algo: Algorithm): (Limiter, Server) {
    (New(Config(algo, None, DenyNewKey, None), 0), Server(algo, map[], None))
  }

  function Sends(cost: Cost, now: Duration): Request { Request(7, cost, now, Committed(Confirmed)) }

  // After a step with one key on both sides.
  predicate Holding(l: Limiter, s: Server, algo: Algorithm, b: Bucket, st: ServerKey) {
    && l.cfg == Config(algo, None, DenyNewKey, None) && l.routes == map[] && s.algo == algo
    && l.buckets == map[7 := b] && s.keys == map[7 := st]
    && l.globalBlockedUntil.None? && s.globalBlockedUntil.None?
  }

  lemma FirstStep(algo: Algorithm, r: Request)
    requires r.key == 7 && r.finish == Committed(Confirmed)
    ensures var (l, s) := Fresh(algo);
            var (b, a) := MyStep(NewBucket(r.now, algo), algo, r);
            var (st, d) := TheirStep(NewServerKey(r.now, algo), algo, r);
            && LimiterStep(l, r).1 == a && ServerStep(s, r).1 == d
            && Holding(LimiterStep(l, r).0, ServerStep(s, r).0, algo, b, st)
  {
    hide MyStep, TheirStep, LimiterStep, ServerStep, NewBucket, NewServerKey;
    LimiterStepShape(Fresh(algo).0, r);
    ServerStepShape(Fresh(algo).1, r);
  }

  lemma NextStep(l: Limiter, s: Server, algo: Algorithm, b: Bucket, st: ServerKey, r: Request)
    requires Holding(l, s, algo, b, st) && r.key == 7 && r.finish == Committed(Confirmed)
    ensures var (b', a) := MyStep(b, algo, r);
            var (st', d) := TheirStep(st, algo, r);
            && LimiterStep(l, r).1 == a && ServerStep(s, r).1 == d
            && Holding(LimiterStep(l, r).0, ServerStep(s, r).0, algo, b', st')
  {
    hide MyStep, TheirStep, LimiterStep, ServerStep;
    LimiterStepShape(l, r);
    ServerStepShape(s, r);
  }

  // At a maximum of zero the first request disagrees, unless the window is all of time.
  lemma ZeroMaximumAgreesIff(window: Window)
    ensures var (l, s) := Fresh(FixedWindow(0, window));
            AgreeAlong(l, s, [Sends(1, 0)]) <==> window == DURATION_MAX
  {
    hide WindowStartFor;
    var algo := FixedWindow(0, window);
    FirstStep(algo, Sends(1, 0));
    assert [Sends(1, 0)][1..] == [];
    var (l, s) := Fresh(algo);
    assert AgreeAlong(LimiterStep(l, Sends(1, 0)).0, ServerStep(s, Sends(1, 0)).0, []);
  }

  // At the largest maximum the server accepts one more than the maximum in a window.
  lemma LargestMaximumBreaksLockstep(window: Window)
    ensures var (l, s) := Fresh(FixedWindow(U32_MAX, window));
            !AgreeAlong(l, s, [Sends(U32_MAX, 0), Sends(1, 0)])
  {
    hide MyStep, TheirStep, LimiterStep, ServerStep, NewBucket, NewServerKey, Fresh, Holding;
    var algo := FixedWindow(U32_MAX, window);
    var (l, s) := Fresh(algo);
    var first, second := Sends(U32_MAX, 0), Sends(1, 0);
    LargestMaximumOnOneKey(window);
    FirstStep(algo, first);
    var (l1, s1) := (LimiterStep(l, first).0, ServerStep(s, first).0);
    NextStep(l1, s1, algo, Exhausted(), EXHAUSTED, second);
    assert [first, second][1..] == [second];
    assert !AgreeAlong(l1, s1, [second]);
  }

  function Exhausted(): Bucket { Bucket(None, FixedState(Fixed(0, 0, U32_MAX))) }

  const EXHAUSTED := ServerKey(0, U32_MAX, 0, 0, None)

  lemma LargestMaximumOnOneKey(window: Window)
    ensures var algo := FixedWindow(U32_MAX, window);
            var first, second := Sends(U32_MAX, 0), Sends(1, 0);
            && MyStep(NewBucket(0, algo), algo, first).0 == Exhausted()
            && TheirStep(NewServerKey(0, algo), algo, first).0 == EXHAUSTED
            && !Agree(MyStep(Exhausted(), algo, second).1, TheirStep(EXHAUSTED, algo, second).1)
  {
    OnlyWindow(0, 0, window);
    hide WindowStartFor;
  }

  // A request above the capacity refills the limiter alone: half a second later it denies what the
  // server accepts.
  lemma OverCapacityRequestBreaksLockstep()
    ensures var (l, s) := Fresh(TokenBucket(1, 1));
            !AgreeAlong(l, s, [Sends(1, 0), Sends(2, 500_000_000), Sends(1, 1_000_000_000)])
  {
    hide MyStep, TheirStep, LimiterStep, ServerStep, NewBucket, NewServerKey, Fresh, Holding;
    var algo := TokenBucket(1, 1);
    var (l, s) := Fresh(algo);
    var first, second, third := Sends(1, 0), Sends(2, 500_000_000), Sends(1, 1_000_000_000);
    OverCapacityOnOneKey();
    FirstStep(algo, first);
    var (l1, s1) := (LimiterStep(l, first).0, ServerStep(s, first).0);
    NextStep(l1, s1, algo, Drained(0), DRAINED, second);
    var (l2, s2) := (LimiterStep(l1, second).0, ServerStep(s1, second).0);
    NextStep(l2, s2, algo, Drained(500_000_000), DRAINED, third);
    assert [first, second, third][1..] == [second, third] && [second, third][1..] == [third];
    assert !AgreeAlong(l2, s2, [third]);
    assert !AgreeAlong(l1, s1, [second, third]);
  }

  function Drained(at: Duration): Bucket { Bucket(None, TokenState(Tokens(at, 0, 0))) }

  const DRAINED := ServerKey(0, 0, 0, 0, None)

  lemma OverCapacityOnOneKey()
    ensures var algo := TokenBucket(1, 1);
            var first, second, third := Sends(1, 0), Sends(2, 500_000_000), Sends(1, 1_000_000_000);
            && MyStep(NewBucket(0, algo), algo, first).0 == Drained(0)
            && TheirStep(NewServerKey(0, algo), algo, first).0 == DRAINED
            && MyStep(Drained(0), algo, second).0 == Drained(500_000_000)
            && TheirStep(DRAINED, algo, second).0 == DRAINED
            && !Agree(MyStep(Drained(500_000_000), algo, third).1, TheirStep(DRAINED, algo, third).1)
  {
    EarnedByHalves();
    hide CreditsAdded, RetryAfterForDeficit;
  }

  lemma EarnedByHalves()
    ensures CreditsAdded(500_000_000, 1) == 0 && CreditsAdded(1_000_000_000, 1) == 1
  {
    CreditsAddedExact(500_000_000, 1);
    CreditsAddedExact(1_000_000_000, 1);
    assert Earned(1, 500_000_000) == 0 && Earned(1, 1_000_000_000) == 1;
  }
}

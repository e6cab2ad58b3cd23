// src/token_bucket.rs: a credit pool with a sustained refill rate.
module TokenBucket {
  import opened Machine

  type Cost = x: int | 1 <= x <= U32_MAX witness 1

  // ----- exact arithmetic -----

  function CreditsAdded(delta: Duration, refillPerSec: u64): u64 {
    Min(SatMul128(delta, refillPerSec) / NANOS, U64_MAX)
  }

  function RetryAfterForDeficit(deficit: u64, refillPerSec: u64): Duration
    requires refillPerSec > 0
  {
    var nanos := CeilDiv(SatMul128(deficit, NANOS), refillPerSec);
    FromParts(nanos / NANOS, nanos % NANOS)
  }

  // Credits a rate earns over a time, in unbounded arithmetic.
  function Earned(rate: nat, d: nat): nat { rate * d / NANOS }

  lemma SaturatesAbove(delta: Duration, rate: u64)
    requires delta * rate > U128_MAX
    ensures SatMul128(delta, rate) / NANOS > U64_MAX && Earned(rate, delta) > U64_MAX
  {
    assert U128_MAX / NANOS > U64_MAX;
    assert rate * delta == delta * rate;
    FloorMono(U128_MAX, rate * delta, NANOS);
  }

  // Neither the 128-bit saturation nor the 64-bit clamp changes the count of credits.
  lemma CreditsAddedExact(delta: Duration, rate: u64)
    ensures CreditsAdded(delta, rate) == Min(Earned(rate, delta), U64_MAX)
  {
    assert rate * delta == delta * rate;
    if delta * rate > U128_MAX {
      SaturatesAbove(delta, rate);
    }
  }

  lemma RetryIsCeiling(deficit: u64, rate: u64)
    requires rate > 0
    ensures RetryAfterForDeficit(deficit, rate) == CeilDiv(deficit * NANOS, rate)
  {
    var num := deficit * NANOS;
    assert num <= U128_MAX;
    CeilAtMost(num, rate, num);
    assert num <= num * rate by { MulMono(1, rate, num); }
    PartsLossless(CeilDiv(num, rate));
  }

  // The wait is exact: it is the least delay after which the refill covers the deficit.
  lemma RetryExact(delta: Duration, deficit: u64, rate: u64)
    requires rate > 0
    ensures CreditsAdded(delta, rate) >= deficit <==> delta >= RetryAfterForDeficit(deficit, rate)
  {
    CreditsAddedExact(delta, rate);
    RetryIsCeiling(deficit, rate);
    assert rate * delta == delta * rate;
    FloorAtLeast(rate * delta, NANOS, deficit);
    CeilAtMost(deficit * NANOS, rate, delta);
  }

  lemma EarnedSplit(rate: nat, a: nat, b: nat)
    ensures Earned(rate, a) + Earned(rate, b) <= Earned(rate, a + b) <= Earned(rate, a) + Earned(rate, b) + 1
  {
    assert rate * (a + b) == rate * a + rate * b;
  }

  lemma EarnedInNoTime(rate: nat)
    ensures Earned(rate, 0) == 0
  {
  }

  lemma EarnedMono(lo: nat, hi: nat, a: nat, b: nat)
    requires lo <= hi && a <= b
    ensures Earned(lo, a) <= Earned(hi, b)
  {
    MulMono(lo, hi, a);
    MulMono(a, b, hi);
    FloorMono(lo * a, hi * b, NANOS);
  }

  // ----- the pool as a value -----

  datatype Tokens = Tokens(lastUpdate: Duration, credits: u64, inFlight: u64)

  datatype TokenReply = Taken | Refused(retryAfter: Duration)

  function NewTokens(now: Duration, capacity: u64): Tokens { Tokens(now, capacity, 0) }

  function Refill(s: Tokens, capacity: u64, rate: u64, now: Duration): Tokens {
    if now <= s.lastUpdate then s
    else if rate == 0 || capacity == 0 then Tokens(now, Min(s.credits, capacity), s.inFlight)
    else Tokens(now, Min(SatAdd64(s.credits, CreditsAdded(now - s.lastUpdate, rate)), capacity), s.inFlight)
  }

  function TakeTokens(s: Tokens, capacity: u64, rate: u64, cost: Cost, now: Duration): (Tokens, TokenReply) {
    var s := Refill(s, capacity, rate, now);
    if cost > capacity then (s, Refused(DURATION_MAX))
    else if s.credits >= cost then
      (s.(credits := s.credits - cost, inFlight := SatAdd64(s.inFlight, cost)), Taken)
    else if rate == 0 then (s, Refused(DURATION_MAX))
    else (s, Refused(RetryAfterForDeficit(cost - s.credits, rate)))
  }

  function RefundTokens(s: Tokens, capacity: u64, cost: Cost, now: Duration, rate: u64): Tokens {
    var s := Refill(s, capacity, rate, now);
    s.(inFlight := SatSub(s.inFlight, cost), credits := Min(WrapAdd64(s.credits, cost), capacity))
  }

  function SpendTokens(s: Tokens, cost: Cost): Tokens { s.(inFlight := SatSub(s.inFlight, cost)) }

  function ChangeCapacity(s: Tokens, oldCapacity: u64, newCapacity: u64): Tokens {
    if newCapacity >= oldCapacity then
      s.(credits := Min(SatAdd64(s.credits, newCapacity - oldCapacity), newCapacity))
    else s.(credits := Min(s.credits, newCapacity))
  }

  // ----- what a refill does -----

  lemma RefillExact(s: Tokens, capacity: u64, rate: u64, now: Duration)
    requires now > s.lastUpdate
    ensures Refill(s, capacity, rate, now)
         == Tokens(now, Min(s.credits + Earned(rate, now - s.lastUpdate), capacity), s.inFlight)
  {
    CreditsAddedExact(now - s.lastUpdate, rate);
  }

  lemma RefillKeepsOrder(x: Tokens, y: Tokens, k: nat, capacity: u64, rate: u64, now: Duration)
    requires x.lastUpdate == y.lastUpdate && x.credits <= y.credits <= x.credits + k
    ensures var x', y' := Refill(x, capacity, rate, now), Refill(y, capacity, rate, now);
            x'.lastUpdate == y'.lastUpdate && x'.credits <= y'.credits <= x'.credits + k
  {
    if now > x.lastUpdate {
      RefillExact(x, capacity, rate, now);
      RefillExact(y, capacity, rate, now);
    }
  }

  lemma RefillTwice(s: Tokens, capacity: u64, rate: u64, a: Duration, b: Duration)
    requires a <= b
    ensures var one, two := Refill(s, capacity, rate, b), Refill(Refill(s, capacity, rate, a), capacity, rate, b);
            one.lastUpdate == two.lastUpdate && two.credits <= one.credits <= two.credits + 1
  {
    if s.lastUpdate < a {
      RefillExact(s, capacity, rate, a);
      RefillExact(s, capacity, rate, b);
      if a < b {
        RefillExact(Refill(s, capacity, rate, a), capacity, rate, b);
        EarnedSplit(rate, a - s.lastUpdate, b - a);
      }
    }
  }

  predicate Nondecreasing(times: seq<Duration>) {
    forall i, j :: 0 <= i < j < |times| ==> times[i] <= times[j]
  }

  function RefillAt(s: Tokens, capacity: u64, rate: u64, times: seq<Duration>): Tokens {
    if times == [] then s
    else Refill(RefillAt(s, capacity, rate, times[..|times| - 1]), capacity, rate, times[|times| - 1])
  }

  // Refilling through k intermediate calls never earns more than one refill at the end,
  // and the floors lose at most one credit per intermediate call.
  lemma {:induction false} SplitRefillLosesAtMostOnePerCall(s: Tokens, capacity: u64, rate: u64, times: seq<Duration>)
    requires times != [] && Nondecreasing(times)
    ensures var split := RefillAt(s, capacity, rate, times);
            var once := Refill(s, capacity, rate, times[|times| - 1]);
            && split.lastUpdate == once.lastUpdate
            && split.credits <= once.credits <= split.credits + |times| - 1
  {
    if |times| == 1 {
      assert times[..0] == [];
    } else {
      var before := times[..|times| - 1];
      var last := times[|times| - 1];
      SplitRefillLosesAtMostOnePerCall(s, capacity, rate, before);
      var prev := Refill(s, capacity, rate, before[|before| - 1]);
      RefillKeepsOrder(RefillAt(s, capacity, rate, before), prev, |before| - 1, capacity, rate, last);
      RefillTwice(s, capacity, rate, before[|before| - 1], last);
    }
  }

  // ----- what reserving, refunding and spending do -----

  // After a denial for lack of credits, the same request succeeds at exactly the times from
  // `now + retryAfter` on.
  lemma TokenRetryExact(s: Tokens, capacity: u64, rate: u64, cost: Cost, now: Duration, t: Duration)
    requires s.lastUpdate <= now <= t
    requires cost <= capacity && rate > 0
    requires TakeTokens(s, capacity, rate, cost, now).1.Refused?
    ensures var (denied, reply) := TakeTokens(s, capacity, rate, cost, now);
            TakeTokens(denied, capacity, rate, cost, t).1.Taken? <==> t >= now + reply.retryAfter
  {
    var denied := Refill(s, capacity, rate, now);
    var deficit := cost - denied.credits;
    RetryExact(t - now, deficit, rate);
    if t == now {
      assert CreditsAdded(0, rate) == 0 by { assert SatMul128(0, rate) == 0; }
    }
  }

  // A refund gives back exactly its cost, clamped to the capacity, when the sum fits 64 bits -
  // and otherwise it destroys credits.
  lemma RefundRestoresIff(s: Tokens, capacity: u64, cost: Cost, now: Duration, rate: u64)
    requires Refill(s, capacity, rate, now).credits <= capacity
    ensures var c := Refill(s, capacity, rate, now).credits;
            RefundTokens(s, capacity, cost, now, rate).credits == Min(c + cost, capacity) <==> c + cost <= U64_MAX
  {
    var c := Refill(s, capacity, rate, now).credits;
    if c + cost > U64_MAX {
      assert WrapAdd64(c, cost) == c + cost - (U64_MAX + 1);
    }
  }

  // An increase of the capacity keeps what is missing from a full pool; a decrease only clamps.
  lemma CapacityChangeKeepsDeficit(s: Tokens, oldCapacity: u64, newCapacity: u64)
    requires s.credits <= oldCapacity
    ensures var s' := ChangeCapacity(s, oldCapacity, newCapacity);
            && s' == s.(credits := s'.credits)
            && (newCapacity >= oldCapacity ==> newCapacity - s'.credits == oldCapacity - s.credits)
            && (newCapacity < oldCapacity ==> s'.credits == Min(s.credits, newCapacity))
  {
  }

  // ----- the object the limiter updates in place -----

  class TokenBucketState {
    var lastUpdate: Duration
    var credits: u64
    var inFlight: u64

    ghost function Model(): Tokens
      reads this
    {
      Tokens(lastUpdate, credits, inFlight)
    }

    constructor (now: Duration, capacity: u64)
      ensures Model() == NewTokens(now, capacity)
    {
      lastUpdate, credits, inFlight := now, capacity, 0;
    }

    predicate HasOutstanding()
      reads this
    {
      inFlight != 0
    }

    method TryReserve(capacity: u64, refillPerSec: u64, cost: Cost, now: Duration) returns (reply: TokenReply)
      modifies this
      ensures (Model(), reply) == TakeTokens(old(Model()), capacity, refillPerSec, cost, now)
    {
      RefillTo(capacity, refillPerSec, now);
      if cost > capacity {
        return Refused(DURATION_MAX);
      }
      if credits >= cost {
        credits := credits - cost;
        inFlight := SatAdd64(inFlight, cost);
        return Taken;
      }
      if refillPerSec == 0 {
        return Refused(DURATION_MAX);
      }
      var deficit := cost - credits;
      reply := Refused(RetryAfterForDeficit(deficit, refillPerSec));
    }

    method Refund(capacity: u64, cost: Cost, now: Duration, refillPerSec: u64)
      modifies this
      ensures Model() == RefundTokens(old(Model()), capacity, cost, now, refillPerSec)
    {
      RefillTo(capacity, refillPerSec, now);
      inFlight := SatSub(inFlight, cost);
      credits := Min(WrapAdd64(credits, cost), capacity);
    }

    method Commit(cost: Cost)
      modifies this
      ensures Model() == SpendTokens(old(Model()), cost)
    {
      inFlight := SatSub(inFlight, cost);
    }

    method ApplyCapacityChange(oldCapacity: u64, newCapacity: u64)
      modifies this
      ensures Model() == ChangeCapacity(old(Model()), oldCapacity, newCapacity)
    {
      if newCapacity >= oldCapacity {
        var delta := newCapacity - oldCapacity;
        credits := Min(SatAdd64(credits, delta), newCapacity);
      } else {
        credits := Min(credits, newCapacity);
      }
    }

    method RefillTo(capacity: u64, refillPerSec: u64, now: Duration)
      modifies this
      ensures Model() == Refill(old(Model()), capacity, refillPerSec, now)
    {
      if now <= lastUpdate {
        return;
      }
      if refillPerSec == 0 || capacity == 0 {
        lastUpdate := now;
        credits := Min(credits, capacity);
        return;
      }
      var delta := now - lastUpdate;
      var add := CreditsAdded(delta, refillPerSec);
      credits := Min(SatAdd64(credits, add), capacity);
      lastUpdate := now;
    }
  }
}

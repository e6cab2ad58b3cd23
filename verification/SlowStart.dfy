// src/slow_start.rs: a linear ramp of the configured limit over `ramp` from `startedAt`.
module SlowStart {
  import opened Machine

  function EffectiveMax(max: u32, ramp: Duration, startedAt: Duration, now: Duration): u32 {
    if ramp == 0 then max
    else
      var elapsed := SatSub(now, startedAt);
      if elapsed >= ramp then max
      else (max * elapsed / ramp) % (U32_MAX + 1)
  }

  function EffectiveU64(max: u64, ramp: Duration, startedAt: Duration, now: Duration): u64 {
    if ramp == 0 then max
    else
      var elapsed := SatSub(now, startedAt);
      if elapsed >= ramp then max
      else Min(SatMul128(max, elapsed) / ramp, U64_MAX)
  }

  function DurationFromNanos(n: nat): Duration {
    var secs := n / NANOS;
    if secs > U64_MAX then DURATION_MAX else FromParts(secs, n % NANOS)
  }

  function RetryAfterForCost(max: u32, ramp: Duration, startedAt: Duration, now: Duration, cost: u32): Duration {
    if ramp == 0 || max == 0 then 0
    else
      var elapsed := SatSub(now, startedAt);
      if elapsed >= ramp then 0
      else if cost > max then SatSub(ramp, elapsed)
      else SatSub(DurationFromNanos(CeilDiv(cost * ramp, max)), elapsed)
  }

  function RetryAfterForCostU64(max: u64, ramp: Duration, startedAt: Duration, now: Duration, cost: u64): Duration {
    if ramp == 0 || max == 0 then 0
    else
      var elapsed := SatSub(now, startedAt);
      if elapsed >= ramp then 0
      else if cost > max then SatSub(ramp, elapsed)
      else SatSub(DurationFromNanos(CeilDiv(SatMul128(cost, ramp), max)), elapsed)
  }

  // ----- the ramp in unbounded arithmetic -----

  // Reaching `cost` on the ramp is a comparison of products.
  predicate Reaches(max: nat, ramp: nat, elapsed: nat, cost: nat) {
    elapsed >= ramp || max * elapsed >= cost * ramp
  }

  lemma RampBelowMax(max: nat, ramp: nat, elapsed: nat)
    requires elapsed < ramp
    ensures 0 <= max * elapsed / ramp <= max
  {
    MulMono(elapsed, ramp, max);
    FloorMono(0, max * elapsed, ramp);
    FloorMono(max * elapsed, max * ramp, ramp);
    FloorAtLeast(max * ramp, ramp, max + 1);
    assert (max + 1) * ramp == max * ramp + ramp;
  }

  lemma EffectiveMaxReaches(max: u32, ramp: Duration, startedAt: Duration, now: Duration, cost: u32)
    requires cost <= max
    ensures EffectiveMax(max, ramp, startedAt, now) >= cost
       <==> ramp == 0 || Reaches(max, ramp, SatSub(now, startedAt), cost)
  {
    var elapsed := SatSub(now, startedAt);
    if ramp != 0 && elapsed < ramp {
      RampBelowMax(max, ramp, elapsed);
      FloorAtLeast(max * elapsed, ramp, cost);
    }
  }

  // The saturated product is what the 64-bit ramp compares with.
  lemma EffectiveU64Reaches(max: u64, ramp: Duration, startedAt: Duration, now: Duration, cost: u64)
    requires cost <= max
    ensures var elapsed := SatSub(now, startedAt);
            EffectiveU64(max, ramp, startedAt, now) >= cost
            <==> (elapsed >= ramp || SatMul128(max, elapsed) >= cost * ramp)
  {
    var elapsed := SatSub(now, startedAt);
    if ramp != 0 && elapsed < ramp {
      FloorAtLeast(SatMul128(max, elapsed), ramp, cost);
    }
  }

  lemma NeededTime(max: nat, ramp: Duration, cost: nat, elapsed: nat)
    requires max > 0 && ramp > 0 && cost <= max
    ensures var needed := CeilDiv(cost * ramp, max);
            needed <= ramp && DurationFromNanos(needed) == needed
            && (elapsed >= needed <==> Reaches(max, ramp, elapsed, cost))
  {
    var needed := CeilDiv(cost * ramp, max);
    MulMono(cost, max, ramp);
    assert max * ramp == ramp * max;
    CeilAtMost(cost * ramp, max, ramp);
    CeilAtMost(cost * ramp, max, elapsed);
    assert max * elapsed == elapsed * max;
    PartsLossless(needed);
  }

  // The slow-start wait is exact: at a time `t` the effective limit has reached an achievable
  // cost if and only if `t` is at least `retryAfter` past `now`.
  lemma SlowStartRetryExact(max: u32, ramp: Duration, startedAt: Duration, now: Duration, cost: u32, t: Duration)
    requires 1 <= cost <= max && startedAt <= now <= t
    ensures (EffectiveMax(max, ramp, startedAt, t) >= cost)
        <==> (t >= now + RetryAfterForCost(max, ramp, startedAt, now, cost))
  {
    EffectiveMaxReaches(max, ramp, startedAt, t, cost);
    if ramp > 0 {
      NeededTime(max, ramp, cost, t - startedAt);
    }
  }

  // The same for the 64-bit ramp, where the product of cost and ramp fits 128 bits - even where the
  // product with the elapsed time does not.
  lemma SlowStartRetryExactU64(max: u64, ramp: Duration, startedAt: Duration, now: Duration, cost: u64, t: Duration)
    requires 1 <= cost <= max && startedAt <= now <= t && cost * ramp <= U128_MAX
    ensures (EffectiveU64(max, ramp, startedAt, t) >= cost)
        <==> (t >= now + RetryAfterForCostU64(max, ramp, startedAt, now, cost))
  {
    EffectiveU64Reaches(max, ramp, startedAt, t, cost);
    if ramp > 0 {
      NeededTime(max, ramp, cost, t - startedAt);
    }
  }

  // A request's 32-bit cost always does.
  lemma SmallCostFits(ramp: Duration, cost: u32)
    ensures cost * ramp <= U128_MAX
  {
    MulMono(cost, U32_MAX, ramp);
    assert U32_MAX * DURATION_MAX <= U128_MAX;
  }

  // Where that product does not fit, the limit reaches the cost only at the end of the ramp, but the
  // wait is worked out from the saturated product and ends early.
  lemma SaturatedCost(max: u64, ramp: Duration, startedAt: Duration, now: Duration, cost: u64, t: Duration)
    requires 1 <= cost <= max && startedAt <= now <= t && cost * ramp > U128_MAX && now < startedAt + ramp
    ensures EffectiveU64(max, ramp, startedAt, t) >= cost <==> t >= startedAt + ramp
    ensures var needed := CeilDiv(U128_MAX, max);
            && now + RetryAfterForCostU64(max, ramp, startedAt, now, cost) == Max(now, startedAt + needed)
            && needed <= ramp && (needed < ramp <==> U128_MAX <= max * (ramp - 1))
  {
    EffectiveU64Reaches(max, ramp, startedAt, t, cost);
    MulMono(cost, max, ramp);
    assert max * ramp == ramp * max && max * (ramp - 1) == (ramp - 1) * max;
    CeilAtMost(U128_MAX, max, ramp);
    CeilAtMost(U128_MAX, max, ramp - 1);
    PartsLossless(CeilDiv(U128_MAX, max));
  }

  // For every 64-bit cost: the wait is exact at all times if and only if the product fits, or the ramp
  // is over, or the saturated product still comes to the whole ramp, or the clock ends before it does.
  lemma SlowStartRetryExactU64Iff(max: u64, ramp: Duration, startedAt: Duration, now: Duration, cost: u64)
    requires 1 <= cost <= max && startedAt <= now
    ensures (forall t: Duration :: t >= now ==>
               (EffectiveU64(max, ramp, startedAt, t) >= cost
                <==> t >= now + RetryAfterForCostU64(max, ramp, startedAt, now, cost)))
       <==> || cost * ramp <= U128_MAX
            || now >= startedAt + ramp
            || max * (ramp - 1) < U128_MAX
            || startedAt + CeilDiv(U128_MAX, max) > DURATION_MAX
  {
    hide EffectiveU64, RetryAfterForCostU64, CeilDiv, DurationFromNanos;
    var wait := RetryAfterForCostU64(max, ramp, startedAt, now, cost);
    if cost * ramp <= U128_MAX {
      forall t: Duration | t >= now ensures EffectiveU64(max, ramp, startedAt, t) >= cost <==> t >= now + wait {
        SlowStartRetryExactU64(max, ramp, startedAt, now, cost, t);
      }
    } else if now >= startedAt + ramp {
      forall t: Duration | t >= now ensures EffectiveU64(max, ramp, startedAt, t) >= cost <==> t >= now + wait {
        RampOver(max, ramp, startedAt, now, cost, t);
      }
    } else {
      forall t: Duration | t >= now ensures EffectiveU64(max, ramp, startedAt, t) >= cost <==> t >= startedAt + ramp {
        SaturatedCost(max, ramp, startedAt, now, cost, t);
      }
      SaturatedCost(max, ramp, startedAt, now, cost, now);
      if now + wait <= DURATION_MAX && now + wait < startedAt + ramp {
        var early: Duration := now + wait;
        assert EffectiveU64(max, ramp, startedAt, early) < cost;
      }
    }
  }

  // The ramp starts from nothing, and a ramp of no length is none.
  lemma RampEnds(max: u64, ramp: Duration, startedAt: Duration, t: Duration)
    ensures EffectiveU64(max, ramp, startedAt, startedAt) == if ramp == 0 then max else 0
    ensures ramp == 0 ==> EffectiveU64(max, ramp, startedAt, t) == max
  {
    assert SatMul128(max, 0) == 0;
  }

  lemma RampOver(max: u64, ramp: Duration, startedAt: Duration, now: Duration, cost: u64, t: Duration)
    requires 1 <= cost <= max && startedAt + ramp <= now <= t
    ensures EffectiveU64(max, ramp, startedAt, t) >= cost && RetryAfterForCostU64(max, ramp, startedAt, now, cost) == 0
  {
  }

  // The ramp is the exact line, rounded down, wherever its product fits 128 bits - and always for the
  // 32-bit limit.
  function Line(limit: nat, ramp: nat, elapsed: nat): nat {
    if elapsed >= ramp then limit else limit * elapsed / ramp
  }

  lemma RampIsLine(max: u64, ramp: Duration, startedAt: Duration, now: Duration)
    ensures max <= U32_MAX ==> EffectiveMax(max, ramp, startedAt, now) == Line(max, ramp, SatSub(now, startedAt))
    ensures max * SatSub(now, startedAt) <= U128_MAX ==>
              EffectiveU64(max, ramp, startedAt, now) == Line(max, ramp, SatSub(now, startedAt))
  {
    var elapsed := SatSub(now, startedAt);
    if elapsed < ramp {
      RampBelowMax(max, ramp, elapsed);
    }
  }

  // Before its start the ramp names the wait it names at its start.
  lemma WaitBeforeStart(max: u64, ramp: Duration, startedAt: Duration, now: Duration, cost: u64)
    requires now <= startedAt
    ensures max <= U32_MAX && cost <= U32_MAX ==>
              RetryAfterForCost(max, ramp, startedAt, now, cost)
              == RetryAfterForCost(max, ramp, startedAt, startedAt, cost)
    ensures RetryAfterForCostU64(max, ramp, startedAt, now, cost)
         == RetryAfterForCostU64(max, ramp, startedAt, startedAt, cost)
  {
  }

  // The effective limits only grow, and never pass the configured limit.
  lemma EffectiveLimitsMonotone(max: u64, ramp: Duration, startedAt: Duration, a: Duration, b: Duration)
    requires a <= b
    ensures EffectiveU64(max, ramp, startedAt, a) <= EffectiveU64(max, ramp, startedAt, b) <= max
    ensures max <= U32_MAX ==> EffectiveMax(max, ramp, startedAt, a) <= EffectiveMax(max, ramp, startedAt, b) <= max
  {
    var ea, eb := SatSub(a, startedAt), SatSub(b, startedAt);
    if ramp > 0 && ea < ramp {
      RampBelowMax(max, ramp, ea);
      FloorMono(SatMul128(max, ea), max * ea, ramp);
      if eb < ramp {
        RampBelowMax(max, ramp, eb);
        MulMono(ea, eb, max);
        FloorMono(max * ea, max * eb, ramp);
        FloorMono(SatMul128(max, ea), SatMul128(max, eb), ramp);
        FloorMono(SatMul128(max, eb), max * eb, ramp);
      }
    }
  }
}

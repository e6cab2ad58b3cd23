// The machine arithmetic the limiter is written in: fixed-width unsigned integers,
// saturating operators and `std::time::Duration` as a bounded number of nanoseconds.
module Machine {
  const U32_MAX: int := 0xFFFF_FFFF
  const U64_MAX: int := 0xFFFF_FFFF_FFFF_FFFF
  const U128_MAX: int := 0xFFFF_FFFF_FFFF_FFFF_FFFF_FFFF_FFFF_FFFF
  const NANOS: int := 1_000_000_000
  const NANOS_PER_MILLI: int := 1_000_000
  // u64::MAX seconds and 999_999_999 nanoseconds
  const DURATION_MAX: int := 0xFFFF_FFFF_FFFF_FFFF * 1_000_000_000 + 999_999_999

  type u32 = x: int | 0 <= x <= U32_MAX
  type u64 = x: int | 0 <= x <= U64_MAX
  type Duration = x: int | 0 <= x <= DURATION_MAX

  datatype Option<+T> = None | Some(value: T)

  function Min(a: int, b: int): int { if a <= b then a else b }

  function Max(a: int, b: int): int { if a <= b then b else a }

  function SatAdd32(a: u32, b: u32): u32 { Min(a + b, U32_MAX) }

  function SatAdd64(a: u64, b: u64): u64 { Min(a + b, U64_MAX) }

  function SatSub(a: nat, b: nat): nat { Max(a - b, 0) }

  function SatMul128(a: nat, b: nat): nat { Min(a * b, U128_MAX) }

  // Addition of two u64 values without overflow check, as a release build compiles it.
  function WrapAdd64(a: u64, b: u64): u64 { (a + b) % (U64_MAX + 1) }

  function Later(d: Duration, wait: Duration): Duration { Min(d + wait, DURATION_MAX) }

  function CeilDiv(a: nat, b: nat): nat
    requires b > 0
  {
    if a % b == 0 then a / b else a / b + 1
  }

  // `Duration::new(secs as u64, nanos)`: the cast drops the high bits of the seconds.
  function FromParts(secs: nat, nanos: nat): Duration
    requires nanos < NANOS
  {
    (secs % (U64_MAX + 1)) * NANOS + nanos
  }

  // The times of a trace start no earlier than `clock` and do not go back.
  predicate Timely<T>(clock: Duration, trace: seq<T>, at: T -> Duration)
    decreases |trace|
  {
    trace == [] || (clock <= at(trace[0]) && Timely(at(trace[0]), trace[1..], at))
  }

  // A nanosecond count that fits a Duration survives being split in seconds and nanoseconds.
  lemma PartsLossless(n: nat)
    requires n <= DURATION_MAX
    ensures FromParts(n / NANOS, n % NANOS) == n
  {
  }

  // ----- division facts, stated once and used by name -----

  lemma MulMono(a: int, b: int, c: int)
    requires a <= b && 0 <= c
    ensures a * c <= b * c
  {
  }

  lemma FloorAtLeast(x: int, n: int, k: int)
    requires n > 0
    ensures x / n >= k <==> x >= k * n
  {
    var q := x / n;
    assert x == q * n + x % n;
    if q >= k {
      MulMono(k, q, n);
    } else {
      MulMono(q + 1, k, n);
      assert (q + 1) * n == q * n + n;
    }
  }

  lemma CeilAtMost(y: nat, r: nat, d: nat)
    requires r > 0
    ensures CeilDiv(y, r) <= d <==> y <= d * r
  {
    var q := y / r;
    assert y == q * r + y % r;
    if d >= q + 1 {
      MulMono(q + 1, d, r);
      assert (q + 1) * r == q * r + r;
    } else {
      MulMono(d, q, r);
      if d == q {
      } else {
        MulMono(d + 1, q, r);
        assert (d + 1) * r == d * r + r;
      }
    }
  }

  lemma FloorMono(x: int, y: int, n: int)
    requires n > 0 && x <= y
    ensures x / n <= y / n
  {
    FloorAtLeast(x, n, x / n);
    FloorAtLeast(y, n, x / n);
  }

  lemma MultiplesApart(i: int, j: int, w: int)
    requires w > 0 && i < j
    ensures i * w + w <= j * w
  {
    MulMono(i + 1, j, w);
    assert (i + 1) * w == i * w + w;
  }

  lemma FloorToMultiple(n: nat, w: int)
    requires w > 0
    ensures n / w * w <= n < n / w * w + w
    ensures n / w * w / w == n / w
  {
    var q := n / w;
    FloorAtLeast(n, w, q);
    FloorAtLeast(n, w, q + 1);
    assert (q + 1) * w == q * w + w;
    FloorAtLeast(q * w, w, q);
    FloorAtLeast(q * w, w, q + 1);
  }
}

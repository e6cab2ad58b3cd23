// src/bucket.rs, window arithmetic: aligned windows on the caller's clock.
module Windows {
  import opened Machine
  import opened Types

  predicate Aligned(t: Duration, w: Window) { t == t / w * w }

  // The start of the window that holds `now`: the only aligned time within one window before it.
  function WindowStartFor(now: Duration, w: Window): (start: Duration)
    ensures Aligned(start, w) && start <= now < start + w
  {
    FloorToMultiple(now, w);
    var start := now / w * w;
    PartsLossless(start);
    FromParts(start / NANOS, start % NANOS)
  }

  lemma OnlyWindow(t: Duration, now: Duration, w: Window)
    requires Aligned(t, w) && t <= now < t + w
    ensures WindowStartFor(now, w) == t
  {
    var s := WindowStartFor(now, w);
    var i, j := t / w, s / w;
    if i < j {
      MultiplesApart(i, j, w);
    } else if j < i {
      MultiplesApart(j, i, w);
    }
  }

  lemma LaterWindow(t: Duration, now: Duration, w: Window)
    requires Aligned(t, w) && t + w <= now
    ensures WindowStartFor(now, w) >= t + w
  {
    var s := WindowStartFor(now, w);
    var i, j := t / w, s / w;
    if j <= i {
      MulMono(j, i, w);
    } else {
      MultiplesApart(i, j, w);
    }
  }

  lemma WindowStartMonotone(a: Duration, b: Duration, w: Window)
    requires a <= b
    ensures WindowStartFor(a, w) <= WindowStartFor(b, w)
  {
    var s := WindowStartFor(a, w);
    if b < s + w {
      OnlyWindow(s, b, w);
    } else {
      LaterWindow(s, b, w);
    }
  }
}

// Rate bounds of the fixed-window algorithm over whole runs, with slow start, refunds, held
// reservations, evictions and changes of the maximum all in play.
module WindowBounds {
  import opened Machine
  import opened TokenBucket
  import opened Types
  import opened Windows
  import opened Buckets
  import opened Limiters
  import opened Ledgers
  import opened KeyTable
  import opened Worlds
  import opened Accounting

  // Permits charged to the window that starts at `start`.
  function ChargedTo(start: Duration): Permit -> bool { (p: Permit) => p.windowStart == start }

  // Permits issued in the real window that starts at `start`.
  function IssuedIn(start: Duration, win: Window): Permit -> bool {
    (p: Permit) => WindowStartFor(p.issuedAt, win) == start
  }

  // Net cost in a bucket's lifetime: issued, less what was refunded or not sent.
  function NetCost(c: Cell, f: Permit -> bool): nat { CostIf(c.outs, f) + CostIf(c.life.spent, f) }

  predicate InNet(c: Cell, p: Permit) { p in c.outs || p in c.life.spent }

  // ----- one bucket -----

  // The permit was charged to a window no later than its own, and a window that the bucket has left
  // was left for one no earlier than the permit's.
  predicate Placed(p: Permit, start: Duration, win: Window, clock: Duration) {
    && p.issuedAt <= clock
    && p.windowStart <= start
    && p.windowStart <= WindowStartFor(p.issuedAt, win)
    && (p.windowStart == start || WindowStartFor(p.issuedAt, win) <= start)
  }

  // Of the permits issued in one real window, all that are charged to an earlier one are charged to
  // the same earlier one.
  predicate SameCarry(p: Permit, q: Permit, win: Window) {
    var own := WindowStartFor(p.issuedAt, win);
    own == WindowStartFor(q.issuedAt, win) && p.windowStart < own && q.windowStart < own
    ==> p.windowStart == q.windowStart
  }

  ghost predicate WindowOk(c: Cell, max: u32, win: Window, clock: Duration) {
    && c.b.algo.FixedState?
    && var f := c.b.algo.f;
       && Aligned(f.windowStart, win)
       && f.windowStart <= clock
       && f.reserved == TotalCost(c.outs)
       && f.spent == CostIf(c.life.spent, ChargedTo(f.windowStart))
       && f.reserved + f.spent <= max
       && (forall p :: p in c.outs ==> PermitFits(c.b, p))
       && (forall start :: CostIf(c.life.spent, ChargedTo(start)) <= max)
       && (forall p :: InNet(c, p) ==> Placed(p, f.windowStart, win, clock))
       && (forall p, q :: InNet(c, p) && InNet(c, q) ==> SameCarry(p, q, win))
  }

  predicate WindowEvent(c: Cell, e: Event, max: u32, win: Window, now: Duration) {
    match e
    case Taking(algo, _, t) => algo.FixedWindow? && algo.maxPerWindow <= max && algo.window == win && t == now
    case Committing(p, _, algo, t) => algo.FixedWindow? && algo.window == win && p in c.outs && t == now
    case Refunding(p, algo, t) => algo.FixedWindow? && algo.window == win && p in c.outs && t == now
    case Updating(before, after, _) =>
      before.FixedWindow? && after.FixedWindow? && before.window == after.window
    case _ => true
  }

  lemma WindowOkAtBirth(now: Duration, algo: Algorithm)
    requires algo.FixedWindow?
    ensures WindowOk(NewCell(now, algo), algo.maxPerWindow, algo.window, now)
  {
  }

  // Bringing the window up to date.
  lemma ResetKeepsWindow(c: Cell, max: u32, win: Window, clock: Duration, now: Duration)
    requires WindowOk(c, max, win, clock) && clock <= now < DURATION_MAX
    ensures var f := MaybeReset(c.b.algo.f, now, win);
            && WindowOk(c.(b := c.b.(algo := FixedState(f))), max, win, now)
            && f.reserved == c.b.algo.f.reserved
            && (f.reserved == 0 ==> f.windowStart == WindowStartFor(now, win))
            && f.windowStart <= WindowStartFor(now, win)
  {
    hide WindowStartFor, Aligned;
    var f := c.b.algo.f;
    NoCostNoPermit(c.outs);
    if now < f.windowStart + win {
      OnlyWindow(f.windowStart, now, win);
    } else {
      LaterWindow(f.windowStart, now, win);
      if f.reserved == 0 {
        var start := WindowStartFor(now, win);
        CostIfNone(c.life.spent, ChargedTo(start)) by {
          forall p | p in c.life.spent ensures !ChargedTo(start)(p) { assert InNet(c, p); }
        }
        forall p | InNet(c, p) ensures Placed(p, start, win, now) {
          WindowStartMonotone(p.issuedAt, now, win);
        }
      }
    }
  }

  // A new permit is charged to the bucket's window and fits beside the earlier ones.
  lemma NewPermitPlaced(c: Cell, p: Permit, max: u32, win: Window, now: Duration)
    requires WindowOk(c, max, win, now) && c.b.algo.f.windowStart <= WindowStartFor(now, win)
    requires p.windowStart == c.b.algo.f.windowStart && p.issuedAt == now
    ensures Placed(p, c.b.algo.f.windowStart, win, now)
    ensures forall q :: InNet(c, q) ==> SameCarry(p, q, win) && SameCarry(q, p, win)
  {
    hide WindowStartFor, Aligned;
  }

  lemma TakingKeepsWindow(c: Cell, key: Key, e: Event, max: u32, win: Window, clock: Duration, now: Duration)
    requires WindowOk(c, max, win, clock) && clock <= now < DURATION_MAX
    requires e.Taking? && WindowEvent(c, e, max, win, now)
    ensures WindowOk(CellStep(c, key, e), max, win, now)
  {
    hide WindowStartFor, Aligned, MaybeReset, TakeFromWindow, SameCarry, Reserve, TotalCost, CostIf, Placed;
    ReserveShape(c.b, key, e.algo, e.cost, e.now);
    ResetKeepsWindow(c, max, win, clock, now);
    var f := c.b.algo.f;
    var f0 := MaybeReset(f, now, win);
    var c0 := c.(b := c.b.(algo := FixedState(f0)));
    var attempt := Reserve(c.b, key, e.algo, e.cost, now).1;
    TakingFixed(f, key, e.algo.maxPerWindow, win, e.cost, now);
    ReserveIssues(c.b, key, e.algo, e.cost, now);
    var c' := CellStep(c, key, e);
    if attempt.Denied? && c'.b.algo == c.b.algo {
      WindowOkLater(c, c', max, win, clock, now);
    }
    if attempt.Granted? {
      Append(c.outs, attempt.permit);
      NewPermitPlaced(c0, attempt.permit, max, win, now);
      assert forall p :: InNet(c', p) <==> InNet(c0, p) || p == attempt.permit;
      assert SameCarry(attempt.permit, attempt.permit, win) by { CarriesWithItself(attempt.permit, win); }
    }
  }

  lemma CarriesWithItself(p: Permit, win: Window)
    ensures SameCarry(p, p, win)
  {
  }

  // Finalising moves a permit's cost from `reserved` to `spent`, or drops it.
  lemma FinishMoves(c: Cell, key: Key, e: Event, max: u32, win: Window, clock: Duration, now: Duration)
    requires WindowOk(c, max, win, clock)
    requires (e.Committing? || e.Refunding?) && WindowEvent(c, e, max, win, now)
    ensures var c' := CellStep(c, key, e);
            var f := c.b.algo.f;
            var sent := e.Committing? && !e.outcome.NotSent?;
            && e.p.windowStart == f.windowStart && e.p.cost <= f.reserved
            && c'.b.algo
                 == FixedState(Fixed(f.windowStart, f.reserved - e.p.cost, f.spent + (if sent then e.p.cost else 0)))
            && c'.outs == RemoveOne(c.outs, e.p)
            && c'.life.spent == if sent then c.life.spent + [e.p] else c.life.spent
  {
    hide WindowStartFor, Aligned, SameCarry, Placed;
    CostAtLeast(c.outs, e.p);
    assert PermitFits(c.b, e.p);
  }

  lemma ReleaseKeepsWindow(c: Cell, c': Cell, p: Permit, max: u32, win: Window, clock: Duration, now: Duration)
    requires WindowOk(c, max, win, clock) && clock <= now && p in c.outs && p.cost <= c.b.algo.f.reserved
    requires c'.b.algo == FixedState(c.b.algo.f.(reserved := c.b.algo.f.reserved - p.cost))
    requires c'.outs == RemoveOne(c.outs, p) && c'.life.spent == c.life.spent
    ensures WindowOk(c', max, win, now)
  {
    hide WindowStartFor, Aligned, SameCarry;
    Removed(c.outs, p);
    assert forall q :: InNet(c', q) ==> InNet(c, q);
  }

  lemma SpendKeepsWindow(c: Cell, c': Cell, p: Permit, max: u32, win: Window, clock: Duration, now: Duration)
    requires WindowOk(c, max, win, clock) && clock <= now && p in c.outs && p.cost <= c.b.algo.f.reserved
    requires c'.b.algo == FixedState(Fixed(p.windowStart, c.b.algo.f.reserved - p.cost, c.b.algo.f.spent + p.cost))
    requires c'.outs == RemoveOne(c.outs, p) && c'.life.spent == c.life.spent + [p]
    ensures WindowOk(c', max, win, now)
  {
    hide WindowStartFor, Aligned, SameCarry;
    assert PermitFits(c.b, p);
    Removed(c.outs, p);
    assert forall q :: InNet(c', q) ==> InNet(c, q);
    forall start ensures CostIf(c'.life.spent, ChargedTo(start))
                      == CostIf(c.life.spent, ChargedTo(start)) + (if start == p.windowStart then p.cost else 0)
    {
      AppendIf(c.life.spent, p, ChargedTo(start));
    }
  }

  lemma FinishKeepsWindow(c: Cell, key: Key, e: Event, max: u32, win: Window, clock: Duration, now: Duration)
    requires WindowOk(c, max, win, clock) && clock <= now
    requires (e.Committing? || e.Refunding?) && WindowEvent(c, e, max, win, now)
    ensures WindowOk(CellStep(c, key, e), max, win, now)
  {
    var sent := e.Committing? && !e.outcome.NotSent?;
    FinishMoves(c, key, e, max, win, clock, now);
    hide WindowOk, CellStep;
    if sent {
      SpendKeepsWindow(c, CellStep(c, key, e), e.p, max, win, clock, now);
    } else {
      ReleaseKeepsWindow(c, CellStep(c, key, e), e.p, max, win, clock, now);
    }
  }

  // The invariant does not depend on the block, and survives the passing of time.
  lemma WindowOkLater(c: Cell, c': Cell, max: u32, win: Window, clock: Duration, now: Duration)
    requires WindowOk(c, max, win, clock) && clock <= now
    requires c'.b.algo == c.b.algo && c'.outs == c.outs && c'.life.spent == c.life.spent
    ensures WindowOk(c', max, win, now)
  {
    hide WindowStartFor, Aligned, SameCarry;
    assert forall p :: InNet(c', p) <==> InNet(c, p);
  }

  lemma EventKeepsWindow(c: Cell, key: Key, e: Event, max: u32, win: Window, clock: Duration, now: Duration)
    requires WindowOk(c, max, win, clock) && clock <= now < DURATION_MAX
    requires WindowEvent(c, e, max, win, now)
    ensures WindowOk(CellStep(c, key, e), max, win, now)
  {
    hide WindowOk, Buckets.Commit, Buckets.Refund, Reserve;
    match e
    case Taking(_, _, _) => TakingKeepsWindow(c, key, e, max, win, clock, now);
    case Committing(_, _, _, _) => FinishKeepsWindow(c, key, e, max, win, clock, now);
    case Refunding(_, _, _) => FinishKeepsWindow(c, key, e, max, win, clock, now);
    case _ =>
      assert c.b.algo.FixedState? by { WindowOkIsFixed(c, max, win, clock); }
      WindowOkLater(c, CellStep(c, key, e), max, win, clock, now);
  }

  lemma WindowOkIsFixed(c: Cell, max: u32, win: Window, clock: Duration)
    requires WindowOk(c, max, win, clock)
    ensures c.b.algo.FixedState?
  {
  }

  // ----- what the invariant bounds -----

  // At most `max` is ever charged to one window.
  lemma ChargedAtMostMax(c: Cell, max: u32, win: Window, clock: Duration, start: Duration)
    requires WindowOk(c, max, win, clock)
    ensures NetCost(c, ChargedTo(start)) <= max
  {
    var f := c.b.algo.f;
    forall p | p in c.outs ensures p.windowStart == f.windowStart { assert PermitFits(c.b, p); }
    if start == f.windowStart {
      CostIfAll(c.outs, ChargedTo(start));
    } else {
      CostIfNone(c.outs, ChargedTo(start));
    }
  }

  // The counters are the ledger: what is charged to the bucket's window is what it counts.
  lemma ChargedIsCounted(c: Cell, max: u32, win: Window, clock: Duration)
    requires WindowOk(c, max, win, clock)
    ensures var f := c.b.algo.f; NetCost(c, ChargedTo(f.windowStart)) == f.reserved + f.spent
  {
    var f := c.b.algo.f;
    forall p | p in c.outs ensures ChargedTo(f.windowStart)(p) { assert PermitFits(c.b, p); }
    CostIfAll(c.outs, ChargedTo(f.windowStart));
  }

  // The limiter neither over- nor under-admits: past the bucket's backoff, a cost is granted if and
  // only if it fits beside what is already charged to the window it would be charged to.
  lemma CellAdmitsIffItFits(c: Cell, key: Key, algo: Algorithm, cost: Cost, max: u32, win: Window,
                        clock: Duration, now: Duration)
    requires WindowOk(c, max, win, clock) && clock <= now < DURATION_MAX
    requires algo.FixedWindow? && algo.window == win
    requires c.b.blockedUntil.None? || c.b.blockedUntil.value <= now
    ensures var start := MaybeReset(c.b.algo.f, now, win).windowStart;
            Reserve(c.b, key, algo, cost, now).1.Granted?
            <==> (NetCost(c, ChargedTo(start)) + cost <= algo.maxPerWindow)
  {
    hide WindowStartFor, Aligned, SameCarry, Placed, WindowOk, MaybeReset;
    WindowOkIsFixed(c, max, win, clock);
    ResetKeepsWindow(c, max, win, clock, now);
    var f := MaybeReset(c.b.algo.f, now, win);
    var c0 := c.(b := c.b.(algo := FixedState(f)));
    ChargedIsCounted(c0, max, win, now);
    FitsInCounters(c0, max, win, now);
  }

  // A permit expires with the window it is charged to; it is issued before its deadline if and only
  // if that is the real window of its issue.
  lemma CellDeadlineIsWindowEnd(c: Cell, key: Key, algo: Algorithm, cost: Cost, max: u32, win: Window,
                            clock: Duration, now: Duration)
    requires WindowOk(c, max, win, clock) && clock <= now < DURATION_MAX
    requires algo.FixedWindow? && algo.window == win
    requires Reserve(c.b, key, algo, cost, now).1.Granted?
    ensures var p := Reserve(c.b, key, algo, cost, now).1.permit;
            && (p.windowStart + win <= DURATION_MAX ==> p.deadline == p.windowStart + win)
            && (now < p.deadline <==> p.windowStart == WindowStartFor(now, win))
  {
    hide WindowStartFor, Aligned, SameCarry, Placed;
    ResetKeepsWindow(c, max, win, clock, now);
    var f := MaybeReset(c.b.algo.f, now, win);
    if now < f.windowStart + win {
      OnlyWindow(f.windowStart, now, win);
    } else {
      LaterWindow(f.windowStart, now, win);
    }
  }

  lemma FitsInCounters(c: Cell, max: u32, win: Window, clock: Duration)
    requires WindowOk(c, max, win, clock)
    ensures c.b.algo.f.reserved + c.b.algo.f.spent <= U32_MAX
  {
  }

  // At most `2 * max` is ever issued in one real window: what is charged to it, and what is charged
  // to the one earlier window that held reservations kept open.
  lemma IssuedAtMostTwiceMax(c: Cell, max: u32, win: Window, clock: Duration, start: Duration)
    requires WindowOk(c, max, win, clock)
    ensures NetCost(c, IssuedIn(start, win)) <= 2 * max
  {
    hide WindowStartFor, Aligned;
    var issued, own := IssuedIn(start, win), ChargedTo(start);
    ChargedAtMostMax(c, max, win, clock, start);
    if p :| InNet(c, p) && issued(p) && !own(p) {
      var carried := ChargedTo(p.windowStart);
      forall q | InNet(c, q) && issued(q) ensures own(q) || carried(q) {
        assert Placed(p, c.b.algo.f.windowStart, win, clock) && Placed(q, c.b.algo.f.windowStart, win, clock);
        assert SameCarry(p, q, win);
      }
      CostIfCovered(c.outs, issued, own, carried);
      CostIfCovered(c.life.spent, issued, own, carried);
      ChargedAtMostMax(c, max, win, clock, p.windowStart);
    } else {
      forall q | InNet(c, q) && issued(q) ensures own(q) {}
      CostIfWeaker(c.outs, issued, own);
      CostIfWeaker(c.life.spent, issued, own);
    }
  }

  // ----- every bucket of every run -----

  // The window is fixed at `win`, no configured maximum passes `max`, the clock does not go back
  // and stays below Duration::MAX.
  predicate SteadyWindow(w: World, op: Op, max: u32, win: Window) {
    && w.clock <= op.now < DURATION_MAX
    && BoundedBy(w.lim.cfg.algorithm, max, win)
    && (op.Update? ==> BoundedBy(op.cfg.algorithm, max, win))
  }

  predicate BoundedBy(algo: Algorithm, max: u32, win: Window) {
    algo.FixedWindow? && algo.window == win && algo.maxPerWindow <= max
  }

  ghost predicate WindowsOk(w: World, max: u32, win: Window) {
    && Accounted(w)
    && forall k :: k in w.lim.buckets ==> WindowOk(CellOf(w, k), max, win, w.clock)
  }

  lemma SteadyEvent(w: World, op: Op, key: Key, max: u32, win: Window)
    requires Accounted(w) && Legal(w, op) && SteadyWindow(w, op, max, win) && key in Step(w, op).lim.buckets
    ensures WindowEvent(CellBefore(w, op, key), EventFor(w, op, key), max, win, op.now)
  {
    hide Step, CellOk, TableOk, EffectiveAlgorithm, UpdateConfig, PassesGates;
    RunEventFits(w, op, key);
    EffectiveWithin(w.lim.cfg, w.lim.startedAt, op.now);
  }

  lemma CellKeepsWindow(w: World, op: Op, key: Key, max: u32, win: Window)
    requires WindowsOk(w, max, win) && Legal(w, op) && SteadyWindow(w, op, max, win)
    requires key in Step(w, op).lim.buckets && key in Step(w, op).lives
    ensures WindowOk(CellOf(Step(w, op), key), max, win, op.now)
  {
    hide Step, Legal, CellOk, CellStep, EventFor, WindowOk, WindowEvent, TableOk;
    StepCell(w, op, key);
    SteadyEvent(w, op, key, max, win);
    var c := CellBefore(w, op, key);
    if key !in w.lim.buckets {
      WindowOkAtBirth(op.now, w.lim.cfg.algorithm);
      RaiseMax(c, w.lim.cfg.algorithm.maxPerWindow, max, win, op.now);
      EventKeepsWindow(c, key, EventFor(w, op, key), max, win, op.now, op.now);
    } else {
      EventKeepsWindow(c, key, EventFor(w, op, key), max, win, w.clock, op.now);
    }
  }

  lemma RaiseMax(c: Cell, lower: u32, max: u32, win: Window, clock: Duration)
    requires WindowOk(c, lower, win, clock) && lower <= max
    ensures WindowOk(c, max, win, clock)
  {
    hide WindowStartFor, Aligned, SameCarry, Placed;
  }

  lemma StepKeepsWindows(w: World, op: Op, max: u32, win: Window)
    requires WindowsOk(w, max, win) && Legal(w, op) && SteadyWindow(w, op, max, win)
    ensures WindowsOk(Step(w, op), max, win)
  {
    hide Legal, CellOk, CellOf, WindowOk, TryAcquire, ApplyFeedback, UpdateConfig, CommitPermit, RefundPermit, TableOk;
    StepAccounted(w, op);
    assert Step(w, op).clock == op.now;
    forall k | k in Step(w, op).lim.buckets ensures WindowOk(CellOf(Step(w, op), k), max, win, op.now) {
      CellKeepsWindow(w, op, k, max, win);
    }
  }

  lemma {:induction false} RunKeepsWindows(w: World, ops: seq<Op>, c: (World, Op) -> bool, max: u32, win: Window)
    requires WindowsOk(w, max, win) && Along(w, ops, c)
    requires forall w, op :: c(w, op) ==> SteadyWindow(w, op, max, win)
    ensures WindowsOk(Run(w, ops), max, win)
    decreases |ops|
  {
    hide WindowsOk, SteadyWindow, Step, Legal;
    if ops != [] {
      StepKeepsWindows(w, ops[0], max, win);
      RunKeepsWindows(Step(w, ops[0]), ops[1..], c, max, win);
    }
  }

  // In every run: the net cost charged to any one window in a bucket's lifetime is at most the
  // maximum, and the net cost issued in any real window at most twice the maximum.
  lemma FixedWindowBound(cfg: Config, startedAt: Duration, ops: seq<Op>, c: (World, Op) -> bool, max: u32, win: Window,
                         key: Key, start: Duration)
    requires Along(Start(cfg, startedAt), ops, c)
    requires forall w, op :: c(w, op) ==> SteadyWindow(w, op, max, win)
    requires key in Run(Start(cfg, startedAt), ops).lim.buckets
    ensures var w := Run(Start(cfg, startedAt), ops);
            && key in w.lives
            && NetCost(CellOf(w, key), ChargedTo(start)) <= max
            && NetCost(CellOf(w, key), IssuedIn(start, win)) <= 2 * max
  {
    var w0 := Start(cfg, startedAt);
    StartAccounted(cfg, startedAt);
    RunKeepsWindows(w0, ops, c, max, win);
    var w := Run(w0, ops);
    ChargedAtMostMax(CellOf(w, key), max, win, w.clock, start);
    IssuedAtMostTwiceMax(CellOf(w, key), max, win, w.clock, start);
  }

  // ----- what a request gets, at any point of any run -----

  // Past every other gate at `now`.
  predicate Asking(w: World, route: Key, cost: Cost, now: Duration, max: u32, win: Window) {
    var key := Resolve(w.lim, route);
    && w.clock <= now < DURATION_MAX && BoundedBy(w.lim.cfg.algorithm, max, win)
    && PassesGates(w.lim, key, cost, now)
    && (key in w.lim.buckets ==>
          w.lim.buckets[key].blockedUntil.None? || w.lim.buckets[key].blockedUntil.value <= now)
  }

  // The request is granted if and only if it fits, within the effective maximum, beside the net cost
  // already charged to the window it would be charged to.
  predicate GrantsWhatFits(w: World, route: Key, cost: Cost, now: Duration, win: Window)
    requires w.lives.Keys == w.lim.buckets.Keys
  {
    var c := CellBefore(w, Acquire(route, cost, now), Resolve(w.lim, route));
    var algo := EffectiveAlgorithm(w.lim.cfg, w.lim.startedAt, now);
    && c.b.algo.FixedState? && algo.FixedWindow?
    && var start := MaybeReset(c.b.algo.f, now, win).windowStart;
       TryAcquire(w.lim, route, cost, now).1.Granted? <==> (NetCost(c, ChargedTo(start)) + cost <= algo.maxPerWindow)
  }

  // A permit expires with the window it is charged to, and is issued before its deadline if and only
  // if that is the real window of its issue.
  predicate ExpiresWithWindow(a: Attempt, now: Duration, win: Window) {
    a.Granted? ==>
      && (a.permit.windowStart + win <= DURATION_MAX ==> a.permit.deadline == a.permit.windowStart + win)
      && (now < a.permit.deadline <==> a.permit.windowStart == WindowStartFor(now, win))
  }

  lemma WorldAdmits(w: World, route: Key, cost: Cost, now: Duration, max: u32, win: Window)
    requires WindowsOk(w, max, win) && Asking(w, route, cost, now, max, win)
    ensures GrantsWhatFits(w, route, cost, now, win)
    ensures ExpiresWithWindow(TryAcquire(w.lim, route, cost, now).1, now, win)
  {
    hide WindowOk, NetCost, MaybeReset, TryAcquire, Reserve, EnsureCapacity, Insert, SlowStartPreDeny,
         EffectiveAlgorithm, TableOk, CellOk, WindowStartFor;
    var key := Resolve(w.lim, route);
    var c := CellBefore(w, Acquire(route, cost, now), key);
    var algo := EffectiveAlgorithm(w.lim.cfg, w.lim.startedAt, now);
    var clock := if key in w.lim.buckets then w.clock else now;
    EffectiveWithin(w.lim.cfg, w.lim.startedAt, now);
    TryAcquireShape(w.lim, route, cost, now);
    RoomKeepsOthers(w.lim, key, now, key);
    if key !in w.lim.buckets {
      WindowOkAtBirth(now, w.lim.cfg.algorithm);
      RaiseMax(c, w.lim.cfg.algorithm.maxPerWindow, max, win, now);
    }
    WindowOkIsFixed(c, max, win, clock);
    CellAdmitsIffItFits(c, key, algo, cost, max, win, clock, now);
    if Reserve(c.b, key, algo, cost, now).1.Granted? {
      CellDeadlineIsWindowEnd(c, key, algo, cost, max, win, clock, now);
    }
  }

  lemma AdmitsIffItFits(cfg: Config, startedAt: Duration, ops: seq<Op>, c: (World, Op) -> bool, max: u32, win: Window,
                        route: Key, cost: Cost, now: Duration)
    requires Along(Start(cfg, startedAt), ops, c)
    requires forall w, op :: c(w, op) ==> SteadyWindow(w, op, max, win)
    requires Asking(Run(Start(cfg, startedAt), ops), route, cost, now, max, win)
    ensures var w := Run(Start(cfg, startedAt), ops);
            w.lives.Keys == w.lim.buckets.Keys && GrantsWhatFits(w, route, cost, now, win)
  {
    hide Along, Run, Start, GrantsWhatFits, Asking, SteadyWindow, ExpiresWithWindow;
    StartKeepsWindows(cfg, startedAt, max, win);
    RunKeepsWindows(Start(cfg, startedAt), ops, c, max, win);
    WorldAdmits(Run(Start(cfg, startedAt), ops), route, cost, now, max, win);
  }

  lemma DeadlineIsWindowEnd(cfg: Config, startedAt: Duration, ops: seq<Op>, c: (World, Op) -> bool,
                            max: u32, win: Window, route: Key, cost: Cost, now: Duration)
    requires Along(Start(cfg, startedAt), ops, c)
    requires forall w, op :: c(w, op) ==> SteadyWindow(w, op, max, win)
    requires Asking(Run(Start(cfg, startedAt), ops), route, cost, now, max, win)
    ensures ExpiresWithWindow(TryAcquire(Run(Start(cfg, startedAt), ops).lim, route, cost, now).1, now, win)
  {
    hide Along, Run, Start, GrantsWhatFits, Asking, SteadyWindow, ExpiresWithWindow, TryAcquire;
    StartKeepsWindows(cfg, startedAt, max, win);
    RunKeepsWindows(Start(cfg, startedAt), ops, c, max, win);
    WorldAdmits(Run(Start(cfg, startedAt), ops), route, cost, now, max, win);
  }

  lemma StartKeepsWindows(cfg: Config, startedAt: Duration, max: u32, win: Window)
    ensures WindowsOk(Start(cfg, startedAt), max, win)
  {
    StartAccounted(cfg, startedAt);
  }

  // ----- no reservation held across a window boundary -----

  predicate Uncarried(c: Cell, win: Window) {
    && (forall p :: p in c.outs ==> p.windowStart == WindowStartFor(p.issuedAt, win))
    && (forall p :: p in c.life.spent ==> p.windowStart == WindowStartFor(p.issuedAt, win))
  }

  // Whatever is outstanding against `key` was issued in the window the clock is in.
  predicate NothingHeldOver(w: World, op: Op, key: Key, win: Window) {
    forall p :: p in w.ledger && p.key == key ==> WindowStartFor(p.issuedAt, win) == WindowStartFor(op.now, win)
  }

  lemma EventKeepsUncarried(c: Cell, key: Key, e: Event, max: u32, win: Window, clock: Duration, now: Duration)
    requires WindowOk(c, max, win, clock) && clock <= now < DURATION_MAX
    requires WindowEvent(c, e, max, win, now)
    requires Uncarried(c, win)
    requires forall p :: p in c.outs ==> WindowStartFor(p.issuedAt, win) == WindowStartFor(now, win)
    ensures Uncarried(CellStep(c, key, e), win)
  {
    hide WindowStartFor, Aligned, SameCarry, MaybeReset, TakeFromWindow, Buckets.Commit, Buckets.Refund;
    if e.Taking? {
      NoCostNoPermit(c.outs);
      ResetKeepsWindow(c, max, win, clock, now);
      TakingFixed(c.b.algo.f, key, e.algo.maxPerWindow, win, e.cost, now);
      ReserveIssues(c.b, key, e.algo, e.cost, now);
      if c.outs != [] {
        assert PermitFits(c.b, c.outs[0]);
      }
    }
  }

  ghost predicate KeyUncarried(w: World, key: Key, win: Window) {
    w.lives.Keys == w.lim.buckets.Keys && (key in w.lim.buckets ==> Uncarried(CellOf(w, key), win))
  }

  lemma CellKeepsUncarried(w: World, op: Op, key: Key, max: u32, win: Window)
    requires WindowsOk(w, max, win) && Legal(w, op) && SteadyWindow(w, op, max, win)
    requires KeyUncarried(w, key, win) && NothingHeldOver(w, op, key, win)
    requires key in Step(w, op).lim.buckets && key in Step(w, op).lives
    ensures Uncarried(CellOf(Step(w, op), key), win)
  {
    hide Step, Legal, CellOk, CellStep, EventFor, WindowOk, WindowEvent, TableOk, WindowStartFor;
    StepCell(w, op, key);
    SteadyEvent(w, op, key, max, win);
    var c := CellBefore(w, op, key);
    if key !in w.lim.buckets {
      WindowOkAtBirth(op.now, w.lim.cfg.algorithm);
      RaiseMax(c, w.lim.cfg.algorithm.maxPerWindow, max, win, op.now);
      EventKeepsUncarried(c, key, EventFor(w, op, key), max, win, op.now, op.now);
    } else {
      EventKeepsUncarried(c, key, EventFor(w, op, key), max, win, w.clock, op.now);
    }
  }

  lemma StepKeepsUncarried(w: World, op: Op, key: Key, max: u32, win: Window)
    requires WindowsOk(w, max, win) && Legal(w, op) && SteadyWindow(w, op, max, win)
    requires KeyUncarried(w, key, win) && NothingHeldOver(w, op, key, win)
    ensures WindowsOk(Step(w, op), max, win) && KeyUncarried(Step(w, op), key, win)
  {
    hide Step, Legal, CellOk, WindowOk, Uncarried, TableOk, CellOf;
    StepKeepsWindows(w, op, max, win);
    if key in Step(w, op).lim.buckets {
      CellKeepsUncarried(w, op, key, max, win);
    }
  }

  lemma {:induction false} RunKeepsUncarried(w: World, ops: seq<Op>, c: (World, Op) -> bool, key: Key, max: u32,
                                             win: Window)
    requires WindowsOk(w, max, win) && KeyUncarried(w, key, win) && Along(w, ops, c)
    requires forall w, op :: c(w, op) ==> SteadyWindow(w, op, max, win) && NothingHeldOver(w, op, key, win)
    ensures WindowsOk(Run(w, ops), max, win) && KeyUncarried(Run(w, ops), key, win)
    decreases |ops|
  {
    hide WindowsOk, KeyUncarried, SteadyWindow, NothingHeldOver, Step, Legal;
    if ops != [] {
      StepKeepsUncarried(w, ops[0], key, max, win);
      RunKeepsUncarried(Step(w, ops[0]), ops[1..], c, key, max, win);
    }
  }

  // If no permit of its key is held across a window boundary, no real window sees more than the maximum
  // issued by one bucket, from its creation to its eviction.
  lemma FixedWindowBoundWithoutCarry(cfg: Config, startedAt: Duration, ops: seq<Op>, c: (World, Op) -> bool,
                                     max: u32, win: Window, key: Key, start: Duration)
    requires Along(Start(cfg, startedAt), ops, c)
    requires forall w, op :: c(w, op) ==> SteadyWindow(w, op, max, win) && NothingHeldOver(w, op, key, win)
    requires key in Run(Start(cfg, startedAt), ops).lim.buckets
    ensures var w := Run(Start(cfg, startedAt), ops);
            key in w.lives && NetCost(CellOf(w, key), IssuedIn(start, win)) <= max
  {
    hide WindowOk, WindowStartFor;
    var w0 := Start(cfg, startedAt);
    StartAccounted(cfg, startedAt);
    RunKeepsUncarried(w0, ops, c, key, max, win);
    var w := Run(w0, ops);
    var cell := CellOf(w, key);
    ChargedAtMostMax(cell, max, win, w.clock, start);
    CostIfWeaker(cell.outs, IssuedIn(start, win), ChargedTo(start));
    CostIfWeaker(cell.life.spent, IssuedIn(start, win), ChargedTo(start));
  }

  // ----- the double bound is attained -----

  // A run on one key, without slow start, key bound or remaps, that has left its bucket as `c`.
  ghost predicate Lone(w: World, c: Cell, algo: Algorithm) {
    && Accounted(w) && w.lim.cfg == Config(algo, None, DenyNewKey, None)
    && w.lim.routes == map[] && w.lim.globalBlockedUntil.None?
    && 7 in w.lim.buckets && CellOf(w, 7) == c
  }

  function EventOf(op: Op, algo: Algorithm): Event {
    match op
    case Acquire(_, cost, now) => Taking(algo, cost, now)
    case Commit(p, outcome, now) => Committing(p, outcome, algo, now)
    case Refund(p, now) => Refunding(p, algo, now)
    case _ => Quiet
  }

  predicate OnKey(op: Op) {
    match op
    case Acquire(route, _, _) => route == 7
    case Commit(p, outcome, _) => p.key == 7 && outcome.Confirmed?
    case Refund(p, _) => p.key == 7
    case _ => false
  }

  lemma LoneShape(w: World, op: Op, algo: Algorithm)
    requires Accounted(w) && w.lim.cfg == Config(algo, None, DenyNewKey, None)
    requires w.lim.routes == map[] && w.lim.globalBlockedUntil.None? && OnKey(op) && (op.Acquire? || 7 in w.lim.buckets)
    ensures var l := Step(w, op).lim;
            && l.cfg == w.lim.cfg && l.routes == map[] && l.globalBlockedUntil.None? && 7 in l.buckets
            && EventFor(w, op, 7) == EventOf(op, algo)
  {
    hide Reserve, NewBucket, Buckets.Commit, Buckets.Refund, CellOk, TableOk, RemoveOne, FinishLife, Tracked;
  }

  lemma LoneStep(w: World, c: Cell, op: Op, algo: Algorithm)
    requires Lone(w, c, algo) && Legal(w, op) && OnKey(op)
    ensures Lone(Step(w, op), CellStep(c, 7, EventOf(op, algo)), algo)
  {
    hide Step, Legal, CellOk, CellStep, TableOk, EventFor;
    StepAccounted(w, op);
    LoneShape(w, op, algo);
    StepCell(w, op, 7);
  }

  lemma LoneStart(algo: Algorithm, cost: Cost)
    requires algo.FixedWindow?
    ensures Lone(Step(Start(Config(algo, None, DenyNewKey, None), 0), Acquire(7, cost, 0)),
                 CellStep(NewCell(0, algo), 7, Taking(algo, cost, 0)), algo)
  {
    hide Step, CellOk, CellStep, TableOk, EventFor;
    var w, op := Start(Config(algo, None, DenyNewKey, None), 0), Acquire(7, cost, 0);
    StartAccounted(Config(algo, None, DenyNewKey, None), 0);
    StepAccounted(w, op);
    LoneShape(w, op, algo);
    StepCell(w, op, 7);
  }

  function Steady(max: u32, win: Window): (World, Op) -> bool { (w: World, op: Op) => SteadyWindow(w, op, max, win) }

  // One more operation of a legal, steady run on the key.
  lemma LoneAppend(w0: World, ops: seq<Op>, op: Op, c: Cell, max: u32, win: Window)
    requires Along(w0, ops, Steady(max, win)) && Lone(Run(w0, ops), c, FixedWindow(max, win))
    requires OnKey(op) && Run(w0, ops).clock <= op.now < DURATION_MAX
    requires (op.Commit? || op.Refund?) ==> op.permit in c.outs
    ensures Along(w0, ops + [op], Steady(max, win)) && Run(w0, ops + [op]).clock == op.now
    ensures Lone(Run(w0, ops + [op]), CellStep(c, 7, EventOf(op, FixedWindow(max, win))), FixedWindow(max, win))
  {
    hide Run, Along, CellOk, CellStep, EventOf, TableOk;
    RunAppend(w0, ops, op, Steady(max, win));
    assert Legal(Run(w0, ops), op);
    ClockIsLast(Run(w0, ops), op);
    hide Step, Legal, Lone;
    LoneStep(Run(w0, ops), c, op, FixedWindow(max, win));
  }

  lemma ClockIsLast(w: World, op: Op)
    ensures Step(w, op).clock == op.now
  {
    hide TryAcquire, ApplyFeedback, UpdateConfig, CommitPermit, RefundPermit;
  }

  // A permit held over the boundary keeps the window open for a whole maximum issued in the next one,
  // which then opens for another.
  function CarryOps(max: u32): seq<Op>
    requires max >= 2
  {
    [Acquire(7, 1, 0), Acquire(7, max - 1, 10), Op.Refund(Held(1, 0), 10), Acquire(7, 1, 10)]
    + [Op.Commit(Held(max - 1, 10), Confirmed, 10), Op.Commit(Held(1, 10), Confirmed, 10), Acquire(7, max, 11)]
  }

  // For every maximum of at least two a legal, steady run issues twice the maximum in one real window.
  lemma TwiceMaxIsIssued(max: u32)
    requires max >= 2
    ensures var w0 := Start(Config(FixedWindow(max, 10), None, DenyNewKey, None), 0);
            var w := Run(w0, CarryOps(max));
            && Along(w0, CarryOps(max), Steady(max, 10))
            && 7 in w.lim.buckets && 7 in w.lives && NetCost(CellOf(w, 7), IssuedIn(10, 10)) == 2 * max
  {
    hide CellStep, NetCost, Run, Along, Lone, Start, Emptied, Reopened, Steady;
    var algo, w0 := FixedWindow(max, 10), Start(Config(FixedWindow(max, 10), None, DenyNewKey, None), 0);
    var ops := CarryOps(max);
    HeldWindowFills(max);
    HeldWindowEmpties(max);
    EmptiedWindowReopens(max);
    ReopenedNet(max);
    var c1 := CellStep(NewCell(0, algo), 7, Taking(algo, 1, 0));
    FirstAcquire(max);
    LoneAppend(w0, ops[..1], ops[1], c1, max, 10);
    var c2 := CellStep(c1, 7, Taking(algo, max - 1, 10));
    assert ops[..1] + [ops[1]] == ops[..2];
    LoneAppend(w0, ops[..2], ops[2], c2, max, 10);
    var c3 := CellStep(c2, 7, Refunding(Held(1, 0), algo, 10));
    assert ops[..2] + [ops[2]] == ops[..3];
    LoneAppend(w0, ops[..3], ops[3], c3, max, 10);
    assert ops[..3] + [ops[3]] == ops[..4];
    LoneAppend(w0, ops[..4], ops[4], Filled(max), max, 10);
    var c5 := CellStep(Filled(max), 7, Committing(Held(max - 1, 10), Confirmed, algo, 10));
    assert ops[..4] + [ops[4]] == ops[..5];
    LoneAppend(w0, ops[..5], ops[5], c5, max, 10);
    assert ops[..5] + [ops[5]] == ops[..6];
    LoneAppend(w0, ops[..6], ops[6], Emptied(max), max, 10);
    assert ops[..6] + [ops[6]] == ops;
    LoneTracks(Run(w0, ops), Reopened(max), algo);
  }

  lemma FirstAcquire(max: u32)
    requires max >= 2
    ensures var algo, w0 := FixedWindow(max, 10), Start(Config(FixedWindow(max, 10), None, DenyNewKey, None), 0);
            && Along(w0, CarryOps(max)[..1], Steady(max, 10)) && Run(w0, CarryOps(max)[..1]).clock == 0
            && Lone(Run(w0, CarryOps(max)[..1]), CellStep(NewCell(0, algo), 7, Taking(algo, 1, 0)), algo)
  {
    hide CellStep, Lone, Step;
    var w0, op := Start(Config(FixedWindow(max, 10), None, DenyNewKey, None), 0), Acquire(7, 1, 0);
    assert CarryOps(max)[..1] == [] + [op];
    RunAppend(w0, [], op, Steady(max, 10));
    ClockIsLast(w0, op);
    LoneStart(FixedWindow(max, 10), 1);
  }

  lemma LoneTracks(w: World, c: Cell, algo: Algorithm)
    requires Lone(w, c, algo)
    ensures 7 in w.lim.buckets && 7 in w.lives && CellOf(w, 7) == c
  {
  }

  lemma HeldWindowFills(max: u32)
    requires max >= 2
    ensures var algo := FixedWindow(max, 10);
            var c1 := CellStep(NewCell(0, algo), 7, Taking(algo, 1, 0));
            var c2 := CellStep(c1, 7, Taking(algo, max - 1, 10));
            var c3 := CellStep(c2, 7, Refunding(Held(1, 0), algo, 10));
            && c1.outs == [Held(1, 0)] && c2.outs == [Held(1, 0), Held(max - 1, 10)]
            && CellStep(c3, 7, Taking(algo, 1, 10)) == Filled(max)
  {
    var algo := FixedWindow(max, 10);
    var first, second, life := Held(1, 0), Held(max - 1, 10), NewLife(0, algo);
    OnlyWindow(0, 0, 10);
    hide WindowStartFor;
    var c1 := WindowCell(Fixed(0, 1, 0), [first], life);
    var c2 := WindowCell(Fixed(0, max, 0), [first, second], life);
    var c3 := WindowCell(Fixed(0, max - 1, 0), [second], life);
    assert CellStep(NewCell(0, algo), 7, Taking(algo, 1, 0)) == c1;
    assert CellStep(c1, 7, Taking(algo, max - 1, 10)) == c2;
    assert CellStep(c2, 7, Refunding(first, algo, 10)) == c3 by { assert [first, second][..1] == [first]; }
  }

  lemma HeldWindowEmpties(max: u32)
    requires max >= 2
    ensures var algo := FixedWindow(max, 10);
            var c5 := CellStep(Filled(max), 7, Committing(Held(max - 1, 10), Confirmed, algo, 10));
            c5.outs == [Held(1, 10)] && CellStep(c5, 7, Committing(Held(1, 10), Confirmed, algo, 10)) == Emptied(max)
  {
    hide RemoveOne, CellStep;
    var algo := FixedWindow(max, 10);
    var second, third, life := Held(max - 1, 10), Held(1, 10), NewLife(0, algo);
    RemoveOfTwo(second, third);
    ConfirmsHeld(Fixed(0, max, 0), [second, third], [third], life, second, algo);
    ConfirmsHeld(Fixed(0, 1, max - 1), [third], [], life.(spent := [] + [second]), third, algo);
    assert [] + [second] + [third] == [second, third];
  }

  lemma RemoveOfTwo(p: Permit, q: Permit)
    ensures RemoveOne([p, q], p) == [q] && RemoveOne([q], q) == []
  {
    assert [p, q][..1] == [p];
  }

  lemma EmptiedWindowReopens(max: u32)
    requires max >= 2
    ensures CellStep(Emptied(max), 7, Taking(FixedWindow(max, 10), max, 11)) == Reopened(max)
  {
    OnlyWindow(10, 11, 10);
    hide WindowStartFor;
  }

  lemma ConfirmsHeld(f: Fixed, outs: seq<Permit>, rest: seq<Permit>, life: Life, p: Permit, algo: Algorithm)
    requires algo.FixedWindow? && p.cost <= f.reserved && p.meta == WindowPermit(f.windowStart)
    requires f.spent + p.cost <= U32_MAX && RemoveOne(outs, p) == rest
    ensures CellStep(WindowCell(f, outs, life), 7, Committing(p, Confirmed, algo, 10))
         == WindowCell(Fixed(f.windowStart, f.reserved - p.cost, f.spent + p.cost), rest,
                       life.(spent := life.spent + [p]))
  {
    hide RemoveOne;
  }

  lemma ReopenedNet(max: u32)
    requires max >= 2
    ensures NetCost(Reopened(max), IssuedIn(10, 10)) == 2 * max
  {
    var second, third := Held(max - 1, 10), Held(1, 10);
    OnlyWindow(10, 10, 10);
    OnlyWindow(10, 11, 10);
    hide WindowStartFor;
    assert [second, third][..1] == [second];
    assert CostIf([second], IssuedIn(10, 10)) == max - 1;
  }

  // The window from 0 to 10, kept open and full at 10.
  function Filled(max: u32): Cell
    requires max >= 2
  {
    WindowCell(Fixed(0, max, 0), [Held(max - 1, 10), Held(1, 10)], NewLife(0, FixedWindow(max, 10)))
  }

  function Emptied(max: u32): Cell
    requires max >= 2
  {
    WindowCell(Fixed(0, 0, max), [], NewLife(0, FixedWindow(max, 10)).(spent := [Held(max - 1, 10), Held(1, 10)]))
  }

  // The window from 10 to 20, full at 11.
  function Reopened(max: u32): Cell
    requires max >= 2
  {
    WindowCell(Fixed(10, max, 0), [Permit(7, max, 10, 11, 20, WindowPermit(10))],
               NewLife(0, FixedWindow(max, 10)).(spent := [Held(max - 1, 10), Held(1, 10)]))
  }

  // A permit charged to the window from 0 to 10.
  function Held(cost: Cost, at: Duration): Permit { Permit(7, cost, 0, at, 10, WindowPermit(0)) }

  function WindowCell(f: Fixed, outs: seq<Permit>, life: Life): Cell { Cell(Bucket(None, FixedState(f)), outs, life) }
}

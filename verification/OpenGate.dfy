// src/durable_open_gate.rs as a protocol: one durable record that survives crashes, a cached copy
// that does not, and transactions that may fail - even after they have persisted.
module OpenGate {
  import opened Machine

  datatype GateConfig = GateConfig(window: Duration, mapSizeBytes: nat, failClosed: bool)

  datatype Record = Record(version: nat, lockUntilMs: u64, updatedAtMs: u64, windowMs: u64)

  datatype Decision = Allowed(lockUntil: Duration) | Blocked(lockUntil: Duration)

  datatype Reply = Decided(decision: Decision) | Failed

  // Where a call meets a failure of the store. A commit may fail after the record was persisted.
  datatype Fault = NoFault | BeginFails | ReadFails | EncodeFails | PutFails | CommitFails(persisted: bool)

  function ToMillis(d: Duration): u64 { Min(d / NANOS_PER_MILLI, U64_MAX) }

  function FromMillis(ms: u64): Duration { ms * NANOS_PER_MILLI }

  function LockOf(disk: Option<Record>): u64 { if disk.Some? then disk.value.lockUntilMs else 0 }

  // ----- one call -----

  datatype Outcome = Outcome(disk: Option<Record>, cached: u64, reply: Reply)

  function NewLock(cfg: GateConfig, now: Duration): u64 { SatAdd64(ToMillis(now), ToMillis(cfg.window)) }

  function Written(cfg: GateConfig, now: Duration): Record {
    Record(1, NewLock(cfg, now), ToMillis(now), ToMillis(cfg.window))
  }

  function PersistError(disk: Option<Record>, cached: u64, cfg: GateConfig, now: Duration): Outcome {
    if cfg.failClosed then Outcome(disk, cached, Failed)
    else Outcome(disk, NewLock(cfg, now), Decided(Allowed(FromMillis(NewLock(cfg, now)))))
  }

  function Acquire(disk: Option<Record>, cached: u64, cfg: GateConfig, now: Duration, fault: Fault): Outcome {
    var nowMs := ToMillis(now);
    if nowMs < cached then Outcome(disk, cached, Decided(Blocked(FromMillis(cached))))
    else if fault.BeginFails? then Outcome(disk, cached, Failed)
    else if fault.ReadFails? then PersistError(disk, cached, cfg, now)
    else
      var effective := Max(cached, LockOf(disk));
      if nowMs < effective then Outcome(disk, effective, Decided(Blocked(FromMillis(effective))))
      else
        match fault
        case CommitFails(persisted) =>
          PersistError(if persisted then Some(Written(cfg, now)) else disk, cached, cfg, now)
        case NoFault =>
          Outcome(Some(Written(cfg, now)), NewLock(cfg, now), Decided(Allowed(FromMillis(NewLock(cfg, now)))))
        case _ => PersistError(disk, cached, cfg, now)
  }

  datatype OpenFault = Opens | CannotOpen | CannotLoad

  // The cached lock of a freshly opened gate, or None when opening fails.
  function OpenCache(disk: Option<Record>, cfg: GateConfig, fault: OpenFault): Option<u64> {
    if fault.CannotOpen? || cfg.window == 0 || cfg.mapSizeBytes < 1024 * 1024 then None
    else if fault.CannotLoad? then (if cfg.failClosed then None else Some(0))
    else Some(LockOf(disk))
  }

  // ----- the objects -----

  // The database file: it outlives the gate object.
  class Store {
    var disk: Option<Record>

    constructor ()
      ensures disk == None
    {
      disk := None;
    }
  }

  class DurableOpenGate {
    const store: Store
    const cfg: GateConfig
    var cachedLockUntilMs: u64

    constructor (store: Store, cfg: GateConfig, cached: u64)
      ensures this.store == store && this.cfg == cfg && cachedLockUntilMs == cached
    {
      this.store, this.cfg, cachedLockUntilMs := store, cfg, cached;
    }

    static method Open(store: Store, cfg: GateConfig, fault: OpenFault) returns (gate: DurableOpenGate?)
      ensures gate == null <==> OpenCache(store.disk, cfg, fault).None?
      ensures gate != null ==> fresh(gate) && gate.store == store && gate.cfg == cfg
                               && gate.cachedLockUntilMs == OpenCache(store.disk, cfg, fault).value
    {
      if fault.CannotOpen? || cfg.window == 0 || cfg.mapSizeBytes < 1024 * 1024 {
        return null;
      }
      if fault.CannotLoad? {
        if cfg.failClosed {
          return null;
        }
        gate := new DurableOpenGate(store, cfg, 0);
        return;
      }
      gate := new DurableOpenGate(store, cfg, LockOf(store.disk));
    }

    method TryAcquireOpen(now: Duration, fault: Fault) returns (reply: Reply)
      modifies this, store
      ensures Outcome(store.disk, cachedLockUntilMs, reply)
              == Acquire(old(store.disk), old(cachedLockUntilMs), cfg, now, fault)
    {
      var nowMs := ToMillis(now);
      if nowMs < cachedLockUntilMs {
        return Decided(Blocked(FromMillis(cachedLockUntilMs)));
      }
      if fault.BeginFails? {
        return Failed;
      }
      if fault.ReadFails? {
        reply := PersistErrorDecision(nowMs);
        return;
      }
      var persisted := LockOf(store.disk);
      var effective := Max(cachedLockUntilMs, persisted);
      if nowMs < effective {
        cachedLockUntilMs := effective;
        return Decided(Blocked(FromMillis(effective)));
      }
      var lockUntilMs := SatAdd64(nowMs, ToMillis(cfg.window));
      var record := Record(1, lockUntilMs, nowMs, ToMillis(cfg.window));
      if fault.EncodeFails? || fault.PutFails? {
        reply := PersistErrorDecision(nowMs);
        return;
      }
      if fault.CommitFails? {
        if fault.persisted {
          store.disk := Some(record);
        }
        reply := PersistErrorDecision(nowMs);
        return;
      }
      store.disk := Some(record);
      cachedLockUntilMs := lockUntilMs;
      reply := Decided(Allowed(FromMillis(lockUntilMs)));
    }

    method PersistErrorDecision(nowMs: u64) returns (reply: Reply)
      modifies this
      ensures var until := SatAdd64(nowMs, ToMillis(cfg.window));
              && cachedLockUntilMs == (if cfg.failClosed then old(cachedLockUntilMs) else until)
              && reply == if cfg.failClosed then Failed else Decided(Allowed(FromMillis(until)))
    {
      if cfg.failClosed {
        return Failed;
      }
      cachedLockUntilMs := SatAdd64(nowMs, ToMillis(cfg.window));
      reply := Decided(Allowed(FromMillis(cachedLockUntilMs)));
    }

    // The shared wrapper: a contended mutex blocks until `now`, a poisoned one fails.
    method TryAcquireOpenFailClosed(now: Duration, fault: Fault, mutex: Mutex) returns (reply: Reply)
      modifies this, store
      ensures mutex.Free? ==>
                Outcome(store.disk, cachedLockUntilMs, reply)
                == Acquire(old(store.disk), old(cachedLockUntilMs), cfg, now, fault)
      ensures mutex.Held? ==> reply == Decided(Blocked(now))
      ensures mutex.Poisoned? ==> reply == Failed
      ensures !mutex.Free? ==> store.disk == old(store.disk) && cachedLockUntilMs == old(cachedLockUntilMs)
    {
      match mutex
      case Free => reply := TryAcquireOpen(now, fault);
      case Held => reply := Decided(Blocked(now));
      case Poisoned => reply := Failed;
    }
  }

  datatype Mutex = Free | Held | Poisoned

  // ----- the protocol: processes that start, ask and die -----

  datatype Process = Down | Up(cfg: GateConfig, cached: u64)

  // A grant as its caller saw it: when, with which window, and until when in milliseconds.
  datatype Grant = Grant(at: Duration, cfg: GateConfig)

  function GrantedUntil(g: Grant): u64 { NewLock(g.cfg, g.at) }

  // `life` is the number of grants before the running process was opened.
  datatype System = System(disk: Option<Record>, process: Process, grants: seq<Grant>, life: nat)

  datatype Step =
    | Opening(cfg: GateConfig, openFault: OpenFault)
    | Asking(now: Duration, fault: Fault)
    | Contended(now: Duration)
    | Crash
    | CrashWhileAsking(now: Duration, committed: bool)

  function Next(s: System, step: Step): System {
    match step
    case Opening(cfg, fault) =>
      (match (s.process, OpenCache(s.disk, cfg, fault))
       case (Down, Some(cached)) => s.(process := Up(cfg, cached), life := |s.grants|)
       case _ => s)
    case Asking(now, fault) =>
      (match s.process
       case Down => s
       case Up(cfg, cached) =>
         var o := Acquire(s.disk, cached, cfg, now, fault);
         System(o.disk, Up(cfg, o.cached),
                if o.reply.Decided? && o.reply.decision.Allowed? then s.grants + [Grant(now, cfg)] else s.grants,
                s.life))
    case Contended(_) => s
    case Crash => s.(process := Down)
    case CrashWhileAsking(now, committed) =>
      // the caller never sees the reply; the record is there if the commit got through
      (match s.process
       case Down => s
       case Up(cfg, cached) =>
         s.(process := Down, disk := if committed then Acquire(s.disk, cached, cfg, now, NoFault).disk else s.disk))
  }

  function Run(s: System, steps: seq<Step>): System
    decreases |steps|
  {
    if steps == [] then s else Run(Next(s, steps[0]), steps[1..])
  }

  const BOOT: System := System(None, Down, [], 0)

  // ----- fail closed: separation across every crash schedule -----

  predicate FailsClosed(steps: seq<Step>) { forall x :: x in steps && x.Opening? ==> x.cfg.failClosed }

  predicate Separated(grants: seq<Grant>) {
    forall i, j :: 0 <= i < j < |grants| ==> ToMillis(grants[j].at) >= GrantedUntil(grants[i])
  }

  // Every grant is covered by the durable record.
  predicate Covered(s: System) {
    && (s.process.Up? ==> s.process.cfg.failClosed)
    && (forall g :: g in s.grants ==> GrantedUntil(g) <= LockOf(s.disk))
    && Separated(s.grants)
  }

  lemma AskingStaysCovered(s: System, step: Step)
    requires Covered(s) && (step.Opening? ==> step.cfg.failClosed)
    ensures Covered(Next(s, step))
  {
    hide ToMillis, FromMillis;
  }

  lemma {:induction false} RunStaysCovered(s: System, steps: seq<Step>)
    requires Covered(s) && FailsClosed(steps)
    ensures Covered(Run(s, steps))
    decreases |steps|
  {
    if steps != [] {
      hide Covered;
      AskingStaysCovered(s, steps[0]);
      RunStaysCovered(Next(s, steps[0]), steps[1..]);
    }
  }

  // Whatever fails, crashes and reopens, with any windows and any clock: each grant comes no earlier
  // than the end of the lock of every grant before it.
  lemma GrantsAreSeparated(steps: seq<Step>)
    requires FailsClosed(steps)
    ensures Separated(Run(BOOT, steps).grants)
  {
    RunStaysCovered(BOOT, steps);
  }

  // ----- opening -----

  // A gate opens exactly if the store can be opened, the configuration is valid, and the record can be
  // loaded - or the gate fails open; then it starts from no lock. Otherwise nothing changes.
  lemma OpensIff(s: System, cfg: GateConfig, fault: OpenFault)
    requires s.process.Down?
    ensures var s' := Next(s, Opening(cfg, fault));
            && (s'.process.Up? <==> !fault.CannotOpen? && cfg.window > 0 && cfg.mapSizeBytes >= 1024 * 1024
                                    && (fault.CannotLoad? ==> !cfg.failClosed))
            && (s'.process.Up? ==> s'.process == Up(cfg, if fault.CannotLoad? then 0 else LockOf(s.disk)))
            && (s'.process.Down? ==> s' == s)
            && s'.disk == s.disk && s'.grants == s.grants
  {
  }

  // Over every fail-closed schedule, a gate that opens has the lock of the durable record, at or past
  // the end of every earlier grant's lock; and whatever the store does next, it blocks until exactly
  // then.
  lemma FreshGateBlocks(steps: seq<Step>, cfg: GateConfig, fault: OpenFault)
    requires FailsClosed(steps) && cfg.failClosed && Run(BOOT, steps).process.Down?
    requires Next(Run(BOOT, steps), Opening(cfg, fault)).process.Up?
    ensures var s := Next(Run(BOOT, steps), Opening(cfg, fault));
            && s.process == Up(cfg, LockOf(s.disk))
            && (forall g :: g in s.grants ==> GrantedUntil(g) <= s.process.cached)
            && forall now, fault :: ToMillis(now) < s.process.cached ==>
                 Acquire(s.disk, s.process.cached, cfg, now, fault)
                 == Outcome(s.disk, s.process.cached, Decided(Blocked(FromMillis(s.process.cached))))
  {
    hide FailsClosed;
    RunStaysCovered(BOOT, steps);
    OpensIff(Run(BOOT, steps), cfg, fault);
  }

  // ----- waiting as told -----

  // The cache of a gate that fails closed never passes the record, so a caller that is blocked and asks
  // again, without faults, exactly when told, is granted after at most two blocks: one from the cache
  // and one from a record that a failed commit left behind.
  predicate CacheBehind(s: System) { s.process.Up? ==> s.process.cached <= LockOf(s.disk) }

  lemma StepKeepsCacheBehind(s: System, step: Step)
    requires Covered(s) && CacheBehind(s) && (step.Opening? ==> step.cfg.failClosed)
    ensures CacheBehind(Next(s, step))
  {
    hide ToMillis, FromMillis, Separated;
  }

  lemma {:induction false} RunKeepsCacheBehind(s: System, steps: seq<Step>)
    requires Covered(s) && CacheBehind(s) && FailsClosed(steps)
    ensures Covered(Run(s, steps)) && CacheBehind(Run(s, steps))
    decreases |steps|
  {
    if steps != [] {
      hide Covered, CacheBehind;
      AskingStaysCovered(s, steps[0]);
      StepKeepsCacheBehind(s, steps[0]);
      RunKeepsCacheBehind(Next(s, steps[0]), steps[1..]);
    }
  }

  // What a request without faults is told, over every fail-closed schedule of faults and crashes: it is
  // granted if and only if the record's lock is over, else blocked until the end of a lock still ahead -
  // the record's own, from its cache's end on.
  lemma RepliesFromRecord(steps: seq<Step>, now: Duration)
    requires FailsClosed(steps) && Run(BOOT, steps).process.Up?
    ensures var s := Run(BOOT, steps);
            var o := Acquire(s.disk, s.process.cached, s.process.cfg, now, NoFault);
            && o.reply.Decided?
            && (o.reply.decision.Allowed? <==> ToMillis(now) >= LockOf(s.disk))
            && (o.reply.decision.Allowed? ==>
                  var until := NewLock(s.process.cfg, now);
                  o == Outcome(Some(Record(1, until, ToMillis(now), ToMillis(s.process.cfg.window))), until,
                               Decided(Allowed(FromMillis(until)))))
            && (o.reply.decision.Blocked? ==>
                  var lock := if ToMillis(now) < s.process.cached then s.process.cached else LockOf(s.disk);
                  ToMillis(now) < lock && o == Outcome(s.disk, lock, Decided(Blocked(FromMillis(lock)))))
  {
    hide ToMillis, FromMillis, NewLock;
    RunKeepsCacheBehind(BOOT, steps);
  }

  lemma MillisRoundTrip(ms: u64)
    ensures ToMillis(FromMillis(ms)) == ms
  {
  }

  lemma GrantedAfterTwoBlocks(steps: seq<Step>, now: Duration)
    requires FailsClosed(steps) && Run(BOOT, steps).process.Up?
    ensures var s := Run(BOOT, steps);
            var cfg := s.process.cfg;
            var one := Acquire(s.disk, s.process.cached, cfg, now, NoFault);
            one.reply.decision.Blocked? ==>
              var two := Acquire(one.disk, one.cached, cfg, one.reply.decision.lockUntil, NoFault);
              two.reply.decision.Blocked? ==>
                Acquire(two.disk, two.cached, cfg, two.reply.decision.lockUntil, NoFault).reply.decision.Allowed?
  {
    hide ToMillis, FromMillis, NewLock;
    RunKeepsCacheBehind(BOOT, steps);
    var s := Run(BOOT, steps);
    MillisRoundTrip(s.process.cached);
    MillisRoundTrip(LockOf(s.disk));
  }

  // Both blocks do come: a commit that fails but persists leaves a record past the cache.
  lemma PersistedFailureBlocks()
    ensures var cfg := GateConfig(1_000_000_000, 1024 * 1024, true);
            var s := Run(BOOT, [Opening(cfg, Opens), Asking(0, NoFault), Asking(1_000_000_000, CommitFails(true))]);
            && s.process == Up(cfg, 1000) && LockOf(s.disk) == 2000 && s.grants == [Grant(0, cfg)]
            && Acquire(s.disk, 1000, cfg, 500_000_000, NoFault).reply == Decided(Blocked(1_000_000_000))
            && Acquire(s.disk, 1000, cfg, 1_000_000_000, NoFault).reply == Decided(Blocked(2_000_000_000))
  {
    var cfg := GateConfig(1_000_000_000, 1024 * 1024, true);
    var s0 := Next(BOOT, Opening(cfg, Opens));
    assert s0 == System(None, Up(cfg, 0), [], 0);
    var s1 := Next(s0, Asking(0, NoFault));
    assert s1 == System(Some(Record(1, 1000, 0, 1000)), Up(cfg, 1000), [Grant(0, cfg)], 0);
    RunOfThree(BOOT, Opening(cfg, Opens), Asking(0, NoFault), Asking(1_000_000_000, CommitFails(true)));
  }

  // ----- what separation gives the caller -----

  // The lock is the whole window exactly when the 64-bit sum does not saturate.
  lemma LockIsWindowIff(cfg: GateConfig, at: Duration)
    ensures NewLock(cfg, at) == ToMillis(at) + ToMillis(cfg.window) <==> ToMillis(at) + ToMillis(cfg.window) <= U64_MAX
  {
  }

  // In real time the gap falls short of the window by less than the two milliseconds lost to truncation.
  lemma RealGap(first: Grant, second: Grant)
    requires ToMillis(second.at) >= GrantedUntil(first)
    requires ToMillis(first.at) + ToMillis(first.cfg.window) <= U64_MAX
    requires first.cfg.window / NANOS_PER_MILLI <= U64_MAX && first.at / NANOS_PER_MILLI <= U64_MAX
    ensures second.at > first.at + first.cfg.window - 2 * NANOS_PER_MILLI
  {
  }

  // Every clock reading that the gate takes for past the lock is past the real window if and only if
  // neither the grant nor the window lost a fraction of a millisecond, and the lock did not saturate.
  lemma RealGapIff(cfg: GateConfig, at: Duration)
    ensures (forall t: Duration :: ToMillis(t) >= NewLock(cfg, at) ==> t >= at + cfg.window)
       <==> && at % NANOS_PER_MILLI == 0 && cfg.window % NANOS_PER_MILLI == 0
            && at / NANOS_PER_MILLI + cfg.window / NANOS_PER_MILLI <= U64_MAX
  {
    var until: Duration := NewLock(cfg, at) * NANOS_PER_MILLI;
    assert ToMillis(until) == NewLock(cfg, at);
  }

  // A window of almost two milliseconds: the second grant comes one nanosecond after the first.
  lemma RealWindowFallsShort()
    ensures var cfg := GateConfig(1_999_999, 1024 * 1024, true);
            Run(BOOT, [Opening(cfg, Opens), Asking(999_999, NoFault), Asking(1_000_000, NoFault)]).grants
            == [Grant(999_999, cfg), Grant(1_000_000, cfg)]
  {
    var cfg := GateConfig(1_999_999, 1024 * 1024, true);
    var s0 := Next(BOOT, Opening(cfg, Opens));
    var s1 := Next(s0, Asking(999_999, NoFault));
    var s2 := Next(s1, Asking(1_000_000, NoFault));
    assert s0 == System(None, Up(cfg, 0), [], 0);
    assert s1.process == Up(cfg, 1) && s1.grants == [Grant(999_999, cfg)];
    RunOfThree(BOOT, Opening(cfg, Opens), Asking(999_999, NoFault), Asking(1_000_000, NoFault));
  }

  lemma RunOfThree(s: System, a: Step, b: Step, c: Step)
    ensures Run(s, [a, b, c]) == Next(Next(Next(s, a), b), c)
  {
    hide Next;
    assert [a, b, c][1..] == [b, c] && [b, c][1..] == [c] && [c][1..] == [];
    assert Run(Next(Next(s, a), b), [c]) == Run(Next(Next(Next(s, a), b), c), []);
    assert Run(Next(s, a), [b, c]) == Run(Next(Next(s, a), b), [c]);
    assert Run(s, [a, b, c]) == Run(Next(s, a), [b, c]);
  }

  // A span holds at most span / window + 1 grants.
  lemma GrantsInSpan(grants: seq<Grant>, windowMs: nat)
    requires grants != [] && Separated(grants) && windowMs >= 1
    requires forall g :: g in grants ==>
             ToMillis(g.at) + ToMillis(g.cfg.window) <= U64_MAX && ToMillis(g.cfg.window) >= windowMs
    ensures var span := ToMillis(grants[|grants| - 1].at) - ToMillis(grants[0].at);
            |grants| <= span / windowMs + 1
  {
    hide ToMillis;
    SpanGrows(grants, windowMs);
    FloorAtLeast(ToMillis(grants[|grants| - 1].at) - ToMillis(grants[0].at), windowMs, |grants| - 1);
  }

  lemma {:induction false} SpanGrows(grants: seq<Grant>, windowMs: nat)
    requires grants != [] && Separated(grants)
    requires forall g :: g in grants ==>
             ToMillis(g.at) + ToMillis(g.cfg.window) <= U64_MAX && ToMillis(g.cfg.window) >= windowMs
    ensures ToMillis(grants[|grants| - 1].at) - ToMillis(grants[0].at) >= (|grants| - 1) * windowMs
  {
    hide ToMillis;
    var n := |grants|;
    if n > 1 {
      var before := grants[..n - 1];
      SpanGrows(before, windowMs);
      assert grants[n - 2] in grants && before[n - 2] == grants[n - 2];
      assert (n - 1) * windowMs == (n - 2) * windowMs + windowMs;
    }
  }

  // Asking again at the instant of a grant is blocked exactly when the window has a whole
  // millisecond and the clock is not at its 64-bit end.
  lemma SecondAskBlockedIff(cfg: GateConfig, now: Duration, disk: Option<Record>, cached: u64)
    requires Acquire(disk, cached, cfg, now, NoFault).reply.Decided?
    requires Acquire(disk, cached, cfg, now, NoFault).reply.decision.Allowed?
    ensures var o := Acquire(disk, cached, cfg, now, NoFault);
            var again := Acquire(o.disk, o.cached, cfg, now, NoFault).reply;
            again.decision.Blocked? <==> cfg.window >= NANOS_PER_MILLI && ToMillis(now) < U64_MAX
  {
  }

  // ----- windows below a millisecond -----

  function Reading(now: Duration): Duration { now }

  function Asks(readings: seq<Duration>): seq<Step> {
    if readings == [] then [] else [Asking(readings[0], NoFault)] + Asks(readings[1..])
  }

  function Grants(cfg: GateConfig, readings: seq<Duration>): seq<Grant> {
    if readings == [] then [] else [Grant(readings[0], cfg)] + Grants(cfg, readings[1..])
  }

  // The gate is open at `clock`, and its window truncates to none.
  predicate OpenAt(s: System, cfg: GateConfig, clock: Duration) {
    && s.process.Up? && s.process.cfg == cfg && cfg.window < NANOS_PER_MILLI
    && s.process.cached <= ToMillis(clock) && LockOf(s.disk) <= ToMillis(clock)
  }

  lemma AskGranted(s: System, cfg: GateConfig, clock: Duration, now: Duration)
    requires OpenAt(s, cfg, clock) && clock <= now
    ensures var s' := Next(s, Asking(now, NoFault));
            OpenAt(s', cfg, now) && s'.grants == s.grants + [Grant(now, cfg)]
  {
    FloorMono(clock, now, NANOS_PER_MILLI);
    hide FromMillis;
  }

  lemma {:induction false} EveryAskGranted(s: System, cfg: GateConfig, readings: seq<Duration>, clock: Duration)
    requires OpenAt(s, cfg, clock) && Timely(clock, readings, Reading)
    ensures Run(s, Asks(readings)).grants == s.grants + Grants(cfg, readings)
    decreases |readings|
  {
    hide OpenAt, Next;
    if readings != [] {
      var now, step := readings[0], Asking(readings[0], NoFault);
      AskGranted(s, cfg, clock, now);
      assert Asks(readings)[0] == step && Asks(readings)[1..] == Asks(readings[1..]);
      EveryAskGranted(Next(s, step), cfg, readings[1..], now);
      assert s.grants + [Grant(now, cfg)] + Grants(cfg, readings[1..]) == s.grants + Grants(cfg, readings);
    }
  }

  // Every window below a millisecond is accepted by `open`, and as long as the clock does not go back
  // the gate grants every request.
  lemma SubMillisecondWindowNeverBlocks(cfg: GateConfig, readings: seq<Duration>)
    requires 0 < cfg.window < NANOS_PER_MILLI && cfg.mapSizeBytes >= 1024 * 1024 && Timely(0, readings, Reading)
    ensures Run(BOOT, [Opening(cfg, Opens)] + Asks(readings)).grants == Grants(cfg, readings)
  {
    var s := Next(BOOT, Opening(cfg, Opens));
    assert s == System(None, Up(cfg, 0), [], 0);
    assert ([Opening(cfg, Opens)] + Asks(readings))[1..] == Asks(readings);
    EveryAskGranted(s, cfg, readings, 0);
  }

  // ----- which failures reach the caller -----

  // A call fails, for whatever record and cache, exactly past the cached lock and when the transaction
  // cannot begin - whether or not the gate fails closed - or, failing closed, when the read fails or,
  // past the record's lock too, any later step does.
  lemma FailsIff(disk: Option<Record>, cached: u64, cfg: GateConfig, now: Duration, fault: Fault)
    ensures Acquire(disk, cached, cfg, now, fault).reply.Failed?
       <==> && ToMillis(now) >= cached
            && (fault.BeginFails?
                || (cfg.failClosed && (fault.ReadFails? || (ToMillis(now) >= LockOf(disk) && !fault.NoFault?))))
  {
    hide ToMillis, FromMillis;
  }

  // What every call does, for every record, cache, configuration and fault. It blocks on the cached lock
  // whatever the store does, and on the record's if that can be read; the record is written exactly when
  // a commit past both locks takes effect, reported or not; a grant moves the cache to its own lock, a
  // block to the lock it names, and a failure leaves it.
  lemma EveryOutcome(disk: Option<Record>, cached: u64, cfg: GateConfig, now: Duration, fault: Fault)
    ensures var o := Acquire(disk, cached, cfg, now, fault);
            var nowMs, windowMs := ToMillis(now), ToMillis(cfg.window);
            var until: u64 := Min(nowMs + windowMs, U64_MAX);
            var past := nowMs >= cached && nowMs >= LockOf(disk);
            && (o.reply.Decided? && o.reply.decision.Blocked? <==>
                  nowMs < cached || (!fault.BeginFails? && !fault.ReadFails? && nowMs < LockOf(disk)))
            && o.disk == (if past && (fault.NoFault? || fault == CommitFails(true))
                          then Some(Record(1, until, nowMs, windowMs)) else disk)
            && match o.reply
               case Failed => o.cached == cached
               case Decided(Allowed(lock)) => o.cached == until && lock == FromMillis(until)
               case Decided(Blocked(lock)) =>
                 o.cached == (if nowMs < cached then cached else LockOf(disk)) && lock == FromMillis(o.cached)
  {
    hide ToMillis, FromMillis;
  }

  // So a gate that fails open grants in memory through every failure of the store except the first
  // possible one.
  lemma FailOpenStillFailsIff(disk: Option<Record>, cached: u64, cfg: GateConfig, now: Duration, fault: Fault)
    requires !cfg.failClosed
    ensures Acquire(disk, cached, cfg, now, fault).reply.Failed? <==> ToMillis(now) >= cached && fault.BeginFails?
  {
    FailsIff(disk, cached, cfg, now, fault);
  }

  // A fresh gate that fails open, with three failures of the store: it grants when it cannot read and
  // when it cannot write, and fails when it cannot begin.
  lemma BeginFailureFailsOpenGate()
    ensures var cfg := GateConfig(1_000_000_000, 1024 * 1024, false);
            var s := Next(BOOT, Opening(cfg, Opens));
            && Acquire(s.disk, s.process.cached, cfg, 0, BeginFails).reply == Failed
            && Next(s, Asking(0, BeginFails)).grants == []
            && Next(s, Asking(0, ReadFails)).grants == [Grant(0, cfg)]
            && Next(s, Asking(0, PutFails)).grants == [Grant(0, cfg)]
  {
    var cfg := GateConfig(1_000_000_000, 1024 * 1024, false);
    assert Next(BOOT, Opening(cfg, Opens)) == System(None, Up(cfg, 0), [], 0);
  }

  // ----- fail open: separation between crashes only -----

  predicate CoveredInLife(s: System) {
    && s.life <= |s.grants|
    && (s.process.Up? ==>
         && (forall i :: s.life <= i < |s.grants| ==> GrantedUntil(s.grants[i]) <= s.process.cached)
         && (forall i, j :: s.life <= i < j < |s.grants| ==> ToMillis(s.grants[j].at) >= GrantedUntil(s.grants[i])))
  }

  lemma StepStaysCoveredInLife(s: System, step: Step)
    requires CoveredInLife(s)
    ensures CoveredInLife(Next(s, step))
  {
    hide ToMillis, FromMillis;
  }

  // With any configuration, the grants of one process lifetime are separated.
  lemma {:induction false} GrantsAreSeparatedInLife(s: System, steps: seq<Step>)
    requires CoveredInLife(s)
    ensures CoveredInLife(Run(s, steps))
    decreases |steps|
  {
    if steps != [] {
      hide CoveredInLife;
      StepStaysCoveredInLife(s, steps[0]);
      GrantsAreSeparatedInLife(Next(s, steps[0]), steps[1..]);
    }
  }

  // Across a crash a fail-open gate grants twice in one window: the first grant was never written.
  lemma FailOpenForgetsAcrossCrash()
    ensures var cfg := GateConfig(1_000_000_000, 1024 * 1024, false);
            var s0 := Next(BOOT, Opening(cfg, Opens));
            var s1 := Next(Next(s0, Asking(0, CommitFails(false))), Crash);
            var s2 := Next(Next(s1, Opening(cfg, Opens)), Asking(1_000_000, NoFault));
            s2.grants == [Grant(0, cfg), Grant(1_000_000, cfg)] && !Separated(s2.grants)
  {
    var cfg := GateConfig(1_000_000_000, 1024 * 1024, false);
    var s0 := Next(BOOT, Opening(cfg, Opens));
    assert s0 == System(None, Up(cfg, 0), [], 0);
    var s1 := Next(Next(s0, Asking(0, CommitFails(false))), Crash);
    assert s1 == System(None, Down, [Grant(0, cfg)], 0);
    var s2 := Next(Next(s1, Opening(cfg, Opens)), Asking(1_000_000, NoFault));
    assert s2.grants == [Grant(0, cfg), Grant(1_000_000, cfg)];
    assert ToMillis(s2.grants[1].at) == 1 && GrantedUntil(s2.grants[0]) == 1000;
  }

  // ----- without faults the gate opens exactly when the last lock is over -----

  predicate Faultless(steps: seq<Step>) {
    forall x :: x in steps ==>
        !x.CrashWhileAsking? && (x.Asking? ==> x.fault.NoFault?) && (x.Opening? ==> !x.openFault.CannotLoad?)
  }

  function LastLock(grants: seq<Grant>): u64 { if grants == [] then 0 else GrantedUntil(grants[|grants| - 1]) }

  predicate Exact(s: System) {
    LockOf(s.disk) == LastLock(s.grants) && (s.process.Up? ==> s.process.cached == LockOf(s.disk))
  }

  lemma {:induction false} FaultlessRunIsExact(s: System, steps: seq<Step>)
    requires Exact(s) && Faultless(steps)
    ensures Exact(Run(s, steps))
    decreases |steps|
  {
    if steps != [] {
      hide ToMillis, FromMillis;
      FaultlessRunIsExact(Next(s, steps[0]), steps[1..]);
    }
  }

  // The reply, in every fault-free run with any crashes between calls: granted if and only if the
  // clock has reached the end of the last lock, and otherwise blocked until exactly then.
  lemma GrantedIffLastLockOver(steps: seq<Step>, now: Duration)
    requires Faultless(steps) && Run(BOOT, steps).process.Up?
    ensures var s := Run(BOOT, steps);
            var reply := Acquire(s.disk, s.process.cached, s.process.cfg, now, NoFault).reply;
            && (ToMillis(now) >= LastLock(s.grants) ==>
                 reply == Decided(Allowed(FromMillis(NewLock(s.process.cfg, now)))))
            && (ToMillis(now) < LastLock(s.grants) ==> reply == Decided(Blocked(FromMillis(LastLock(s.grants)))))
  {
    FaultlessRunIsExact(BOOT, steps);
  }
}

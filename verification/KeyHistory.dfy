// What a key was granted over a whole run, read off the run itself: the bounds on one bucket's
// lifetime are bounds on the key wherever no key is evicted - and only there.
module KeyHistory {
  import opened Machine
  import opened TokenBucket
  import opened Types
  import Windows
  import opened Buckets
  import opened Limiters
  import opened Ledgers
  import opened KeyTable
  import opened Worlds
  import opened Accounting
  import opened BackoffHistory
  import opened WindowBounds
  import opened PoolBounds

  function SentIn(op: Op, key: Key): seq<Permit> {
    match op
    case Commit(p, outcome, _) => if p.key == key && !outcome.NotSent? then [p] else []
    case _ => []
  }

  // The permits of `key` that the run finalises as sent.
  function SentBy(ops: seq<Op>, key: Key): seq<Permit> {
    if ops == [] then [] else SentIn(ops[0], key) + SentBy(ops[1..], key)
  }

  // The run keeps every bucket for good.
  predicate Lasting(w: World, op: Op) {
    && NeverEvicts(w.lim.cfg)
    && (op.Update? ==> SameKind(w.lim.cfg.algorithm, op.cfg.algorithm))
  }

  function SpentOf(w: World, key: Key): seq<Permit> { if key in w.lives then w.lives[key].spent else [] }

  // What a bucket spent is what the run sent, and its life began once.
  lemma StepKeepsLife(w: World, op: Op, key: Key)
    requires Accounted(w) && Legal(w, op) && Lasting(w, op)
    ensures SpentOf(Step(w, op), key) == SpentOf(w, key) + SentIn(op, key)
    ensures key in w.lives ==> key in Step(w, op).lives && Step(w, op).lives[key].born == w.lives[key].born
  {
    hide TryAcquire, ApplyFeedback, CommitPermit, RefundPermit, ForceConfig, AnyOutstanding, CellOk, TableOk, Resolve,
         Backoff, Later, TotalCost, Of;
    if key in w.lim.buckets { StaysTracked(w, op, key); }
    TrackedIsTracked(w, op);
  }

  lemma TrackedIsTracked(w: World, op: Op)
    requires Accounted(w) && Legal(w, op)
    ensures Step(w, op).lives.Keys == Step(w, op).lim.buckets.Keys
  {
    hide Step, Legal, CellOk, TableOk;
    StepAccounted(w, op);
  }

  lemma {:induction false} RunKeepsLife(w: World, ops: seq<Op>, c: (World, Op) -> bool, key: Key)
    requires Accounted(w) && Along(w, ops, c)
    requires forall w, op :: c(w, op) ==> Lasting(w, op)
    ensures SpentOf(Run(w, ops), key) == SpentOf(w, key) + SentBy(ops, key)
    ensures key in w.lives ==> key in Run(w, ops).lives && Run(w, ops).lives[key].born == w.lives[key].born
    decreases |ops|
  {
    hide Step, Legal, Lasting, SentIn, SpentOf, CellOk, Accounted;
    if ops != [] {
      StepAccounted(w, ops[0]);
      StepKeepsLife(w, ops[0], key);
      RunKeepsLife(Step(w, ops[0]), ops[1..], c, key);
    }
  }

  // Net cost of the key over the run: issued, less what was refunded or not sent.
  function KeyCost(w: World, ops: seq<Op>, key: Key, f: Permit -> bool): nat {
    CostIf(Of(Run(w, ops).ledger, key), f) + CostIf(SentBy(ops, key), f)
  }

  lemma KeyCostIsLifeCost(cfg: Config, startedAt: Duration, ops: seq<Op>, c: (World, Op) -> bool, key: Key,
                          f: Permit -> bool)
    requires Along(Start(cfg, startedAt), ops, c)
    requires forall w, op :: c(w, op) ==> Lasting(w, op)
    ensures var w := Run(Start(cfg, startedAt), ops);
            && (key in w.lim.buckets ==>
                  key in w.lives && KeyCost(Start(cfg, startedAt), ops, key, f) == NetCost(CellOf(w, key), f))
            && (key !in w.lim.buckets ==> KeyCost(Start(cfg, startedAt), ops, key, f) == 0)
  {
    hide Along, Run, Lasting, CellOk, TableOk;
    var w0 := Start(cfg, startedAt);
    StartAccounted(cfg, startedAt);
    RunAccounted(w0, ops, c);
    RunKeepsLife(w0, ops, c, key);
    assert SpentOf(w0, key) == [];
    var w := Run(w0, ops);
    assert SpentOf(w, key) == SentBy(ops, key);
    if key !in w.lim.buckets {
      NewKeyHoldsNothing(w, key);
      NothingCosts(f);
    }
  }

  lemma NothingCosts(f: Permit -> bool)
    ensures CostIf([], f) == 0
  {
  }

  // ----- the bounds, for the key over the whole run -----

  lemma KeyWindowBound(cfg: Config, startedAt: Duration, ops: seq<Op>, c: (World, Op) -> bool, max: u32, win: Window,
                       key: Key, start: Duration)
    requires Along(Start(cfg, startedAt), ops, c)
    requires forall w, op :: c(w, op) ==> SteadyWindow(w, op, max, win) && NeverEvicts(w.lim.cfg)
    ensures KeyCost(Start(cfg, startedAt), ops, key, ChargedTo(start)) <= max
    ensures KeyCost(Start(cfg, startedAt), ops, key, IssuedIn(start, win)) <= 2 * max
  {
    hide Along, Run, KeyCost, NetCost, NeverEvicts, WindowOk;
    KeyCostIsLifeCost(cfg, startedAt, ops, c, key, ChargedTo(start));
    KeyCostIsLifeCost(cfg, startedAt, ops, c, key, IssuedIn(start, win));
    if key in Run(Start(cfg, startedAt), ops).lim.buckets {
      FixedWindowBound(cfg, startedAt, ops, c, max, win, key, start);
    }
  }

  lemma KeyWindowBoundWithoutCarry(cfg: Config, startedAt: Duration, ops: seq<Op>, c: (World, Op) -> bool,
                                   max: u32, win: Window, key: Key, start: Duration)
    requires Along(Start(cfg, startedAt), ops, c)
    requires forall w, op :: c(w, op) ==>
               SteadyWindow(w, op, max, win) && NothingHeldOver(w, op, key, win) && NeverEvicts(w.lim.cfg)
    ensures KeyCost(Start(cfg, startedAt), ops, key, IssuedIn(start, win)) <= max
  {
    hide Along, Run, KeyCost, NetCost, NeverEvicts, NothingHeldOver;
    KeyCostIsLifeCost(cfg, startedAt, ops, c, key, IssuedIn(start, win));
    if key in Run(Start(cfg, startedAt), ops).lim.buckets {
      FixedWindowBoundWithoutCarry(cfg, startedAt, ops, c, max, win, key, start);
    }
  }

  function Any(): Permit -> bool { (p: Permit) => true }

  // From the one call that created the bucket to the latest call.
  lemma KeyPoolBound(cfg: Config, startedAt: Duration, ops: seq<Op>, c: (World, Op) -> bool, rate: nat, key: Key)
    requires Along(Start(cfg, startedAt), ops, c)
    requires forall w, op :: c(w, op) ==> PoolSteady(w, op, rate) && w.clock <= op.now && NeverEvicts(w.lim.cfg)
    ensures var w := Run(Start(cfg, startedAt), ops);
            var cost := KeyCost(Start(cfg, startedAt), ops, key, Any());
            if key in w.lives
            then w.lives[key].born <= w.clock && cost <= w.lives[key].budget + Earned(rate, w.clock - w.lives[key].born)
            else cost == 0
  {
    hide Along, Run, KeyCost, NeverEvicts, Earned, TableOk, CellOk;
    var w := Run(Start(cfg, startedAt), ops);
    KeyCostIsLifeCost(cfg, startedAt, ops, c, key, Any());
    StartAccounted(cfg, startedAt);
    RunAccounted(Start(cfg, startedAt), ops, c);
    if key in w.lim.buckets {
      TokenBucketBoundInTime(cfg, startedAt, ops, c, rate, key);
      CostIfAll(CellOf(w, key).outs, Any());
      CostIfAll(CellOf(w, key).life.spent, Any());
    }
  }

  // ----- where keys are evicted they do not hold -----

  function Tiny(): Config { Config(FixedWindow(1, 10), Some(1), EvictOldestKey, None) }

  function Ticket(key: Key): Permit { Permit(key, 1, 0, 0, 10, WindowPermit(0)) }

  function Used(key: Key, reserved: u32, spent: u32): Limiter {
    Limiter(Tiny(), 0, map[], map[key := Bucket(None, FixedState(Fixed(0, reserved, spent)))], [key], None)
  }

  lemma FirstUse(key: Key)
    ensures TryAcquire(New(Tiny(), 0), key, 1, 0) == (Used(key, 1, 0), Granted(Ticket(key)))
  {
    OnlyWindowAtZero();
    var b0 := NewBucket(0, Tiny().algorithm);
    var (b, a) := Reserve(b0, key, Tiny().algorithm, 1, 0);
    assert b == Bucket(None, FixedState(Fixed(0, 1, 0))) && a == Granted(Ticket(key));
    assert map[][key := b0][key := b] == map[key := b] && [] + [key] == [key];
    var (l', a') := TryAcquire(New(Tiny(), 0), key, 1, 0);
    assert l'.buckets == map[key := b] && l'.fifo == [key];
  }

  lemma Confirming(key: Key)
    ensures CommitPermit(Used(key, 1, 0), Ticket(key), Confirmed, 0) == Used(key, 0, 1)
  {
    OnlyWindowAtZero();
  }

  lemma Evicting(key: Key, prior: Key)
    requires key != prior
    ensures TryAcquire(Used(prior, 0, 1), key, 1, 0) == (Used(key, 1, 0), Granted(Ticket(key)))
  {
    var l := Used(prior, 0, 1);
    assert FirstEvictable(l.buckets, l.fifo) == 0;
    assert EvictAt(l, 0) == New(Tiny(), 0);
    assert EnsureCapacity(l, key) == Some(New(Tiny(), 0));
    assert EnsureCapacity(New(Tiny(), 0), key) == Some(New(Tiny(), 0));
    FirstUse(key);
    hide Reserve, Insert, EnsureCapacity;
  }

  lemma OnlyWindowAtZero()
    ensures Windows.WindowStartFor(0, 10) == 0
  {
  }

  function TwoKeys(): seq<Op> {
    [Acquire(7, 1, 0), Op.Commit(Ticket(7), Confirmed, 0), Acquire(8, 1, 0), Op.Commit(Ticket(8), Confirmed, 0),
     Acquire(7, 1, 0)]
  }

  // A table of one key and a maximum of one: the first key is evicted, forgotten, and granted a second
  // time in the same window, though nothing is ever held over a boundary.
  lemma EvictionForgetsWhatWasSpent()
    ensures var w := Run(Start(Tiny(), 0), TwoKeys());
            w.ledger == [Ticket(7)] && SentBy(TwoKeys(), 7) == [Ticket(7)]
    ensures KeyCost(Start(Tiny(), 0), TwoKeys(), 7, IssuedIn(0, 10)) == 2
  {
    hide Run, SentBy;
    TwoKeysRun();
    SentByTwoKeys();
    OnlyWindowAtZero();
    assert Of([Ticket(7)], 7) == [Ticket(7)];
    assert CostIf([Ticket(7)], IssuedIn(0, 10)) == 1;
  }

  lemma TwoKeysRun()
    ensures Run(Start(Tiny(), 0), TwoKeys()).ledger == [Ticket(7)]
  {
    hide Run, TryAcquire, CommitPermit, Tracked;
    FiveSteps(Start(Tiny(), 0), TwoKeys());
    var w1 := Step(Start(Tiny(), 0), Acquire(7, 1, 0));
    FirstUse(7);
    assert w1.lim == Used(7, 1, 0) && w1.ledger == [Ticket(7)];
    var w2 := Step(w1, Op.Commit(Ticket(7), Confirmed, 0));
    Confirming(7);
    assert w2.lim == Used(7, 0, 1) && w2.ledger == [];
    var w3 := Step(w2, Acquire(8, 1, 0));
    Evicting(8, 7);
    assert w3.lim == Used(8, 1, 0) && w3.ledger == [Ticket(8)];
    var w4 := Step(w3, Op.Commit(Ticket(8), Confirmed, 0));
    Confirming(8);
    assert w4.lim == Used(8, 0, 1) && w4.ledger == [];
    Evicting(7, 8);
  }

  lemma TwoKeysSend()
    ensures var ops := TwoKeys();
            && |ops| == 5 && SentIn(ops[1], 7) == [Ticket(7)]
            && SentIn(ops[0], 7) == SentIn(ops[2], 7) == SentIn(ops[3], 7) == SentIn(ops[4], 7) == []
  {
  }

  lemma SentByTwoKeys()
    ensures SentBy(TwoKeys(), 7) == [Ticket(7)]
  {
    hide TwoKeys, Ticket;
    var ops := TwoKeys();
    TwoKeysSend();
    assert SentBy(ops[5..], 7) == [];
    assert ops[4..][1..] == ops[5..] && ops[3..][1..] == ops[4..];
    assert ops[2..][1..] == ops[3..] && ops[1..][1..] == ops[2..];
    assert SentBy(ops[4..], 7) == [];
    assert SentBy(ops[3..], 7) == [];
    assert SentBy(ops[2..], 7) == [];
    assert SentBy(ops[1..], 7) == [Ticket(7)];
  }

  lemma FiveSteps(w: World, ops: seq<Op>)
    requires |ops| == 5
    ensures Run(w, ops) == Step(Step(Step(Step(Step(w, ops[0]), ops[1]), ops[2]), ops[3]), ops[4])
  {
    hide Step;
    var w1 := Step(w, ops[0]);
    var w2 := Step(w1, ops[1]);
    var w3 := Step(w2, ops[2]);
    var w4 := Step(w3, ops[3]);
    assert ops[4..][1..] == [] && ops[3..][1..] == ops[4..] && ops[2..][1..] == ops[3..] && ops[1..][1..] == ops[2..];
    assert Run(w4, ops[4..]) == Run(Step(w4, ops[4]), []);
    assert Run(w3, ops[3..]) == Run(w4, ops[4..]);
    assert Run(w2, ops[2..]) == Run(w3, ops[3..]);
    assert Run(w1, ops[1..]) == Run(w2, ops[2..]);
  }
}

// Sums over permits: the ghost ledger of reservations that the run theorems are about.
module Ledgers {
  import opened Types

  function TotalCost(ps: seq<Permit>): nat {
    if ps == [] then 0 else TotalCost(ps[..|ps| - 1]) + ps[|ps| - 1].cost
  }

  // The permits of one key, in order of issue.
  function Of(ps: seq<Permit>, key: Key): (r: seq<Permit>)
    ensures forall p :: p in r <==> p in ps && p.key == key
  {
    if ps == [] then []
    else
      var rest := Of(ps[..|ps| - 1], key);
      if ps[|ps| - 1].key == key then rest + [ps[|ps| - 1]] else rest
  }

  // The cost of the permits that satisfy `f`.
  function CostIf(ps: seq<Permit>, f: Permit -> bool): nat {
    if ps == [] then 0
    else CostIf(ps[..|ps| - 1], f) + (if f(ps[|ps| - 1]) then ps[|ps| - 1].cost else 0)
  }

  // The ledger without one occurrence of `p`.
  function RemoveOne(ps: seq<Permit>, p: Permit): (r: seq<Permit>)
    ensures forall q :: q in r ==> q in ps
    ensures p in ps ==> |r| == |ps| - 1
    ensures p !in ps ==> r == ps
  {
    if ps == [] then []
    else if ps[|ps| - 1] == p then ps[..|ps| - 1]
    else RemoveOne(ps[..|ps| - 1], p) + [ps[|ps| - 1]]
  }

  lemma Append(ps: seq<Permit>, p: Permit)
    ensures TotalCost(ps + [p]) == TotalCost(ps) + p.cost
  {
    assert (ps + [p])[..|ps|] == ps;
  }

  lemma AppendIf(ps: seq<Permit>, p: Permit, f: Permit -> bool)
    ensures CostIf(ps + [p], f) == CostIf(ps, f) + (if f(p) then p.cost else 0)
  {
    assert (ps + [p])[..|ps|] == ps;
  }

  lemma AppendOf(ps: seq<Permit>, p: Permit, k: Key)
    ensures Of(ps + [p], k) == if p.key == k then Of(ps, k) + [p] else Of(ps, k)
  {
    assert (ps + [p])[..|ps|] == ps;
  }

  lemma {:induction false} Removed(ps: seq<Permit>, p: Permit)
    requires p in ps
    ensures TotalCost(RemoveOne(ps, p)) + p.cost == TotalCost(ps)
  {
    if ps[|ps| - 1] != p {
      Removed(ps[..|ps| - 1], p);
      Append(RemoveOne(ps[..|ps| - 1], p), ps[|ps| - 1]);
    }
  }

  lemma {:induction false} RemovedIf(ps: seq<Permit>, p: Permit, f: Permit -> bool)
    requires p in ps
    ensures CostIf(RemoveOne(ps, p), f) + (if f(p) then p.cost else 0) == CostIf(ps, f)
  {
    if ps[|ps| - 1] != p {
      RemovedIf(ps[..|ps| - 1], p, f);
      AppendIf(RemoveOne(ps[..|ps| - 1], p), ps[|ps| - 1], f);
    }
  }

  lemma {:induction false} RemovedOf(ps: seq<Permit>, p: Permit, k: Key)
    ensures Of(RemoveOne(ps, p), k) == if p.key == k then RemoveOne(Of(ps, k), p) else Of(ps, k)
  {
    if ps != [] {
      var rest, last := ps[..|ps| - 1], ps[|ps| - 1];
      if last.key == k {
        assert Of(ps, k)[..|Of(rest, k)|] == Of(rest, k);
      }
      if last != p {
        RemovedOf(rest, p, k);
        AppendOf(RemoveOne(rest, p), last, k);
      }
    }
  }

  lemma {:induction false} NoneOf(ps: seq<Permit>, k: Key)
    requires forall p :: p in ps ==> p.key != k
    ensures Of(ps, k) == []
  {
    if ps != [] {
      NoneOf(ps[..|ps| - 1], k);
    }
  }

  lemma {:induction false} NoCostNoPermit(ps: seq<Permit>)
    ensures TotalCost(ps) == 0 <==> ps == []
  {
  }

  lemma {:induction false} CostAtLeast(ps: seq<Permit>, p: Permit)
    requires p in ps
    ensures p.cost <= TotalCost(ps)
  {
    if ps[|ps| - 1] != p {
      CostAtLeast(ps[..|ps| - 1], p);
    }
  }

  lemma {:induction false} CostIfWeaker(ps: seq<Permit>, f: Permit -> bool, g: Permit -> bool)
    requires forall p :: p in ps && f(p) ==> g(p)
    ensures CostIf(ps, f) <= CostIf(ps, g) <= TotalCost(ps)
  {
    if ps != [] {
      CostIfWeaker(ps[..|ps| - 1], f, g);
    }
  }

  // A set of permits covered by two conditions costs at most the two sums.
  lemma {:induction false} CostIfCovered(ps: seq<Permit>, f: Permit -> bool, g: Permit -> bool, h: Permit -> bool)
    requires forall p :: p in ps && f(p) ==> g(p) || h(p)
    ensures CostIf(ps, f) <= CostIf(ps, g) + CostIf(ps, h)
  {
    if ps != [] {
      CostIfCovered(ps[..|ps| - 1], f, g, h);
    }
  }

  lemma {:induction false} CostIfNone(ps: seq<Permit>, f: Permit -> bool)
    requires forall p :: p in ps ==> !f(p)
    ensures CostIf(ps, f) == 0
  {
    if ps != [] {
      CostIfNone(ps[..|ps| - 1], f);
    }
  }

  lemma {:induction false} CostIfAll(ps: seq<Permit>, f: Permit -> bool)
    requires forall p :: p in ps ==> f(p)
    ensures CostIf(ps, f) == TotalCost(ps)
  {
    if ps != [] {
      CostIfAll(ps[..|ps| - 1], f);
    }
  }
}

// src/in_flight.rs: the table that deduplicates requests in flight, with deadline expiry through a
// lazily cleaned heap. The heap is a multiset with a pop-min; the live entries are a map, and every
// operation is specified on that map alone.
module InFlight {
  import opened Machine
  import opened Types

  // ----- waiters -----

  datatype Waiters<W> = One(w: W) | Many(ws: seq<W>)

  function Push<W>(waiters: Waiters<W>, w: W): Waiters<W> {
    match waiters
    case One(w0) => Many([w0, w])
    case Many(ws) => Many(ws + [w])
  }

  function IntoVec<W>(waiters: Waiters<W>): seq<W> {
    match waiters
    case One(w) => [w]
    case Many(ws) => ws
  }

  // ----- entries and heap items -----

  datatype Entry<F, W> = Entry(fp: F, deadline: Duration, waiters: Waiters<W>, seqNo: u64)

  datatype Item = Item(deadline: Duration, seqNo: u64, id: Key)

  datatype Expired<W> = Expired(id: Key, waiters: seq<W>)

  datatype BeginResult = New | Joined | PayloadMismatch | TableFull

  predicate Precedes(a: Item, b: Item) {
    || a.deadline < b.deadline
    || (a.deadline == b.deadline && a.seqNo < b.seqNo)
    || (a.deadline == b.deadline && a.seqNo == b.seqNo && a.id <= b.id)
  }

  function ItemOf<F, W>(id: Key, e: Entry<F, W>): Item { Item(e.deadline, e.seqNo, id) }

  lemma {:induction false} LeastExists(heap: multiset<Item>)
    requires |heap| > 0
    ensures exists top :: top in heap && forall y :: y in heap ==> Precedes(top, y)
    decreases |heap|
  {
    var x :| x in heap;
    var rest := heap - multiset{x};
    if |rest| > 0 {
      LeastExists(rest);
      var t :| t in rest && forall y :: y in rest ==> Precedes(t, y);
      var top := if Precedes(t, x) then t else x;
      assert forall y :: y in heap ==> y == x || y in rest;
      assert forall y :: y in heap ==> Precedes(top, y);
    } else {
      assert forall y :: y in heap ==> y == x || y in rest;
    }
  }

  // Every live entry is in the heap; a heap item with a live entry's number is that entry's.
  // As long as at most 2^64 - 1 entries have begun the numbers count them.
  ghost predicate HeapOk<F, W>(entries: map<Key, Entry<F, W>>, heap: multiset<Item>, seqNo: u64, begun: nat) {
    && (forall id :: id in entries ==> ItemOf(id, entries[id]) in heap)
    && (forall x, y :: x in heap && y in heap && x.id == y.id && x.seqNo == y.seqNo ==> x == y)
    && (begun <= U64_MAX ==> seqNo == begun && forall x :: x in heap ==> x.seqNo <= seqNo)
  }

  // `wrapping_add(1)`.
  function NextNumber(seqNo: u64): u64 { if seqNo == U64_MAX then 0 else seqNo + 1 }

  // The heap holds no item of `id` with the number: what a wrapped number must not meet.
  predicate Unused(heap: multiset<Item>, id: Key, seqNo: u64) {
    forall x :: x in heap && x.id == id ==> x.seqNo != seqNo
  }

  lemma EarlyNumberUnused<F, W>(entries: map<Key, Entry<F, W>>, heap: multiset<Item>, seqNo: u64, begun: nat, id: Key)
    requires HeapOk(entries, heap, seqNo, begun) && begun < U64_MAX
    ensures Unused(heap, id, NextNumber(seqNo))
  {
  }

  lemma JoinKeepsHeap<F, W>(entries: map<Key, Entry<F, W>>, heap: multiset<Item>, seqNo: u64, begun: nat, id: Key,
                            e: Entry<F, W>)
    requires id in entries && e.seqNo == entries[id].seqNo && e.deadline == entries[id].deadline
    ensures HeapOk(entries, heap, seqNo, begun) ==> HeapOk(entries[id := e], heap, seqNo, begun)
  {
  }

  lemma NewKeepsHeap<F, W>(entries: map<Key, Entry<F, W>>, heap: multiset<Item>, seqNo: u64, begun: nat, id: Key,
                           e: Entry<F, W>)
    requires e.seqNo == NextNumber(seqNo)
    ensures HeapOk(entries, heap, seqNo, begun) && Unused(heap, id, e.seqNo) ==>
              HeapOk(entries[id := e], heap + multiset{ItemOf(id, e)}, NextNumber(seqNo), begun + 1)
  {
    assert forall x :: x in heap + multiset{ItemOf(id, e)} ==> x in heap || x == ItemOf(id, e);
  }

  lemma DrainKeepsHeap<F, W>(entries: map<Key, Entry<F, W>>, heap: multiset<Item>, seqNo: u64, begun: nat, id: Key)
    ensures HeapOk(entries, heap, seqNo, begun) ==> HeapOk(entries - {id}, heap, seqNo, begun)
  {
  }

  lemma NothingToRemove<F, W>(entries: map<Key, Entry<F, W>>, id: Key)
    requires id !in entries
    ensures entries - {id} == entries
  {
  }

  // The items of the entries in `ids`, and nothing else.
  ghost predicate ItemsOf<F, W>(entries: map<Key, Entry<F, W>>, ids: set<Key>, items: multiset<Item>) {
    && (forall id :: id in ids && id in entries ==> ItemOf(id, entries[id]) in items)
    && (forall x :: x in items ==> x.id in entries && x == ItemOf(x.id, entries[x.id]))
  }

  lemma NoItems<F, W>(entries: map<Key, Entry<F, W>>, none: set<Key>)
    requires none == {}
    ensures ItemsOf(entries, none, multiset{})
  {
  }

  lemma OneMoreItem<F, W>(entries: map<Key, Entry<F, W>>, ids: set<Key>, items: multiset<Item>, id: Key)
    requires ItemsOf(entries, ids, items) && id in entries
    ensures ItemsOf(entries, ids + {id}, items + multiset{ItemOf(id, entries[id])})
  {
  }

  lemma RebuiltKeepsHeap<F, W>(entries: map<Key, Entry<F, W>>, heap: multiset<Item>, rebuilt: multiset<Item>,
                               seqNo: u64, begun: nat)
    requires ItemsOf(entries, entries.Keys, rebuilt)
    ensures HeapOk(entries, heap, seqNo, begun) ==> HeapOk(entries, rebuilt, seqNo, begun)
  {
  }

  predicate Live<F, W>(entries: map<Key, Entry<F, W>>, x: Item) {
    x.id in entries && entries[x.id].seqNo == x.seqNo
  }

  // The items an id has left in the heap stay dead when it begins again if and only if the new number
  // is none of theirs; one that has it would expire the new entry at its own deadline.
  lemma StaleItemsStayDeadIff<F, W>(entries: map<Key, Entry<F, W>>, heap: multiset<Item>, id: Key, e: Entry<F, W>)
    ensures (forall x :: x in heap && x.id == id ==> !Live(entries[id := e], x)) <==> Unused(heap, id, e.seqNo)
  {
  }

  // ----- the history -----

  datatype Mark = Began(id: Key) | Drained(id: Key)

  function LiveAfter(log: seq<Mark>): set<Key> {
    if log == [] then {}
    else
      var before := LiveAfter(log[..|log| - 1]);
      match log[|log| - 1]
      case Began(id) => before + {id}
      case Drained(id) => before - {id}
  }

  // A side effect begins only for an id that is not in flight, and only what is in flight is drained.
  ghost predicate SingleFlight(log: seq<Mark>) {
    forall i :: 0 <= i < |log| ==>
      (log[i].Began? <==> log[i].id !in LiveAfter(log[..i]))
  }

  lemma AppendMark(log: seq<Mark>, m: Mark)
    requires SingleFlight(log)
    requires m.Began? <==> m.id !in LiveAfter(log)
    ensures SingleFlight(log + [m])
    ensures LiveAfter(log + [m]) == if m.Began? then LiveAfter(log) + {m.id} else LiveAfter(log) - {m.id}
  {
    assert (log + [m])[..|log|] == log;
    forall i | 0 <= i < |log| ensures (log + [m])[..i] == log[..i] {}
  }

  lemma {:induction false} LiveUnlessDrained(log: seq<Mark>, i: nat, id: Key)
    requires i < |log| && log[i] == Began(id)
    requires forall k :: i < k < |log| ==> log[k] != Drained(id)
    ensures id in LiveAfter(log)
    decreases |log|
  {
    if i < |log| - 1 {
      LiveUnlessDrained(log[..|log| - 1], i, id);
    }
  }

  // Two New results for one id are always separated by a drain of that id.
  lemma DrainBetweenNews(log: seq<Mark>, i: nat, j: nat, id: Key)
    requires SingleFlight(log) && i < j < |log| && log[i] == Began(id) && log[j] == Began(id)
    ensures exists k :: i < k < j && log[k] == Drained(id)
  {
    if forall k :: i < k < j ==> log[k] != Drained(id) {
      LiveUnlessDrained(log[..j], i, id);
    }
  }

  function Drains<W>(out: seq<Expired<W>>): seq<Mark> { seq(|out|, i requires 0 <= i < |out| => Drained(out[i].id)) }

  lemma NothingDrained<W>()
    ensures Drains<W>([]) == []
  {
  }

  lemma OneMoreDrained<W>(out: seq<Expired<W>>, item: Expired<W>)
    ensures Drains(out + [item]) == Drains(out) + [Drained(item.id)]
  {
  }

  // What was ever accepted for, or drained from, one id.
  function Of<W>(history: map<Key, seq<W>>, id: Key): seq<W> { if id in history then history[id] else [] }

  function Record<W>(history: map<Key, seq<W>>, id: Key, ws: seq<W>): map<Key, seq<W>> {
    history[id := Of(history, id) + ws]
  }

  function Waiting<F, W>(entries: map<Key, Entry<F, W>>, id: Key): seq<W> {
    if id in entries then IntoVec(entries[id].waiters) else []
  }

  // Accepted waiters are exactly those drained and those still held, in order, for every id.
  ghost predicate Conserved<F, W>(entries: map<Key, Entry<F, W>>, accepted: map<Key, seq<W>>, drained: map<Key, seq<W>>,
                                  log: seq<Mark>)
  {
    && (forall id :: Of(accepted, id) == Of(drained, id) + Waiting(entries, id))
    && SingleFlight(log) && LiveAfter(log) == entries.Keys
  }

  lemma JoinConserves<F, W>(entries: map<Key, Entry<F, W>>, accepted: map<Key, seq<W>>, drained: map<Key, seq<W>>,
                            log: seq<Mark>, id: Key, w: W)
    requires Conserved(entries, accepted, drained, log) && id in entries
    ensures var joined := entries[id := entries[id].(waiters := Push(entries[id].waiters, w))];
            && Conserved(joined, Record(accepted, id, [w]), drained, log)
            && |joined| == |entries|
  {
    var joined := entries[id := entries[id].(waiters := Push(entries[id].waiters, w))];
    assert joined.Keys == entries.Keys;
    assert |joined.Keys| == |entries.Keys|;
    PushKeepsOrder(entries[id].waiters, w);
    assert Of(drained, id) + (IntoVec(entries[id].waiters) + [w])
        == Of(drained, id) + IntoVec(entries[id].waiters) + [w];
  }

  lemma NewConserves<F, W>(entries: map<Key, Entry<F, W>>, accepted: map<Key, seq<W>>, drained: map<Key, seq<W>>,
                           log: seq<Mark>, id: Key, e: Entry<F, W>, w: W)
    requires Conserved(entries, accepted, drained, log) && id !in entries && e.waiters == One(w)
    ensures Conserved(entries[id := e], Record(accepted, id, [w]), drained, log + [Began(id)])
    ensures |entries[id := e]| == |entries| + 1
  {
    hide SingleFlight, LiveAfter;
    assert entries[id := e].Keys == entries.Keys + {id};
    assert |entries[id := e].Keys| == |entries.Keys| + 1;
    AppendMark(log, Began(id));
    assert Of(accepted, id) == Of(drained, id) + [];
    assert Of(Record(accepted, id, [w]), id) == Of(drained, id) + [w];
  }

  lemma DrainConserves<F, W>(entries: map<Key, Entry<F, W>>, accepted: map<Key, seq<W>>, drained: map<Key, seq<W>>,
                             log: seq<Mark>, id: Key)
    requires Conserved(entries, accepted, drained, log) && id in entries
    ensures Conserved(entries - {id}, accepted, Record(drained, id, Waiting(entries, id)), log + [Drained(id)])
    ensures |entries - {id}| == |entries| - 1
  {
    assert (entries - {id}).Keys == entries.Keys - {id};
    assert |(entries - {id}).Keys| == |entries.Keys| - 1;
    AppendMark(log, Drained(id));
  }

  lemma PushKeepsOrder<W>(waiters: Waiters<W>, w: W)
    ensures IntoVec(Push(waiters, w)) == IntoVec(waiters) + [w]
  {
  }

  // ----- the bounds -----

  // The space bound that holds after every call.
  predicate Compact(items: nat, live: nat) { items <= 4 * live + 64 && (live == 0 ==> items == 0) }

  // What a compaction, if one is due, pushes again.
  function Repushed(items: nat, live: nat): nat { if live > 0 && items > 4 * live + 64 then live else 0 }

  // The work bound: three times the items pushed again, plus the stale items, is paid by completions.
  predicate Amortised(items: nat, live: nat, completions: nat, repushed: nat) {
    3 * repushed + items - live <= completions
  }

  // A new entry and its item stay within both bounds, with nothing to compact.
  lemma OneMoreWithinBounds(items: nat, live: nat, completions: nat, repushed: nat)
    requires Compact(items, live) && Amortised(items, live, completions, repushed)
    ensures Repushed(items + 1, live + 1) == 0 && Amortised(items + 1, live + 1, completions, repushed)
  {
  }

  // ----- what expiry has done so far -----

  // `out` lists entries of `was` that are due, each once, by deadline and then by age; nothing left
  // in the heap comes before them, and what left the table is listed.
  ghost predicate Expiring<F, W>(was: map<Key, Entry<F, W>>, entries: map<Key, Entry<F, W>>, heap: multiset<Item>,
                                 out: seq<Expired<W>>, now: Duration)
  {
    && (forall id :: id in entries ==> id in was && entries[id] == was[id])
    && (forall x :: x in out ==>
         x.id in was && x.id !in entries && was[x.id].deadline <= now && x.waiters == Waiting(was, x.id))
    && (forall id :: id in was && id !in entries ==> Listed(out, id))
    && InOrder(was, out)
    && (forall x, y :: x in out && y in heap && x.id in was ==> Precedes(ItemOf(x.id, was[x.id]), y))
  }

  ghost predicate Listed<W>(out: seq<Expired<W>>, id: Key) { exists x :: x in out && x.id == id }

  ghost predicate InOrder<F, W>(was: map<Key, Entry<F, W>>, out: seq<Expired<W>>) {
    forall i, j :: 0 <= i < j < |out| ==>
      && out[i].id != out[j].id
      && out[i].id in was && out[j].id in was
      && Precedes(ItemOf(out[i].id, was[out[i].id]), ItemOf(out[j].id, was[out[j].id]))
  }

  lemma ExpiryStarts<F, W>(was: map<Key, Entry<F, W>>, heap: multiset<Item>, now: Duration)
    ensures Expiring(was, was, heap, [], now)
  {
  }

  lemma PopKeepsHeap<F, W>(entries: map<Key, Entry<F, W>>, heap: multiset<Item>, seqNo: u64, begun: nat, top: Item)
    requires HeapOk(entries, heap, seqNo, begun) && top in heap && Live(entries, top)
    ensures HeapOk(entries - {top.id}, heap - multiset{top}, seqNo, begun) && ItemOf(top.id, entries[top.id]) == top
  {
    assert ItemOf(top.id, entries[top.id]) == top;
    assert forall x :: x in heap - multiset{top} ==> x in heap;
  }

  lemma OneMoreInOrder<F, W>(was: map<Key, Entry<F, W>>, out: seq<Expired<W>>, item: Expired<W>)
    requires InOrder(was, out) && item.id in was
    requires forall x :: x in out ==>
             x.id in was && x.id != item.id && Precedes(ItemOf(x.id, was[x.id]), ItemOf(item.id, was[item.id]))
    ensures InOrder(was, out + [item])
  {
    forall i | 0 <= i < |out| ensures out[i] in out {}
  }

  lemma OneMoreListed<W>(out: seq<Expired<W>>, item: Expired<W>)
    ensures Listed(out + [item], item.id)
    ensures forall id :: Listed(out, id) ==> Listed(out + [item], id)
  {
    assert item in out + [item];
    forall id | Listed(out, id) ensures Listed(out + [item], id) {
      var x :| x in out && x.id == id;
      assert x in out + [item];
    }
  }

  lemma ExpireOne<F, W>(was: map<Key, Entry<F, W>>, entries: map<Key, Entry<F, W>>, heap: multiset<Item>,
                        out: seq<Expired<W>>, now: Duration, seqNo: u64, begun: nat, top: Item)
    requires Expiring(was, entries, heap, out, now) && HeapOk(entries, heap, seqNo, begun)
    requires top in heap && (forall y :: y in heap ==> Precedes(top, y)) && top.deadline <= now && Live(entries, top)
    ensures var rest := entries - {top.id};
            && HeapOk(rest, heap - multiset{top}, seqNo, begun)
            && Expiring(was, rest, heap - multiset{top}, out + [Expired(top.id, Waiting(entries, top.id))], now)
  {
    var rest, left := entries - {top.id}, heap - multiset{top};
    var item := Expired(top.id, Waiting(entries, top.id));
    PopKeepsHeap(entries, heap, seqNo, begun, top);
    assert item.waiters == Waiting(was, top.id) && was[top.id].deadline == top.deadline;
    assert ItemOf(top.id, was[top.id]) == top;
    hide HeapOk, Waiting, InOrder, Precedes, ItemOf, Listed, Live;
    OneMoreInOrder(was, out, item);
    OneMoreListed(out, item);
    forall x | x in out + [item]
      ensures x.id in was && x.id !in rest && was[x.id].deadline <= now && x.waiters == Waiting(was, x.id)
      ensures forall y :: y in left ==> Precedes(ItemOf(x.id, was[x.id]), y)
    {
      assert forall y :: y in left ==> y in heap;
      if x != item { assert x in out; }
    }
    forall id | id in was && id !in rest ensures Listed(out + [item], id) {
      if id != top.id { assert Listed(out, id); }
    }
  }

  lemma SkipStale<F, W>(was: map<Key, Entry<F, W>>, entries: map<Key, Entry<F, W>>, heap: multiset<Item>,
                        out: seq<Expired<W>>, now: Duration, seqNo: u64, begun: nat, top: Item)
    requires Expiring(was, entries, heap, out, now) && HeapOk(entries, heap, seqNo, begun)
    requires top in heap && !Live(entries, top)
    ensures HeapOk(entries, heap - multiset{top}, seqNo, begun)
    ensures Expiring(was, entries, heap - multiset{top}, out, now)
  {
    assert forall x :: x in heap - multiset{top} ==> x in heap;
    assert forall id :: id in entries ==> ItemOf(id, entries[id]) != top;
  }

  // What an expiry at `now` makes of the table `was`: exactly the rest is kept, exactly the due
  // entries come out, with their waiters in the order they joined, each once, by deadline and then by age.
  ghost predicate Purged<F, W>(was: map<Key, Entry<F, W>>, entries: map<Key, Entry<F, W>>, out: seq<Expired<W>>,
                               now: Duration)
  {
    && entries == (map id | id in was && was[id].deadline > now :: was[id])
    && (forall id :: Listed(out, id) <==> id in was && was[id].deadline <= now)
    && (forall x :: x in out ==> x.waiters == Waiting(was, x.id))
    && InOrder(was, out)
  }

  // Once the least item is not due, what is left is exactly what is not due.
  lemma NothingDueIsLeft<F, W>(was: map<Key, Entry<F, W>>, entries: map<Key, Entry<F, W>>, heap: multiset<Item>,
                               out: seq<Expired<W>>, now: Duration, seqNo: u64, begun: nat)
    requires Expiring(was, entries, heap, out, now) && HeapOk(entries, heap, seqNo, begun)
    requires forall y :: y in heap ==> y.deadline > now
    ensures Purged(was, entries, out, now)
  {
    forall id | id in was ensures id in entries <==> was[id].deadline > now {
      if id in entries {
        assert ItemOf(id, entries[id]) in heap;
      } else {
        var x :| x in out && x.id == id;
      }
    }
    forall id | id in was && was[id].deadline <= now ensures Listed(out, id) {
      assert id !in entries;
    }
  }

  // ----- the table -----

  class InFlightTable<F(==), W> {
    const maxInFlight: nat
    var seqNo: u64
    var entries: map<Key, Entry<F, W>>
    var heap: multiset<Item>

    // The history of the table: waiters accepted and drained by id, beginnings and drains in order,
    // how many entries have begun, completions that removed one, and heap items pushed again by compactions.
    ghost var accepted: map<Key, seq<W>>
    ghost var drained: map<Key, seq<W>>
    ghost var log: seq<Mark>
    ghost var begun: nat
    ghost var completions: nat
    ghost var repushed: nat

    // What holds of every table: the waiters are conserved, each id is single flight, and the entries,
    // the heap and the compaction work are bounded.
    ghost predicate Bounded()
      reads this
    {
      && |entries| <= maxInFlight
      && Conserved(entries, accepted, drained, log)
      && Compact(|heap|, |entries|)
      && Amortised(|heap|, |entries|, completions, repushed)
    }

    // The heap stands for the live entries, as long as no wrapped number has met a stale item of its id.
    ghost predicate Sound()
      reads this
    {
      HeapOk(entries, heap, seqNo, begun)
    }

    ghost predicate Valid()
      reads this
    {
      Bounded() && Sound()
    }

    constructor (maxInFlight: nat)
      ensures Valid() && this.maxInFlight == maxInFlight && entries == map[]
      ensures log == [] && begun == 0 && completions == 0 && repushed == 0
    {
      this.maxInFlight := maxInFlight;
      seqNo, entries, heap := 0, map[], multiset{};
      accepted, drained, log, begun, completions, repushed := map[], map[], [], 0, 0, 0;
    }

    method Begin(id: Key, fp: F, deadline: Duration, waiter: W) returns (r: BeginResult)
      requires Bounded()
      modifies this
      ensures Bounded()
      ensures old(Sound()) && (r == New ==> Unused(old(heap), id, seqNo)) ==> Sound()
      ensures r == if id in old(entries) then (if old(entries)[id].fp != fp then PayloadMismatch else Joined)
                   else if |old(entries)| >= maxInFlight then TableFull else New
      ensures r == New ==> entries == old(entries)[id := Entry(fp, deadline, One(waiter), seqNo)]
      ensures r == New ==> seqNo == NextNumber(old(seqNo)) && begun == old(begun) + 1 && log == old(log) + [Began(id)]
      ensures r == Joined ==>
              entries == old(entries)[id := old(entries)[id].(waiters := Push(old(entries)[id].waiters, waiter))]
      ensures r == PayloadMismatch || r == TableFull ==> entries == old(entries)
      ensures r != New ==> heap == old(heap) && log == old(log) && seqNo == old(seqNo) && begun == old(begun)
      ensures accepted == if r == New || r == Joined then Record(old(accepted), id, [waiter]) else old(accepted)
      ensures drained == old(drained) && completions == old(completions)
      // it never compacts: the heap grows by one item, and its bound by four
      ensures repushed == old(repushed)
    {
      hide Conserved, HeapOk, Of, Record, LiveAfter, SingleFlight, Push, IntoVec, ItemOf, Live, Compact, Amortised,
           Repushed, NextNumber, Unused;
      if id in entries {
        var st := entries[id];
        if st.fp != fp {
          return PayloadMismatch;
        }
        JoinConserves(entries, accepted, drained, log, id, waiter);
        JoinKeepsHeap(entries, heap, seqNo, begun, id, st.(waiters := Push(st.waiters, waiter)));
        entries := entries[id := st.(waiters := Push(st.waiters, waiter))];
        accepted := Record(accepted, id, [waiter]);
        return Joined;
      }
      if |entries| >= maxInFlight {
        return TableFull;
      }
      OneMoreWithinBounds(|heap|, |entries|, completions, repushed);
      Enter(id, fp, deadline, waiter);
      MaybeCompactHeap();
      r := New;
    }

    // A new entry, in the table and in the heap.
    method Enter(id: Key, fp: F, deadline: Duration, waiter: W)
      requires Conserved(entries, accepted, drained, log) && id !in entries
      modifies `seqNo, `heap, `entries, `accepted, `log, `begun
      ensures Conserved(entries, accepted, drained, log)
      ensures old(Sound()) && Unused(old(heap), id, seqNo) ==> Sound()
      ensures entries == old(entries)[id := Entry(fp, deadline, One(waiter), seqNo)]
      ensures |entries| == |old(entries)| + 1 && |heap| == |old(heap)| + 1
      ensures seqNo == NextNumber(old(seqNo)) && begun == old(begun) + 1 && log == old(log) + [Began(id)]
      ensures accepted == Record(old(accepted), id, [waiter])
    {
      hide Conserved, HeapOk, Of, Record, ItemOf, NextNumber, Unused;
      var e := Entry(fp, deadline, One(waiter), NextNumber(seqNo));
      NewConserves(entries, accepted, drained, log, id, e, waiter);
      NewKeepsHeap(entries, heap, seqNo, begun, id, e);
      seqNo, heap, entries := e.seqNo, heap + multiset{ItemOf(id, e)}, entries[id := e];
      accepted, log, begun := Record(accepted, id, [waiter]), log + [Began(id)], begun + 1;
    }

    method Complete(id: Key) returns (out: seq<W>)
      requires Bounded()
      modifies this
      ensures Bounded() && (old(Sound()) ==> Sound())
      ensures out == Waiting(old(entries), id)
      ensures entries == old(entries) - {id}
      ensures completions == old(completions) + (if id in old(entries) then 1 else 0)
      ensures log == if id in old(entries) then old(log) + [Drained(id)] else old(log)
      ensures drained == if id in old(entries) then Record(old(drained), id, out) else old(drained)
      ensures accepted == old(accepted) && seqNo == old(seqNo) && begun == old(begun)
      ensures repushed == old(repushed) + Repushed(|old(heap)|, |entries|)
    {
      hide Conserved, HeapOk, Of, Record, LiveAfter, SingleFlight, Push, IntoVec, ItemOf, Live;
      out := [];
      if id in entries {
        DrainKeepsHeap(entries, heap, seqNo, begun, id);
        out := Drain(id);
        completions := completions + 1;
      } else {
        NothingToRemove(entries, id);
      }
      MaybeCompactHeap();
    }

    // One entry leaves the table and its waiters are handed over.
    method Drain(id: Key) returns (ws: seq<W>)
      requires Conserved(entries, accepted, drained, log) && id in entries
      modifies `entries, `drained, `log
      ensures Conserved(entries, accepted, drained, log)
      ensures ws == Waiting(old(entries), id)
      ensures entries == old(entries) - {id} && |entries| == |old(entries)| - 1
      ensures drained == Record(old(drained), id, ws) && log == old(log) + [Drained(id)]
    {
      hide Conserved, Of, Record, LiveAfter, SingleFlight, IntoVec;
      DrainConserves(entries, accepted, drained, log, id);
      ws := IntoVec(entries[id].waiters);
      drained := Record(drained, id, ws);
      log := log + [Drained(id)];
      entries := entries - {id};
    }

    method MaybeCompactHeap()
      requires Amortised(|heap|, |entries|, completions, repushed)
      modifies `heap, `repushed
      ensures Compact(|heap|, |entries|) && (old(Sound()) ==> Sound())
      ensures Amortised(|heap|, |entries|, completions, repushed)
      ensures repushed == old(repushed) + Repushed(|old(heap)|, |entries|)
      // with no live entry the heap is emptied; else it is rebuilt exactly past the threshold
      ensures |entries| > 0 && |old(heap)| <= 4 * |entries| + 64 ==> heap == old(heap)
      ensures |entries| > 0 && |old(heap)| > 4 * |entries| + 64 ==> |heap| == |entries|
    {
      var live := |entries|;
      if live == 0 {
        heap := multiset{};
        return;
      }
      var threshold := live * 4 + 64;
      if |heap| > threshold {
        CompactHeap();
      }
    }

    method CompactHeap()
      modifies `heap, `repushed
      ensures |heap| == |entries| && (old(Sound()) ==> Sound())
      ensures repushed == old(repushed) + |entries|
    {
      hide HeapOk, ItemsOf, ItemOf;
      var rebuilt: multiset<Item> := multiset{};
      var todo := entries.Keys;
      NoItems(entries, {});
      assert entries.Keys - todo == {};
      while todo != {}
        invariant todo <= entries.Keys
        invariant |rebuilt| + |todo| == |entries.Keys|
        invariant ItemsOf(entries, entries.Keys - todo, rebuilt)
        invariant heap == old(heap) && repushed == old(repushed)
        decreases todo
      {
        var id :| id in todo;
        OneMoreItem(entries, entries.Keys - todo, rebuilt, id);
        rebuilt := rebuilt + multiset{ItemOf(id, entries[id])};
        assert entries.Keys - todo + {id} == entries.Keys - (todo - {id});
        todo := todo - {id};
      }
      assert entries.Keys - todo == entries.Keys;
      RebuiltKeepsHeap(entries, heap, rebuilt, seqNo, begun);
      heap := rebuilt;
      repushed := repushed + |entries|;
    }

    // One round of the expiry loop: a stale item is skipped, a live one is drained.
    method ExpireTop(top: Item, now: Duration, out: seq<Expired<W>>, ghost was: map<Key, Entry<F, W>>,
                     ghost sound: bool)
      returns (next: seq<Expired<W>>)
      requires Conserved(entries, accepted, drained, log)
      requires Amortised(|heap|, |entries|, completions, repushed) && |entries| <= maxInFlight
      requires sound ==> Sound() && Expiring(was, entries, heap, out, now)
      requires top in heap && (forall y :: y in heap ==> Precedes(top, y)) && top.deadline <= now
      modifies `entries, `heap, `drained, `log
      ensures Conserved(entries, accepted, drained, log)
      ensures Amortised(|heap|, |entries|, completions, repushed) && |entries| <= maxInFlight
      ensures sound ==> Sound() && Expiring(was, entries, heap, next, now)
      ensures |heap| == |old(heap)| - 1
      ensures next == if Live(old(entries), top) then out + [Expired(top.id, Waiting(old(entries), top.id))] else out
      ensures log == if Live(old(entries), top) then old(log) + [Drained(top.id)] else old(log)
    {
      hide Conserved, HeapOk, Expiring, InOrder, Of, Record, LiveAfter, SingleFlight, Push, IntoVec, ItemOf, Precedes;
      next := out;
      if Live(entries, top) {
        if sound { ExpireOne(was, entries, heap, out, now, seqNo, begun, top); }
        var ws := Drain(top.id);
        next := out + [Expired(top.id, ws)];
      } else if sound {
        SkipStale(was, entries, heap, out, now, seqNo, begun, top);
      }
      heap := heap - multiset{top};
    }

    // The expiry loop: the least item is popped while it is due.
    method ExpireDue(now: Duration) returns (out: seq<Expired<W>>)
      requires Conserved(entries, accepted, drained, log)
      requires Amortised(|heap|, |entries|, completions, repushed) && |entries| <= maxInFlight
      modifies `entries, `heap, `drained, `log
      ensures Conserved(entries, accepted, drained, log)
      ensures Amortised(|heap|, |entries|, completions, repushed) && |entries| <= maxInFlight
      ensures old(Sound()) ==> Sound() && Purged(old(entries), entries, out, now)
      ensures log == old(log) + Drains(out)
    {
      hide Conserved, HeapOk, Expiring, InOrder, Of, Record, LiveAfter, SingleFlight, IntoVec, ItemOf, Live, Amortised,
           Waiting, Purged, Drains;
      out := [];
      ghost var was, sound := entries, Sound();
      ExpiryStarts(was, heap, now);
      NothingDrained<W>();
      while |heap| > 0
        invariant Conserved(entries, accepted, drained, log)
        invariant Amortised(|heap|, |entries|, completions, repushed) && |entries| <= maxInFlight
        invariant sound ==> Sound() && Expiring(was, entries, heap, out, now)
        invariant log == old(log) + Drains(out)
        decreases |heap|
      {
        LeastExists(heap);
        var top :| top in heap && forall y :: y in heap ==> Precedes(top, y);
        if top.deadline > now {
          break;
        }
        OneMoreDrained(out, Expired(top.id, Waiting(entries, top.id)));
        out := ExpireTop(top, now, out, was, sound);
      }
      if sound { NothingDueIsLeft(was, entries, heap, out, now, seqNo, begun); }
    }

    method Expire(now: Duration) returns (out: seq<Expired<W>>)
      requires Bounded()
      modifies this
      ensures Bounded()
      ensures old(Sound()) ==> Sound() && Purged(old(entries), entries, out, now)
      ensures log == old(log) + Drains(out)
      ensures accepted == old(accepted) && completions == old(completions)
      ensures seqNo == old(seqNo) && begun == old(begun)
      ensures repushed == old(repushed) || (repushed == old(repushed) + |entries| && |heap| == |entries|)
    {
      hide Conserved, HeapOk, Compact, Amortised, Purged, Drains;
      out := ExpireDue(now);
      MaybeCompactHeap();
    }
  }
}

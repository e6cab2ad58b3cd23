// The table of tracked keys: what eviction takes, when the table refuses, and how it stays bounded.
module KeyTable {
  import opened Machine
  import opened Types
  import opened Buckets
  import opened Limiters

  // The insertion queue lists each tracked key exactly once.
  ghost predicate TableOk(l: Limiter) {
    && (forall i, j :: 0 <= i < j < |l.fifo| ==> l.fifo[i] != l.fifo[j])
    && (forall k :: k in l.fifo <==> k in l.buckets)
  }

  // No tracked key ever leaves the table.
  predicate NeverEvicts(cfg: Config) { cfg.maxKeys.None? || cfg.overflowPolicy.DenyNewKey? }

  // The queue after an operation that brings in `key`: at most the first key with nothing
  // outstanding leaves, the others keep their order, and the new key is last.
  function NextFifo(l: Limiter, key: Key): seq<Key> {
    if key in l.buckets then l.fifo
    else if TableFull(l, key) && FirstEvictable(l.buckets, l.fifo) < |l.fifo|
    then RemoveAt(l.fifo, FirstEvictable(l.buckets, l.fifo)) + [key]
    else l.fifo + [key]
  }

  // Eviction refuses exactly when every tracked key holds reservations; otherwise it removes the
  // oldest key that holds none.
  lemma EvictionChoice(l: Limiter, key: Key)
    requires TableOk(l) && TableFull(l, key) && l.cfg.overflowPolicy.EvictOldestKey?
    ensures EnsureCapacity(l, key).None? <==> forall k :: k in l.buckets ==> HasOutstanding(l.buckets[k])
    ensures EnsureCapacity(l, key).Some? ==>
              exists i :: 0 <= i < |l.fifo| && l.fifo[i] in l.buckets && !HasOutstanding(l.buckets[l.fifo[i]])
                && (forall j :: 0 <= j < i ==> l.fifo[j] in l.buckets && HasOutstanding(l.buckets[l.fifo[j]]))
                && EnsureCapacity(l, key).value == EvictAt(l, i)
  {
    var i := FirstEvictable(l.buckets, l.fifo);
    if i < |l.fifo| {
      assert l.fifo[i] in l.fifo;
    } else {
      forall k | k in l.buckets ensures HasOutstanding(l.buckets[k]) {
        assert k in l.fifo;
      }
    }
  }

  lemma RoomKeepsTable(l: Limiter, key: Key)
    requires TableOk(l) && EnsureCapacity(l, key).Some?
    ensures var room := EnsureCapacity(l, key).value;
            && TableOk(room)
            && room.buckets.Keys <= l.buckets.Keys
            && (!TableFull(l, key) ==> room == l)
            && (forall k :: k in l.buckets && k !in room.buckets ==> !HasOutstanding(l.buckets[k]))
            && (TableFull(l, key) ==> |room.buckets| == |l.buckets| - 1)
  {
    if TableFull(l, key) {
      var i := FirstEvictable(l.buckets, l.fifo);
      assert l.fifo[i] in l.fifo;
      RemovedKeys(l.fifo, i);
      var room := EvictAt(l, i);
      assert EnsureCapacity(l, key) == Some(room);
      assert room.buckets.Keys == l.buckets.Keys - {l.fifo[i]};
      assert |room.buckets.Keys| == |l.buckets.Keys| - 1;
    }
  }

  lemma AppendKey(s: seq<Key>, key: Key)
    requires key !in s && (forall i, j :: 0 <= i < j < |s| ==> s[i] != s[j])
    ensures forall i, j :: 0 <= i < j < |s + [key]| ==> (s + [key])[i] != (s + [key])[j]
    ensures forall k :: k in s + [key] <==> k in s || k == key
  {
  }

  lemma InsertNewKeepsTable(l: Limiter, key: Key, now: Duration)
    requires TableOk(l) && key !in l.buckets
    ensures var next := Insert(l, key, now);
            && TableOk(next) && next.fifo == l.fifo + [key]
            && next.buckets.Keys == l.buckets.Keys + {key} && |next.buckets| == |l.buckets| + 1
  {
    hide NewBucket;
    var next := Insert(l, key, now);
    assert next.buckets.Keys == l.buckets.Keys + {key};
    assert |next.buckets.Keys| == |l.buckets.Keys| + 1;
    AppendKey(l.fifo, key);
  }

  lemma InsertKeepsTable(l: Limiter, key: Key, now: Duration)
    requires TableOk(l) && EnsureCapacity(l, key).Some?
    ensures var room := Insert(EnsureCapacity(l, key).value, key, now);
            && TableOk(room)
            && (forall k :: k in l.buckets && k !in room.buckets ==> !HasOutstanding(l.buckets[k]))
            && (l.cfg.maxKeys.Some? && |l.buckets| <= l.cfg.maxKeys.value ==> |room.buckets| <= l.cfg.maxKeys.value)
  {
    hide EnsureCapacity, TableOk, NewBucket, HasOutstanding;
    RoomKeepsTable(l, key);
    if key !in l.buckets {
      InsertNewKeepsTable(EnsureCapacity(l, key).value, key, now);
    }
  }

  // The queue lists the keys in the order they came in.
  lemma InsertionOrder(l: Limiter, key: Key, now: Duration)
    requires TableOk(l) && EnsureCapacity(l, key).Some?
    ensures Insert(EnsureCapacity(l, key).value, key, now).fifo == NextFifo(l, key)
  {
    RoomKeepsTable(l, key);
  }

  lemma RemovedKeys(s: seq<Key>, i: nat)
    requires i < |s| && (forall a, b :: 0 <= a < b < |s| ==> s[a] != s[b])
    ensures var r := RemoveAt(s, i);
            && (forall k :: k in r <==> k in s && k != s[i])
            && (forall a, b :: 0 <= a < b < |r| ==> r[a] != r[b])
  {
    var r := RemoveAt(s, i);
    forall k | k in s && k != s[i] ensures k in r {
      var j :| 0 <= j < |s| && s[j] == k;
      assert if j < i then r[j] == k else r[j - 1] == k;
    }
  }
}

/** The library and series caches of src/web/mediastation.js: a JavaScript Map whose
    insertion order serves as the order of last use. */
module LruCache {
  import opened Wrappers
  import opened Basics

  datatype Key = Key(text: string)

  const CAPACITY: nat := 12

  // ---------------------------------------------------------------- JavaScript's Map

  function Keys<V>(entries: seq<(Key, V)>): (keys: seq<Key>)
    ensures |keys| == |entries| && forall i | 0 <= i < |keys| :: keys[i] == entries[i].0
  {
    if entries == [] then [] else [entries[0].0] + Keys(entries[1..])
  }

  function MapGet<V>(entries: seq<(Key, V)>, key: Key): Option<V> {
    if entries == [] then None
    else if entries[0].0 == key then Some(entries[0].1)
    else MapGet(entries[1..], key)
  }

  function MapDelete<V>(entries: seq<(Key, V)>, key: Key): seq<(Key, V)> {
    if entries == [] then []
    else if entries[0].0 == key then entries[1..]
    else [entries[0]] + MapDelete(entries[1..], key)
  }

  /** Replaces in place, or appends. */
  function MapSet<V>(entries: seq<(Key, V)>, key: Key, value: V): seq<(Key, V)> {
    if entries == [] then [(key, value)]
    else if entries[0].0 == key then [(key, value)] + entries[1..]
    else [entries[0]] + MapSet(entries[1..], key, value)
  }

  /** Setting a key that is there changes its value and no order; a new one goes to the back. */
  lemma {:induction false} MapSetKeepsOrder<V>(entries: seq<(Key, V)>, key: Key, value: V)
    ensures Keys(MapSet(entries, key, value)) == if key in Keys(entries) then Keys(entries) else Keys(entries) + [key]
    ensures MapGet(MapSet(entries, key, value), key) == Some(value)
  {
    if entries != [] && entries[0].0 != key {
      MapSetKeepsOrder(entries[1..], key, value);
      assert Keys(entries) == [entries[0].0] + Keys(entries[1..]);
    }
  }

  // ---------------------------------------------------------------- the reference: who was used last

  function Remove(s: seq<Key>, key: Key): seq<Key> {
    if s == [] then []
    else if s[0] == key then s[1..]
    else [s[0]] + Remove(s[1..], key)
  }

  /** The distinct keys of a history, in the order of their last occurrences. */
  function Recent(touches: seq<Key>): (r: seq<Key>)
    ensures forall k :: k in r ==> k in touches
  {
    if touches == [] then []
    else
      var last := touches[|touches| - 1];
      var before := Recent(touches[..|touches| - 1]);
      RemoveMembers(before, last);
      Remove(before, last) + [last]
  }

  lemma {:induction false} RemoveMembers(s: seq<Key>, key: Key)
    ensures forall k :: k in Remove(s, key) ==> k in s
    ensures forall k | k in s && k != key :: k in Remove(s, key)
  {
    if s != [] {
      RemoveMembers(s[1..], key);
    }
  }

  lemma Prepend(key: Key, s: seq<Key>)
    requires NoDuplicates(s) && key !in s
    ensures NoDuplicates([key] + s)
  {
    forall j | 0 <= j < |s|
      ensures s[j] != key
    {
      assert s[j] in s;
    }
  }

  lemma {:induction false} RemoveNoDuplicates(s: seq<Key>, key: Key)
    requires NoDuplicates(s)
    ensures NoDuplicates(Remove(s, key)) && key !in Remove(s, key)
  {
    if s != [] {
      TailNoDuplicates(s);
      RemoveNoDuplicates(s[1..], key);
      RemoveMembers(s[1..], key);
      if s[0] != key {
        Prepend(s[0], Remove(s[1..], key));
      }
    }
  }

  function LastOf(s: seq<Key>, n: nat): seq<Key> {
    if |s| <= n then s else s[|s| - n..]
  }

  lemma {:induction false} RemoveFirst(a: seq<Key>, b: seq<Key>, key: Key)
    requires key in a
    ensures Remove(a + b, key) == Remove(a, key) + b
  {
    assert (a + b)[1..] == a[1..] + b;
    if a[0] != key {
      RemoveFirst(a[1..], b, key);
      assert [a[0]] + (Remove(a[1..], key) + b) == ([a[0]] + Remove(a[1..], key)) + b;
    }
  }

  lemma {:induction false} RemoveLater(a: seq<Key>, b: seq<Key>, key: Key)
    requires key !in a
    ensures Remove(a + b, key) == a + Remove(b, key)
  {
    if a == [] {
      assert a + b == b;
    } else {
      assert (a + b)[1..] == a[1..] + b;
      RemoveLater(a[1..], b, key);
      assert [a[0]] + (a[1..] + Remove(b, key)) == a + Remove(b, key);
    }
  }

  lemma Disjoint(front: seq<Key>, tail: seq<Key>, key: Key)
    requires NoDuplicates(front + tail) && key in tail
    ensures key !in front
  {
    var j :| 0 <= j < |tail| && tail[j] == key;
    assert (front + tail)[|front| + j] == key;
    forall i | 0 <= i < |front|
      ensures front[i] != key
    {
      assert (front + tail)[i] == front[i];
    }
  }

  lemma LastOfLonger(front: seq<Key>, s: seq<Key>, n: nat)
    requires |s| >= n || front == []
    ensures LastOf(front + s, n) == LastOf(s, n)
  {
  }

  lemma HitMoves(front: seq<Key>, tail: seq<Key>, key: Key, n: nat)
    requires NoDuplicates(front + tail) && key in tail && (|tail| == n || (front == [] && |tail| < n))
    ensures LastOf(Remove(front + tail, key) + [key], n) == Remove(tail, key) + [key]
    ensures |Remove(tail, key) + [key]| == |tail|
  {
    Disjoint(front, tail, key);
    RemoveLater(front, tail, key);
    RemoveSize(tail, key);
    assert (front + Remove(tail, key)) + [key] == front + (Remove(tail, key) + [key]);
    LastOfLonger(front, Remove(tail, key) + [key], n);
  }

  lemma MissMoves(front: seq<Key>, tail: seq<Key>, key: Key, n: nat)
    requires key !in tail && (|tail| == n || (front == [] && |tail| < n))
    ensures LastOf(Remove(front + tail, key) + [key], n) == LastOf(tail + [key], n)
    ensures Remove(tail, key) == tail
  {
    RemoveLater(tail, [], key);
    assert tail + [] == tail;
    var rest := if key in front then Remove(front, key) else front;
    if key in front {
      RemoveFirst(front, tail, key);
    } else {
      RemoveLater(front, tail, key);
    }
    assert Remove(front + tail, key) == rest + tail;
    assert (rest + tail) + [key] == rest + (tail + [key]);
    LastOfLonger(rest, tail + [key], n);
  }

  /** Moving a key to the back of the last n is moving it to the back of all. */
  lemma TailMoves(all: seq<Key>, key: Key, n: nat)
    requires NoDuplicates(all) && n > 0
    ensures LastOf(Remove(LastOf(all, n), key) + [key], n) == LastOf(Remove(all, key) + [key], n)
    ensures key in LastOf(all, n) ==> |Remove(LastOf(all, n), key) + [key]| <= n
  {
    var tail := LastOf(all, n);
    var front := all[..|all| - |tail|];
    assert all == front + tail;
    if key in tail {
      HitMoves(front, tail, key, n);
    } else {
      MissMoves(front, tail, key, n);
    }
  }

  lemma {:induction false} RemoveSize(s: seq<Key>, key: Key)
    requires key in s
    ensures |Remove(s, key)| == |s| - 1
  {
    if s[0] != key {
      RemoveSize(s[1..], key);
    }
  }

  lemma {:induction false} RecentIsDistinct(touches: seq<Key>)
    ensures NoDuplicates(Recent(touches))
  {
    if touches != [] {
      RecentIsDistinct(touches[..|touches| - 1]);
      RemoveNoDuplicates(Recent(touches[..|touches| - 1]), touches[|touches| - 1]);
    }
  }

  lemma TouchMoves(touches: seq<Key>, keys: seq<Key>, key: Key)
    requires keys == LastOf(Recent(touches), CAPACITY)
    ensures LastOf(Remove(keys, key) + [key], CAPACITY) == LastOf(Recent(touches + [key]), CAPACITY)
    ensures key in keys ==> |Remove(keys, key) + [key]| <= CAPACITY
  {
    RecentIsDistinct(touches);
    TailMoves(Recent(touches), key, CAPACITY);
    assert (touches + [key])[..|touches|] == touches;
  }

  lemma TailIsDistinct(touches: seq<Key>)
    ensures NoDuplicates(LastOf(Recent(touches), CAPACITY))
  {
    RecentIsDistinct(touches);
  }

  lemma {:induction false} Lookup<V>(entries: seq<(Key, V)>, key: Key)
    ensures MapGet(entries, key).Some? <==> key in Keys(entries)
    ensures MapGet(entries, key).Some? ==> (key, MapGet(entries, key).value) in entries
  {
    if entries != [] {
      Lookup(entries[1..], key);
      assert entries == [entries[0]] + entries[1..];
    }
  }

  lemma {:induction false} DeletedKeys<V>(entries: seq<(Key, V)>, key: Key)
    ensures Keys(MapDelete(entries, key)) == Remove(Keys(entries), key)
    ensures forall e | e in MapDelete(entries, key) :: e in entries
  {
    if entries != [] {
      DeletedKeys(entries[1..], key);
    }
  }

  lemma {:induction false} SetKeys<V>(entries: seq<(Key, V)>, key: Key, value: V)
    requires key !in Keys(entries)
    ensures MapSet(entries, key, value) == entries + [(key, value)]
    ensures Keys(entries + [(key, value)]) == Keys(entries) + [key]
  {
    if entries != [] {
      assert Keys(entries) == [entries[0].0] + Keys(entries[1..]);
      SetKeys(entries[1..], key, value);
      assert (entries + [(key, value)])[1..] == entries[1..] + [(key, value)];
    }
  }

  /** Deleting and setting a key moves it to the back of the map. */
  lemma MovedToBack<V>(entries: seq<(Key, V)>, key: Key, value: V)
    requires NoDuplicates(Keys(entries))
    ensures var moved := MapSet(MapDelete(entries, key), key, value);
      && Keys(moved) == Remove(Keys(entries), key) + [key]
      && forall e | e in moved :: e == (key, value) || (e in entries && e.0 != key)
  {
    DeletedKeys(entries, key);
    RemoveNoDuplicates(Keys(entries), key);
    var rest := MapDelete(entries, key);
    SetKeys(rest, key, value);
    forall e | e in rest
      ensures e.0 != key
    {
      var i :| 0 <= i < |rest| && rest[i] == e;
      assert Keys(rest)[i] == e.0;
    }
  }

  /** Every entry holds the value put last under its key. */
  predicate Holds<V(==)>(entries: seq<(Key, V)>, lastPut: map<Key, V>) {
    forall e | e in entries :: e.0 in lastPut && lastPut[e.0] == e.1
  }

  lemma PutKeepsOrder<V>(entries: seq<(Key, V)>, touches: seq<Key>, lastPut: map<Key, V>, key: Key, value: V)
    requires Keys(entries) == LastOf(Recent(touches), CAPACITY) && Holds(entries, lastPut)
    ensures var moved := MapSet(MapDelete(entries, key), key, value);
      && LastOf(Keys(moved), CAPACITY) == LastOf(Recent(touches + [key]), CAPACITY)
      && (key in Keys(entries) ==> |moved| <= CAPACITY)
      && Holds(moved, lastPut[key := value])
  {
    TailIsDistinct(touches);
    MovedToBack(entries, key, value);
    TouchMoves(touches, Keys(entries), key);
  }

  lemma HitKeepsOrder<V>(entries: seq<(Key, V)>, touches: seq<Key>, lastPut: map<Key, V>, key: Key, value: V)
    requires Keys(entries) == LastOf(Recent(touches), CAPACITY) && Holds(entries, lastPut)
    requires key in Keys(entries) && (key, value) in entries
    ensures var moved := MapSet(MapDelete(entries, key), key, value);
      Keys(moved) == LastOf(Recent(touches + [key]), CAPACITY) && Holds(moved, lastPut)
  {
    PutKeepsOrder(entries, touches, lastPut, key, value);
    assert lastPut[key := value] == lastPut;
  }

  lemma EvictFirst<V>(entries: seq<(Key, V)>)
    requires |entries| > CAPACITY
    ensures LastOf(Keys(entries[1..]), CAPACITY) == LastOf(Keys(entries), CAPACITY)
    ensures MapDelete(entries, entries[0].0) == entries[1..]
  {
    var keys := Keys(entries);
    assert keys == [entries[0].0] + Keys(entries[1..]);
    LastOfLonger([entries[0].0], Keys(entries[1..]), CAPACITY);
  }

  // ---------------------------------------------------------------- the cache

  class Cache<V> {
    var entries: seq<(Key, V)>
    ghost var touches: seq<Key>    // keys hit or put since the last clear
    ghost var lastPut: map<Key, V>

    ghost predicate Valid()
      reads this
    {
      Keys(entries) == LastOf(Recent(touches), CAPACITY) && Holds(entries, lastPut)
    }

    constructor ()
      ensures Valid() && touches == [] && lastPut == map[]
    {
      entries, touches, lastPut := [], [], map[];
    }

    /** A hit returns the last value put and makes the key the most recent one. */
    method Get(key: Key) returns (cached: Option<V>)
      requires Valid()
      modifies this
      ensures Valid() && lastPut == old(lastPut)
      ensures cached.Some? <==> key in old(LastOf(Recent(touches), CAPACITY))
      ensures cached.Some? ==> key in lastPut && cached.value == lastPut[key] && touches == old(touches) + [key]
      ensures cached.None? ==> touches == old(touches)
    {
      cached := MapGet(entries, key);
      Lookup(entries, key);
      if cached.None? {
        return;
      }
      HitKeepsOrder(entries, touches, lastPut, key, cached.value);
      entries := MapDelete(entries, key);
      entries := MapSet(entries, key, cached.value);
      touches := touches + [key];
    }

    method Put(key: Key, value: V)
      requires Valid()
      modifies this
      ensures Valid() && lastPut == old(lastPut)[key := value] && touches == old(touches) + [key]
    {
      PutKeepsOrder(entries, touches, lastPut, key, value);
      entries := MapDelete(entries, key);
      entries := MapSet(entries, key, value);
      touches, lastPut := touches + [key], lastPut[key := value];
      while |entries| > CAPACITY
        invariant touches == old(touches) + [key] && lastPut == old(lastPut)[key := value]
        invariant LastOf(Keys(entries), CAPACITY) == LastOf(Recent(touches), CAPACITY) && Holds(entries, lastPut)
        decreases |entries|
      {
        EvictFirst(entries);
        entries := MapDelete(entries, entries[0].0);
      }
    }

    method Clear()
      modifies this
      ensures Valid() && touches == [] && lastPut == map[]
    {
      entries, touches, lastPut := [], [], map[];
    }
  }

  // ---------------------------------------------------------------- what the order means

  function LastIndex(touches: seq<Key>, key: Key): (i: nat)
    requires key in touches
    ensures i < |touches| && touches[i] == key && key !in touches[i + 1..]
  {
    var last := |touches| - 1;
    if touches[last] == key then last
    else
      assert touches == touches[..last] + [touches[last]];
      var i := LastIndex(touches[..last], key);
      assert touches[i + 1..] == touches[..last][i + 1..] + [touches[last]];
      i
  }

  function Members(s: seq<Key>): set<Key> {
    set k | k in s
  }

  /** The keys touched after the last touch of this one. */
  function TouchedAfter(touches: seq<Key>, key: Key): set<Key>
    requires key in touches
  {
    Members(touches[LastIndex(touches, key) + 1..])
  }

  lemma {:induction false} Position(touches: seq<Key>, key: Key) returns (older: seq<Key>, newer: seq<Key>)
    requires key in touches
    ensures Recent(touches) == older + [key] + newer
    ensures forall k :: k in newer <==> k in TouchedAfter(touches, key)
    decreases |touches|
  {
    var last := |touches| - 1;
    var x, before := touches[last], Recent(touches[..last]);
    if x == key {
      older, newer := Remove(before, x), [];
      assert touches[last + 1..] == [];
      assert Recent(touches) == older + [key] + newer;
    } else {
      assert touches == touches[..last] + [x];
      older, newer := Position(touches[..last], key);
      AfterOneMore(touches, key);
      RecentIsDistinct(touches[..last]);
      older, newer := MoveAside(older, key, newer, x);
    }
  }

  lemma AfterOneMore(touches: seq<Key>, key: Key)
    requires touches != [] && touches[|touches| - 1] != key && key in touches[..|touches| - 1]
    ensures key in touches
    ensures TouchedAfter(touches, key) == TouchedAfter(touches[..|touches| - 1], key) + {touches[|touches| - 1]}
  {
    var last := |touches| - 1;
    assert touches == touches[..last] + [touches[last]];
    var i := LastIndex(touches[..last], key);
    assert LastIndex(touches, key) == i;
    assert touches[i + 1..] == touches[..last][i + 1..] + [touches[last]];
  }

  lemma MoveAside(older: seq<Key>, key: Key, newer: seq<Key>, x: Key) returns (older': seq<Key>, newer': seq<Key>)
    requires x != key && NoDuplicates(older + [key] + newer)
    ensures Remove(older + [key] + newer, x) + [x] == older' + [key] + newer'
    ensures forall k :: k in newer' <==> k in newer || k == x
  {
    assert older + [key] + newer == older + ([key] + newer);
    if x in older {
      RemoveFirst(older, [key] + newer, x);
      older', newer' := Remove(older, x), newer + [x];
    } else {
      RemoveLater(older, [key] + newer, x);
      assert ([key] + newer)[1..] == newer;
      RemoveMembers(newer, x);
      older', newer' := older, Remove(newer, x) + [x];
    }
    assert Remove(older + [key] + newer, x) + [x] == older' + [key] + newer';
  }

  lemma {:induction false} DistinctSize(s: seq<Key>)
    requires NoDuplicates(s)
    ensures |Members(s)| == |s|
  {
    if s != [] {
      TailNoDuplicates(s);
      DistinctSize(s[1..]);
      assert Members(s) == Members(s[1..]) + {s[0]};
    }
  }

  lemma InTail(older: seq<Key>, key: Key, newer: seq<Key>, n: nat)
    requires NoDuplicates(older + [key] + newer)
    ensures key in LastOf(older + [key] + newer, n) <==> |newer| < n
  {
    var all := older + [key] + newer;
    var tail := LastOf(all, n);
    assert all[|older|] == key;
    if |newer| < n {
      assert tail[|tail| - 1 - |newer|] == key;
    }
  }

  lemma Kept(touches: seq<Key>, key: Key)
    requires key in touches
    ensures key in LastOf(Recent(touches), CAPACITY) <==> |TouchedAfter(touches, key)| < CAPACITY
  {
    RecentIsDistinct(touches);
    var older, newer := Position(touches, key);
    InTail(older, key, newer, CAPACITY);
    assert newer == Recent(touches)[|older| + 1..];
    DistinctSize(newer);
    assert TouchedAfter(touches, key) == Members(newer);
  }

  lemma KeptIff(touches: seq<Key>)
    ensures forall k :: k in LastOf(Recent(touches), CAPACITY)
                   <==> k in touches && |TouchedAfter(touches, k)| < CAPACITY
  {
    forall k | k in touches
      ensures k in LastOf(Recent(touches), CAPACITY) <==> |TouchedAfter(touches, k)| < CAPACITY
    {
      Kept(touches, k);
    }
  }

  /** b was touched after the last touch of a. */
  predicate UsedBefore(touches: seq<Key>, a: Key, b: Key) {
    a in touches && b in TouchedAfter(touches, a)
  }

  lemma OrderedByUse(touches: seq<Key>, keys: seq<Key>, i: nat, j: nat)
    requires keys == LastOf(Recent(touches), CAPACITY) && i < j < |keys|
    ensures UsedBefore(touches, keys[i], keys[j])
  {
    var skipped := |Recent(touches)| - |keys|;
    Newer(touches, skipped + i, skipped + j);
  }

  /** Main result: a cache that was used with a history of touches holds exactly the keys
      after whose last touch fewer than twelve other keys were touched, ordered by
      their last touches. */
  lemma KeysByLastUse(touches: seq<Key>, keys: seq<Key>)
    requires keys == LastOf(Recent(touches), CAPACITY)
    ensures |keys| <= CAPACITY && NoDuplicates(keys)
    ensures forall k :: k in keys <==> k in touches && |TouchedAfter(touches, k)| < CAPACITY
    ensures forall i, j | 0 <= i < j < |keys| :: UsedBefore(touches, keys[i], keys[j])
  {
    TailIsDistinct(touches);
    KeptIff(touches);
    forall i, j | 0 <= i < j < |keys|
      ensures UsedBefore(touches, keys[i], keys[j])
    {
      OrderedByUse(touches, keys, i, j);
    }
  }

  lemma Newer(touches: seq<Key>, i: nat, j: nat)
    requires i < j < |Recent(touches)|
    ensures UsedBefore(touches, Recent(touches)[i], Recent(touches)[j])
  {
    var all := Recent(touches);
    assert all[i] in all;
    RecentIsDistinct(touches);
    var older, newer := Position(touches, all[i]);
    assert all[|older|] == all[i];
    assert newer[j - |older| - 1] == all[j];
  }
}

/**
 * TimeBasedLRUCache.kt: a bounded map from string keys to (last access time,
 * value) pairs. `get` refreshes the access time of the entry it finds, `put`
 * stores an entry and, when the map has grown past `maxSize`, evicts the one
 * accessed longest ago. `Date()` is a logical clock that ticks on every read.
 */
module LRUCache {
  import opened Wrappers

  type Entries<T> = map<string, (nat, T)>

  /** `k` holds the smallest access time of `m`. */
  ghost predicate IsOldest<T>(m: Entries<T>, k: string)
  {
    k in m && forall k' :: k' in m ==> m[k].0 <= m[k'].0
  }

  /** Every access time of `m` is earlier than `stamp`. */
  ghost predicate AllBefore<T>(m: Entries<T>, stamp: nat)
  {
    forall k :: k in m ==> m[k].0 < stamp
  }

  /** No two entries of `m` carry the same access time. */
  ghost predicate DistinctStamps<T>(m: Entries<T>)
  {
    forall k, k' :: k in m && k' in m && k != k' ==> m[k].0 != m[k'].0
  }

  /** The entries after `get(key)` read at time `stamp` (TimeBasedLRUCache.kt:24-31). */
  function Touched<T>(m: Entries<T>, key: string, stamp: nat): Entries<T>
  {
    if key in m then m[key := (stamp, m[key].1)] else m
  }

  /**
   * The entries after `put(key, value)` at time `stamp` (TimeBasedLRUCache.kt:40-48):
   * the new entry is stored, and when that makes more than `maxSize` entries,
   * exactly one entry disappears, and it is an oldest one.
   */
  ghost predicate PutSpec<T>(before: Entries<T>, stamp: nat, maxSize: int, key: string, value: T, after: Entries<T>)
  {
    var inserted := before[key := (stamp, value)];
    && after.Keys <= inserted.Keys
    && |after| == (if |inserted| > maxSize then |inserted| - 1 else |inserted|)
    && (forall k :: k in after ==> after[k] == inserted[k])
    && (forall k :: k in inserted && k !in after ==> IsOldest(inserted, k))
  }

  class TimeBasedLRUCache<T> {
    const maxSize: int
    var cache: Entries<T>
    /** The time the next `Date()` gives. */
    var clock: nat

    /** Access times lie in the past and are pairwise distinct. */
    ghost predicate Valid()
      reads this
    {
      AllBefore(cache, clock) && DistinctStamps(cache)
    }

    constructor (maxSize: int)
      ensures Valid()
      ensures this.maxSize == maxSize && cache == map[] && clock == 0
    {
      this.maxSize := maxSize;
      cache := map[];
      clock := 0;
    }

    /** `Date()`: a time strictly later than every time given before. */
    method Now() returns (t: nat)
      modifies this`clock
      ensures t == old(clock) && clock == old(clock) + 1
    {
      t := clock;
      clock := clock + 1;
    }

    method Get(key: string) returns (r: Option<T>)
      requires Valid()
      modifies this`cache, this`clock
      ensures Valid()
      ensures key !in old(cache) ==> r == None && cache == old(cache) && clock == old(clock)
      ensures key in old(cache) ==> r == Some(old(cache)[key].1) && clock == old(clock) + 1
      ensures cache == Touched(old(cache), key, old(clock))
    {
      if key in cache {
        var value := cache[key].1;
        var now := Now();
        cache := cache[key := (now, value)];
        r := Some(value);
      } else {
        r := None;
      }
    }

    method Put(key: string, value: T)
      requires Valid()
      modifies this`cache, this`clock
      ensures Valid()
      ensures clock == old(clock) + 1
      ensures PutSpec(old(cache), old(clock), maxSize, key, value, cache)
      ensures maxSize >= 1 ==> key in cache && cache[key] == (old(clock), value)
      ensures |old(cache)| <= maxSize ==> |cache| <= maxSize
    {
      var now := Now();
      InsertKeepsStamps(cache, now, key, value);
      cache := cache[key := (now, value)];
      if |cache| > maxSize {
        var oldest := OldestKey();
        EvictionMeetsSpec(old(cache), now, maxSize, key, value, oldest);
        cache := cache - {oldest};
      }
      if maxSize >= 1 {
        PutKeepsNewEntry(old(cache), now, maxSize, key, value, cache);
      }
    }

    /** `cache.minByOrNull { it.value.first.time }!!.key`: an entry with the earliest access time. */
    method OldestKey() returns (oldest: string)
      requires cache != map[]
      ensures IsOldest(cache, oldest)
    {
      var keys := cache.Keys;
      oldest :| oldest in keys;
      keys := keys - {oldest};
      while keys != {}
        invariant keys <= cache.Keys && oldest in cache
        invariant forall k :: k in cache && k !in keys ==> cache[oldest].0 <= cache[k].0
        decreases keys
      {
        var k :| k in keys;
        if cache[k].0 < cache[oldest].0 {
          oldest := k;
        }
        keys := keys - {k};
      }
    }

    method Contains(key: string) returns (b: bool)
      ensures b <==> key in cache
    {
      b := key in cache;
    }

    method Remove(key: string) returns (r: Option<T>)
      requires Valid()
      modifies this`cache
      ensures Valid()
      ensures key in old(cache) ==> r == Some(old(cache)[key].1)
      ensures key !in old(cache) ==> r == None
      ensures cache == old(cache) - {key}
    {
      if key in cache {
        r := Some(cache[key].1);
      } else {
        r := None;
      }
      cache := cache - {key};
    }

    method Clear()
      requires Valid()
      modifies this`cache
      ensures Valid() && cache == map[]
    {
      cache := map[];
    }

    method Size() returns (n: int)
      ensures n == |cache.Keys|
    {
      n := |cache|;
    }
  }

  // -----------------------------------------------------------------------
  // Properties of the specification

  /** With room for one entry and a strictly increasing clock, `put` never evicts what it stores. */
  lemma PutKeepsNewEntry<T>(before: Entries<T>, stamp: nat, maxSize: int, key: string, value: T, after: Entries<T>)
    requires AllBefore(before, stamp) && maxSize >= 1
    requires PutSpec(before, stamp, maxSize, key, value, after)
    ensures key in after && after[key] == (stamp, value)
  {
  }

  /** `put` keeps the cache within its capacity. */
  lemma PutRespectsCapacity<T>(before: Entries<T>, stamp: nat, maxSize: int, key: string, value: T, after: Entries<T>)
    requires |before| <= maxSize
    requires PutSpec(before, stamp, maxSize, key, value, after)
    ensures |after| <= maxSize
  {
  }

  /** An eviction removes exactly one entry, an oldest one, and changes no other. */
  lemma PutEvictsExactlyOne<T>(before: Entries<T>, stamp: nat, maxSize: int, key: string, value: T, after: Entries<T>)
    requires PutSpec(before, stamp, maxSize, key, value, after)
    requires |before[key := (stamp, value)]| > maxSize
    ensures exists victim :: && victim in before[key := (stamp, value)]
                             && IsOldest(before[key := (stamp, value)], victim)
                             && after == before[key := (stamp, value)] - {victim}
  {
    var inserted := before[key := (stamp, value)];
    var gone := inserted.Keys - after.Keys;
    DisjointUnionSize(after.Keys, gone, inserted.Keys);
    var victim := SoleElement(gone);
    assert after.Keys == inserted.Keys - {victim};
    assert after == inserted - {victim};
  }

  /** Splitting a set into a subset and the rest adds up their sizes. */
  lemma DisjointUnionSize<K>(a: set<K>, b: set<K>, s: set<K>)
    requires a <= s && b == s - a
    ensures |s| == |a| + |b|
  {
    assert s == a + b;
  }

  /** A one-element set is the singleton of its element. */
  lemma SoleElement<K>(s: set<K>) returns (x: K)
    requires |s| == 1
    ensures s == {x}
  {
    x :| x in s;
    assert |s - {x}| == 0;
  }

  /**
   * A `get` protects its entry from the next eviction: once refreshed, the
   * entry is the newest but the one `put` adds, so with room for two entries
   * a following `put` of another key keeps it: what `put` evicts is the entry
   * used least recently.
   */
  lemma TouchedSurvivesNextPut<T>(m: Entries<T>, key: string, stamp: nat, maxSize: int,
                                  key2: string, stamp2: nat, value2: T, after: Entries<T>)
    requires AllBefore(m, stamp) && stamp < stamp2 && key in m && key2 != key && maxSize >= 2
    requires PutSpec(Touched(m, key, stamp), stamp2, maxSize, key2, value2, after)
    ensures key in after && after[key] == (stamp, m[key].1)
  {
    var inserted := Touched(m, key, stamp)[key2 := (stamp2, value2)];
    if |inserted| > maxSize {
      // a third entry exists, and it is older than the refreshed one
      var other := ThirdElement(inserted.Keys, key, key2);
      assert inserted[other].0 < inserted[key].0;
      assert !IsOldest(inserted, key);
    } else {
      SubsetOfSameSize(after.Keys, inserted.Keys);
    }
  }

  /** Storing an entry stamped later than all others keeps the stamps in the past and distinct. */
  lemma InsertKeepsStamps<T>(m: Entries<T>, stamp: nat, key: string, value: T)
    requires AllBefore(m, stamp) && DistinctStamps(m)
    ensures AllBefore(m[key := (stamp, value)], stamp + 1) && DistinctStamps(m[key := (stamp, value)])
  {
  }

  /** Removing an oldest entry after an insertion past the capacity is what `put` allows. */
  lemma EvictionMeetsSpec<T>(before: Entries<T>, stamp: nat, maxSize: int, key: string, value: T, oldest: string)
    requires |before[key := (stamp, value)]| > maxSize && IsOldest(before[key := (stamp, value)], oldest)
    ensures PutSpec(before, stamp, maxSize, key, value, before[key := (stamp, value)] - {oldest})
  {
    var inserted := before[key := (stamp, value)];
    var after := inserted - {oldest};
    assert after.Keys == inserted.Keys - {oldest};
    assert |after.Keys| == |inserted.Keys| - 1;
  }

  /** A set of at least three elements holds one other than `a` and `b`. */
  lemma ThirdElement<K>(s: set<K>, a: K, b: K) returns (c: K)
    requires |s| >= 3
    ensures c in s && c != a && c != b
  {
    var rest := s - {a} - {b};
    assert |s - {a}| >= |s| - 1;
    assert |rest| >= |s - {a}| - 1;
    c :| c in rest;
  }

  /** A subset as large as its superset is the whole set. */
  lemma SubsetOfSameSize<K>(a: set<K>, b: set<K>)
    requires a <= b && |a| == |b|
    ensures a == b
  {
    assert b == a + (b - a);
    assert |b - a| == 0;
  }
}

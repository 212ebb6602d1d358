/** The TTL cache behind the artifact cache manager (utils/cache_manager.py, `MemoryCache`): two
  * dictionaries updated together, the values and the time each was stored, with expired entries
  * dropped when they are read. The clock is a parameter (`now`), in microseconds. */
module MemoryCaches {
  import opened Wrappers

  /** One hour in microseconds, the resolution of `datetime`. */
  const HourMicros: int := 3_600_000_000

  /** `now - timestamp > ttl`: an entry strictly older than the TTL. */
  predicate Expired(stamp: int, now: int, ttl: int) {
    now - stamp > ttl
  }

  /** The keys whose timestamp is expired at `now`. */
  function ExpiredKeys(stamps: map<string, int>, now: int, ttl: int): set<string> {
    set k | k in stamps && Expired(stamps[k], now, ttl)
  }

  /** What `get` answers: nothing for an absent key or an expired entry, the value otherwise. */
  function Lookup<V>(items: map<string, V>, stamps: map<string, int>, key: string, now: int, ttl: int): Option<V> {
    if key !in items then None
    else if key in stamps && Expired(stamps[key], now, ttl) then None
    else Some(items[key])
  }

  /** A read answers the stored value exactly when the key is stored and not expired; a stored,
    * unexpired value is answered as it was stored. */
  lemma LookupSpec<V>(items: map<string, V>, stamps: map<string, int>, key: string, now: int, ttl: int)
    requires items.Keys == stamps.Keys
    ensures Lookup(items, stamps, key, now, ttl).Some? <==> key in items && key !in ExpiredKeys(stamps, now, ttl)
    ensures Lookup(items, stamps, key, now, ttl).Some? ==> Lookup(items, stamps, key, now, ttl).value == items[key]
  {
  }

  /** A value stored at `now` reads back until the TTL has passed, and from then on reads as absent. */
  lemma SetThenLookup<V>(items: map<string, V>, stamps: map<string, int>, key: string, value: V, now: int, later: int, ttl: int)
    ensures Lookup(items[key := value], stamps[key := now], key, later, ttl)
            == if later - now > ttl then None else Some(value)
  {
  }

  /** `get_stats`: the number of keys, how many of their timestamps are expired, and the rest. */
  datatype CacheStats = CacheStats(total: nat, expired: nat, active: int, keys: set<string>)

  /** The statistics of a cache with entries `items` stamped `stamps`, at time `now`. */
  function StatsOf<V>(items: map<string, V>, stamps: map<string, int>, now: int, ttl: int): CacheStats {
    var expired := |ExpiredKeys(stamps, now, ttl)|;
    CacheStats(|items|, expired, |items| - expired, items.Keys)
  }

  /** Counting the expired timestamps one key at a time. */
  lemma ExpiredStep(e: set<string>, rest: set<string>, k: string)
    requires k in rest
    ensures k in e ==> |e - (rest - {k})| == |e - rest| + 1
    ensures k !in e ==> |e - (rest - {k})| == |e - rest|
  {
    if k in e {
      assert e - (rest - {k}) == (e - rest) + {k};
    } else {
      assert e - (rest - {k}) == e - rest;
    }
  }

  /** At most every key is expired, so the active count is never negative. */
  lemma {:induction false} ExpiredWithin<V>(items: map<string, V>, stamps: map<string, int>, now: int, ttl: int)
    requires items.Keys == stamps.Keys
    ensures |ExpiredKeys(stamps, now, ttl)| <= |items|
  {
    var e := ExpiredKeys(stamps, now, ttl);
    assert items.Keys == e + (items.Keys - e);
    assert |items.Keys| == |items|;
  }

  class MemoryCache<V> {
    /** `_cache`: the stored values. */
    var items: map<string, V>
    /** `_timestamps`: when each value was stored. */
    var stamps: map<string, int>
    /** `default_ttl`, in microseconds. */
    const ttl: int

    /** Every operation keeps the two dictionaries on the same keys. */
    ghost predicate Valid()
      reads this
    {
      items.Keys == stamps.Keys
    }

    constructor (ttlHours: int)
      ensures Valid() && items == map[] && stamps == map[] && ttl == ttlHours * HourMicros
    {
      items := map[];
      stamps := map[];
      ttl := ttlHours * HourMicros;
    }

    /** `get`: an expired entry is deleted from both dictionaries and reads as None. */
    method Get(key: string, now: int) returns (r: Option<V>)
      modifies this
      ensures r == Lookup(old(items), old(stamps), key, now, ttl)
      ensures key in old(items) && key in old(stamps) && Expired(old(stamps)[key], now, ttl) ==>
                items == old(items) - {key} && stamps == old(stamps) - {key}
      ensures !(key in old(items) && key in old(stamps) && Expired(old(stamps)[key], now, ttl)) ==>
                items == old(items) && stamps == old(stamps)
      ensures old(Valid()) ==> Valid()
    {
      if key !in items {
        return None;
      }
      if key in stamps && Expired(stamps[key], now, ttl) {
        items := items - {key};
        stamps := stamps - {key};
        return None;
      }
      return Some(items[key]);
    }

    /** `set`: the value is stored with the current time. */
    method Set(key: string, value: V, now: int)
      modifies this
      ensures items == old(items)[key := value] && stamps == old(stamps)[key := now]
      ensures old(Valid()) ==> Valid()
    {
      items := items[key := value];
      stamps := stamps[key := now];
    }

    /** `delete`: a missing key is not an error. */
    method Delete(key: string)
      modifies this
      ensures items == old(items) - {key} && stamps == old(stamps) - {key}
      ensures old(Valid()) ==> Valid()
    {
      if key in items {
        items := items - {key};
      }
      if key in stamps {
        stamps := stamps - {key};
      }
    }

    /** `clear`. */
    method Clear()
      modifies this
      ensures items == map[] && stamps == map[] && Valid()
    {
      items := map[];
      stamps := map[];
    }

    /** `get_stats`: the expired entries are counted, not removed. */
    method GetStats(now: int) returns (s: CacheStats)
      ensures s.total == |items| && s.expired == |ExpiredKeys(stamps, now, ttl)|
      ensures s.active == s.total - s.expired && s.keys == items.Keys
      ensures s == StatsOf(items, stamps, now, ttl)
    {
      ghost var e := ExpiredKeys(stamps, now, ttl);
      var expired := 0;
      var rest := stamps.Keys;
      while rest != {}
        invariant rest <= stamps.Keys
        invariant expired == |e - rest|
        decreases |rest|
      {
        var k :| k in rest;
        ExpiredStep(e, rest, k);
        if Expired(stamps[k], now, ttl) {
          expired := expired + 1;
        }
        rest := rest - {k};
      }
      assert e - {} == e;
      s := CacheStats(|items|, expired, |items| - expired, items.Keys);
    }
  }

  /** What a read-through getter answers: a live cached value, else what the loader gave. */
  function ReadThroughAnswer<V>(items: map<string, V>, stamps: map<string, int>, key: string, loaded: Option<V>,
                                now: int, ttl: int): Option<V>
  {
    var hit := Lookup(items, stamps, key, now, ttl);
    if hit.Some? then hit else loaded
  }

  /** The entries and timestamps a read-through getter leaves: on a live hit, the cache as it was;
    * otherwise the loaded value stored at `now`, or, when the loader gave nothing, the key's
    * expired entry deleted. */
  function ReadThroughEntries<V>(items: map<string, V>, stamps: map<string, int>, key: string, loaded: Option<V>,
                                 now: int, ttl: int): (map<string, V>, map<string, int>)
  {
    if Lookup(items, stamps, key, now, ttl).Some? then (items, stamps)
    else if loaded.Some? then (items[key := loaded.value], stamps[key := now])
    else (items - {key}, stamps - {key})
  }

  /** A read-through getter: a live cached value is answered as is and the loader's answer
    * `loaded` is not used; otherwise the loaded value is answered, and cached (with the current
    * time) when there is one. */
  method ReadThrough<V>(c: MemoryCache<V>, key: string, loaded: Option<V>, now: int) returns (r: Option<V>)
    requires c.Valid()
    modifies c
    ensures r == ReadThroughAnswer(old(c.items), old(c.stamps), key, loaded, now, c.ttl)
    ensures (c.items, c.stamps) == ReadThroughEntries(old(c.items), old(c.stamps), key, loaded, now, c.ttl)
    ensures c.Valid()
  {
    var cached := c.Get(key, now);
    if cached.Some? {
      return cached;
    }
    assert c.items == old(c.items) - {key} && c.stamps == old(c.stamps) - {key};
    r := loaded;
    if r.Some? {
      c.Set(key, r.value, now);
      assert c.items == old(c.items)[key := r.value] && c.stamps == old(c.stamps)[key := now];
    }
  }

  /** A second read of the same key at the same time is answered from the cache, without the
    * loader, with what the first read answered, and leaves the cache as the first read left it. */
  lemma ReadThroughTwice<V>(items: map<string, V>, stamps: map<string, int>, key: string, loaded: Option<V>,
                            again: Option<V>, now: int, ttl: int)
    requires items.Keys == stamps.Keys && ttl >= 0
    requires ReadThroughAnswer(items, stamps, key, loaded, now, ttl).Some?
    ensures var (items1, stamps1) := ReadThroughEntries(items, stamps, key, loaded, now, ttl);
            ReadThroughAnswer(items1, stamps1, key, again, now, ttl) == ReadThroughAnswer(items, stamps, key, loaded, now, ttl)
            && ReadThroughEntries(items1, stamps1, key, again, now, ttl) == (items1, stamps1)
  {
  }

  /** Without a live entry and without a loaded value, the getter answers None and the key is gone
    * from the cache. */
  lemma ReadThroughMiss<V>(items: map<string, V>, stamps: map<string, int>, key: string, now: int, ttl: int)
    requires items.Keys == stamps.Keys && Lookup(items, stamps, key, now, ttl).None?
    ensures ReadThroughAnswer(items, stamps, key, None, now, ttl).None?
    ensures var (items1, stamps1) := ReadThroughEntries(items, stamps, key, None, now, ttl);
            key !in items1 && key !in stamps1
            && forall k :: k != key ==> (k in items1 <==> k in items) && (k in stamps1 <==> k in stamps)
  {
  }
}

/** The cache object shared by all workers. Each critical section of the source is one method;
    the clock reading taken inside it is the parameter `now`. */
module UdsCacheClass {
  import opened Options
  import opened CacheSpec

  datatype CacheConfig = CacheConfig(freshnessSeconds: int, stalenessSeconds: int, maxCacheSize: int)

  class UdsCache {
    var cache: Cache
    var freshnessSeconds: int
    var stalenessSeconds: int
    var maxCacheSize: int
    /** Every put so far, in lock order, and the latest clock reading taken. */
    ghost var puts: seq<Put>
    ghost var clock: Time

    ghost function Config(): Windows
      reads this
    {
      Windows(freshnessSeconds, stalenessSeconds)
    }

    ghost predicate Valid()
      reads this
    {
      Agrees(Config(), cache, puts, clock) && Stamped(puts, clock)
    }

    /** A null configuration keeps the default windows. */
    constructor (config: Option<CacheConfig>, ghost start: Time)
      ensures Valid() && puts == [] && cache == map[] && clock == start
      ensures config.None? ==> Config() == DEFAULT_WINDOWS && maxCacheSize == 100
      ensures config.None? ==> freshnessSeconds == 10 && stalenessSeconds == 20
      ensures config.Some? ==> freshnessSeconds == config.value.freshnessSeconds
      ensures config.Some? ==> stalenessSeconds == config.value.stalenessSeconds
      ensures config.Some? ==> maxCacheSize == config.value.maxCacheSize
    {
      cache := map[];
      if config.None? {
        freshnessSeconds, stalenessSeconds, maxCacheSize := 10, 20, 100;
      } else {
        freshnessSeconds := config.value.freshnessSeconds;
        stalenessSeconds := config.value.stalenessSeconds;
        maxCacheSize := config.value.maxCacheSize;
      }
      puts := [];
      clock := start;
    }

    /** First critical section of `put_element`. */
    method Insert(stopId: StopId, entry: Entry)
      requires Valid() && entry.timestamp <= clock
      modifies this`cache, this`puts
      ensures Valid()
      ensures cache == old(cache)[stopId := entry]
      ensures puts == old(puts) + [Put(stopId, entry)]
    {
      InsertKeepsAgreement(Config(), cache, puts, clock, Put(stopId, entry));
      cache := cache[stopId := entry];
      puts := puts + [Put(stopId, entry)];
    }

    /** Second critical section of `put_element`: erases while it iterates, in any order. */
    method RemoveStaleEntries(now: Time)
      requires Valid() && clock <= now
      modifies this`cache, this`clock
      ensures Valid() && clock == now
      ensures cache == Sweep(Config(), old(cache), now)
      ensures forall k :: k in cache <==>
                k in old(cache) && now - old(cache)[k].timestamp < stalenessSeconds * 1_000_000_000
    {
      ghost var before := cache;
      clock := now;
      var unvisited := cache.Keys;
      while unvisited != {}
        invariant unvisited <= cache.Keys <= before.Keys
        invariant forall k | k in cache :: cache[k] == before[k]
        invariant forall k | k in before && k !in unvisited ::
                    k in cache <==> Younger(before[k], stalenessSeconds, now)
        decreases |unvisited|
        modifies this`cache
      {
        var k :| k in unvisited;
        unvisited := unvisited - {k};
        if now - cache[k].timestamp >= stalenessSeconds * NANOS_PER_SECOND {
          cache := cache - {k};
        }
      }
      assert cache == Sweep(Config(), before, now);
      SweepKeepsAgreement(Config(), before, puts, now);
    }

    method PutElement(stopId: StopId, entry: Entry, now: Time)
      requires Valid() && entry.timestamp <= now && clock <= now
      modifies this`cache, this`puts, this`clock
      ensures Valid() && clock == now
      ensures puts == old(puts) + [Put(stopId, entry)]
      ensures cache == Sweep(Config(), old(cache)[stopId := entry], now)
      ensures forall k :: k in cache <==> k in Latest(puts) && Younger(Latest(puts)[k], stalenessSeconds, now)
    {
      TickKeepsAgreement(Config(), cache, puts, clock, now);
      clock := now;
      Insert(stopId, entry);
      ghost var inserted := cache;
      RemoveStaleEntries(now);
      SweepLeavesExactlyTheYoung(Config(), inserted, puts, now);
    }

    /** Writes `entryOut` only on a hit; with sound windows the answer is that of the plain map. */
    method GetElement(stopId: StopId, now: Time, entryIn: Entry) returns (result: Lookup, entryOut: Entry)
      requires Valid() && clock <= now
      modifies this`clock
      ensures Valid() && clock == now
      ensures result == Get(Config(), cache, stopId, now)
      ensures result.HitFresh? <==> stopId in cache && now - cache[stopId].timestamp < freshnessSeconds * 1_000_000_000
      ensures result.HitStale? <==>
                stopId in cache && freshnessSeconds * 1_000_000_000 <= now - cache[stopId].timestamp
                && now - cache[stopId].timestamp < stalenessSeconds * 1_000_000_000
      ensures Sound(Config()) ==> result == Get(Config(), Latest(puts), stopId, now)
      ensures entryOut == if result.Miss? then entryIn else result.entry
    {
      clock := now;
      entryOut := entryIn;
      if Sound(Config()) {
        LookupRefinesPlainMap(Config(), cache, puts, now, stopId);
      }
      if stopId !in cache {
        return Miss, entryOut;
      }
      var entry := cache[stopId];
      if now - entry.timestamp < freshnessSeconds * NANOS_PER_SECOND {
        entryOut := entry;
        return HitFresh(entry), entryOut;
      } else if now - entry.timestamp < stalenessSeconds * NANOS_PER_SECOND {
        entryOut := entry;
        return HitStale(entry), entryOut;
      }
      return Miss, entryOut;
    }
  }
}

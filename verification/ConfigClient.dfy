/** The configuration client with one caller: the cache in front of the remote service, and the client's metrics. */
module ConfigClients {
  import opened Common
  import opened ConfigCaches

  /** A parsed reply of the configuration service. */
  datatype Response<V> = Response(value: V, ttlSeconds: int)

  /** The time to live an answer is stored with; the product of seconds wraps like the source's Duration. */
  function EffectiveTtl(ttlSeconds: int): Time {
    if ttlSeconds > 0 then Wrap64(ttlSeconds * SECOND) else DEFAULT_TTL
  }

  /** A positive number of seconds is that many, if and only if it fits in a Duration; any other reply is kept for 300. */
  lemma TtlIsSecondsExactly(seconds: int)
    requires -INT64_MAX - 1 <= seconds <= INT64_MAX
    ensures seconds <= 0 ==> EffectiveTtl(seconds) == 300_000_000_000
    ensures seconds > 0 ==> (EffectiveTtl(seconds) == seconds * 1_000_000_000 <==> seconds <= 9_223_372_036)
  {
  }

  /** A reply that was stored is the answer up to the end of its time to live, and no answer after it. */
  lemma StoredUntilExpiry<V>(history: seq<CacheOp<string, V>>, key: string, v: V, seconds: int, stored: Time, now: Time)
    requires -INT64_MAX - 1 <= seconds <= 9_223_372_036
    ensures Answer(history + [Put(key, v, EffectiveTtl(seconds), stored)], key, now) ==
            if now <= stored + (if seconds > 0 then seconds else 300) * 1_000_000_000 then Some(v) else None
  {
    TtlIsSecondsExactly(seconds);
    LatestAfter(history, Put(key, v, EffectiveTtl(seconds), stored));
    hide EffectiveTtl, Latest;
  }

  class ConfigurationClient<V> {
    const cache: ConfigCache<V>
    var requestCount: int
    var cacheHits: int
    var cacheMisses: int
    var errorCount: int
    var responseTimeTotal: Time
    var connectionStatus: string
    var lastRequestTime: Time
    ghost var posts: nat  // calls of SetConfiguration
    ghost var failures: nat  // requests the service did not answer

    ghost predicate Valid()
      reads this, cache
    {
      && cache.Valid() && cache.ttl == DEFAULT_TTL
      && requestCount == cacheHits + cacheMisses + posts
      && errorCount == failures <= cacheMisses + posts
    }

    constructor (now: Time)
      ensures Valid() && fresh(cache) && cache.history == [] && cache.clock == now
      ensures requestCount == 0
    {
      cache := new ConfigCache(DEFAULT_TTL, now);
      requestCount, cacheHits, cacheMisses, errorCount := 0, 0, 0, 0;
      responseTimeTotal, connectionStatus, lastRequestTime := 0, "unknown", now;
      posts, failures := 0, 0;
    }

    /** `reply` is what the service would answer, None when the request fails. */
    method GetConfiguration(key: string, reply: Option<Response<V>>, start: Time, fetched: Time, stored: Time)
      returns (r: Option<V>)
      requires Valid() && cache.clock <= start <= fetched <= stored
      modifies this, cache
      ensures Valid() && requestCount == old(requestCount) + 1 && posts == old(posts)
      ensures Answer(old(cache.history), key, start).Some? ==>
                && r == Answer(old(cache.history), key, start)
                && cacheHits == old(cacheHits) + 1 && errorCount == old(errorCount)
                && cache.history == old(cache.history) + [Lookup(key, start)]
      ensures Answer(old(cache.history), key, start).None? ==>
                && r == (if reply.Some? then Some(reply.value.value) else None)
                && cacheMisses == old(cacheMisses) + 1
                && errorCount == old(errorCount) + (if reply.Some? then 0 else 1)
                && responseTimeTotal == old(responseTimeTotal) + (if reply.Some? then fetched - start else 0)
                && connectionStatus == (if reply.Some? then "healthy" else "error")
                && cache.history == old(cache.history) + [Lookup(key, start)] +
                   if reply.Some? then [Put(key, reply.value.value, EffectiveTtl(reply.value.ttlSeconds), stored)] else []
      ensures Answer(old(cache.history), key, start).None? && reply.Some?
              && -INT64_MAX - 1 <= reply.value.ttlSeconds <= 9_223_372_036 ==>
                forall now :: Answer(cache.history, key, now) ==
                              if now <= stored + (if reply.value.ttlSeconds > 0 then reply.value.ttlSeconds else 300) * 1_000_000_000
                              then Some(reply.value.value) else None
    {
      requestCount := requestCount + 1;
      lastRequestTime := start;
      r := cache.Get(key, start);
      if r.Some? {
        cacheHits := cacheHits + 1;
        return;
      }
      cacheMisses := cacheMisses + 1;
      if reply.None? {
        errorCount := errorCount + 1;
        failures := failures + 1;
        connectionStatus := "error";
        return;
      }
      connectionStatus := "healthy";
      responseTimeTotal := responseTimeTotal + (fetched - start);
      if reply.value.ttlSeconds > 0 {
        cache.SetWithTTL(key, reply.value.value, Wrap64(reply.value.ttlSeconds * SECOND), stored);
      } else {
        cache.Set(key, reply.value.value, stored);
      }
      r := Some(reply.value.value);
      hide Answer, EffectiveTtl;
      forall now | -INT64_MAX - 1 <= reply.value.ttlSeconds <= 9_223_372_036
        ensures Answer(cache.history, key, now) ==
                if now <= stored + (if reply.value.ttlSeconds > 0 then reply.value.ttlSeconds else 300) * 1_000_000_000
                then Some(reply.value.value) else None
      {
        StoredUntilExpiry(old(cache.history) + [Lookup(key, start)], key, reply.value.value, reply.value.ttlSeconds, stored, now);
      }
    }

    /** `accepted` says whether the service took the new value; only then is the cached one dropped. */
    method SetConfiguration(key: string, accepted: bool, start: Time, replied: Time, dropped: Time)
      requires Valid() && cache.clock <= start <= replied <= dropped
      modifies this, cache
      ensures Valid() && requestCount == old(requestCount) + 1 && posts == old(posts) + 1
      ensures cacheHits == old(cacheHits) && cacheMisses == old(cacheMisses)
      ensures errorCount == old(errorCount) + if accepted then 0 else 1
      ensures cache.history == old(cache.history) + if accepted then [Drop(key, dropped)] else []
      ensures accepted ==> forall now :: Answer(cache.history, key, now).None?
    {
      requestCount := requestCount + 1;
      posts := posts + 1;
      lastRequestTime := start;
      if !accepted {
        errorCount := errorCount + 1;
        failures := failures + 1;
        connectionStatus := "error";
        return;
      }
      connectionStatus := "healthy";
      responseTimeTotal := responseTimeTotal + (replied - start);
      LatestAfter(cache.history, Drop(key, dropped));
      cache.Delete(key, dropped);
    }
  }
}

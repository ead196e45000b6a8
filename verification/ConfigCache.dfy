/**
  The time-to-live cache of configuration values.

  `Answer` says, from the history of operations alone, what a lookup must return; the class
  `ConfigCache`, which drops expired items both lazily and in a sweep, is proved against it.
 */
module ConfigCaches {
  import opened Common

  const DEFAULT_TTL: Time := 5 * MINUTE

  datatype CacheItem<V> = CacheItem(value: V, expiresAt: Time, createdAt: Time)

  datatype CacheOp<K, V> =
    | Put(key: K, value: V, ttl: Time, at: Time)
    | Drop(key: K, at: Time)
    | Clear(at: Time)
    | Lookup(key: K, at: Time)
    | Sweep(at: Time)

  /** The latest item put under `key` and neither dropped nor cleared since. */
  function Latest<K(==), V>(history: seq<CacheOp<K, V>>, key: K): Option<CacheItem<V>> {
    if history == [] then None
    else
      var front, op := history[..|history| - 1], history[|history| - 1];
      match op
      case Put(k, value, ttl, at) => if k == key then Some(CacheItem(value, at + ttl, at)) else Latest(front, key)
      case Drop(k, _) => if k == key then None else Latest(front, key)
      case Clear(_) => None
      case _ => Latest(front, key)
  }

  /** What a lookup of `key` at `now` has to return after `history`. */
  function Answer<K(==), V>(history: seq<CacheOp<K, V>>, key: K, now: Time): Option<V> {
    match Latest(history, key)
    case Some(item) => if now <= item.expiresAt then Some(item.value) else None
    case None => None
  }

  function KeysPut<K(==), V>(history: seq<CacheOp<K, V>>): set<K> {
    if history == [] then {}
    else
      var op := history[|history| - 1];
      KeysPut(history[..|history| - 1]) + if op.Put? then {op.key} else {}
  }

  /** The keys that a lookup at `now` would find. */
  function LiveKeys<K(==), V>(history: seq<CacheOp<K, V>>, now: Time): set<K> {
    set k | k in KeysPut(history) && Answer(history, k, now).Some?
  }

  predicate Changes<K, V>(op: CacheOp<K, V>) {
    op.Put? || op.Drop? || op.Clear?
  }

  function Changing<K, V>(history: seq<CacheOp<K, V>>): seq<CacheOp<K, V>> {
    if history == [] then []
    else
      var op := history[|history| - 1];
      Changing(history[..|history| - 1]) + if Changes(op) then [op] else []
  }

  /** Lookups and sweeps, wherever they occur, change no later answer. */
  lemma {:induction false} RemovalIsInvisible<K, V>(history: seq<CacheOp<K, V>>, key: K, now: Time)
    ensures Answer(history, key, now) == Answer(Changing(history), key, now)
    ensures Latest(history, key) == Latest(Changing(history), key)
  {
    if history != [] {
      var front, op := history[..|history| - 1], history[|history| - 1];
      RemovalIsInvisible(front, key, now);
      if Changes(op) {
        assert (Changing(front) + [op])[..|Changing(front)|] == Changing(front);
      } else {
        assert Changing(front) + [] == Changing(front);
      }
    }
  }

  /** A lookup answers with the value of a Put of that key after which nothing changed that key, unexpired. */
  lemma {:induction false} AnswerIsLatestPut<K, V>(history: seq<CacheOp<K, V>>, key: K, now: Time, v: V)
    ensures Answer(history, key, now) == Some(v) <==>
            exists i :: LatestPut(history, key, i) && history[i].value == v && now <= history[i].at + history[i].ttl
  {
    if history != [] {
      var front, last := history[..|history| - 1], |history| - 1;
      AnswerIsLatestPut(front, key, now, v);
      forall i | LatestPut(front, key, i) && !Touches(history[last], key) ensures LatestPut(history, key, i) { }
      forall i | LatestPut(history, key, i) && i < last ensures LatestPut(front, key, i) && !Touches(history[last], key) { }
      if Touches(history[last], key) && history[last].Put? { assert LatestPut(history, key, last); }
    }
  }

  predicate Touches<K(==), V>(op: CacheOp<K, V>, key: K) {
    op.Clear? || ((op.Put? || op.Drop?) && op.key == key)
  }

  ghost predicate LatestPut<K, V>(history: seq<CacheOp<K, V>>, key: K, i: int) {
    && 0 <= i < |history| && history[i].Put? && history[i].key == key
    && forall j :: i < j < |history| ==> !Touches(history[j], key)
  }

  lemma {:induction false} LatestWasPut<K, V>(history: seq<CacheOp<K, V>>, key: K)
    ensures Latest(history, key).Some? ==> key in KeysPut(history)
  {
    if history != [] { LatestWasPut(history[..|history| - 1], key); }
  }

  /** No operation of the history is later than `now`. */
  ghost predicate Past<K, V>(history: seq<CacheOp<K, V>>, now: Time) {
    forall i :: 0 <= i < |history| ==> history[i].at <= now
  }

  /** The stored items are the latest ones, but for some that had expired by `now`. */
  ghost predicate Represents<V>(items: map<string, CacheItem<V>>, history: seq<CacheOp<string, V>>, now: Time) {
    && (forall k :: k in items ==> Latest(history, k) == Some(items[k]))
    && (forall k :: k !in items && Latest(history, k).Some? ==> Latest(history, k).value.expiresAt < now)
  }

  lemma LatestAfter<V>(history: seq<CacheOp<string, V>>, op: CacheOp<string, V>)
    ensures forall k :: !Touches(op, k) ==> Latest(history + [op], k) == Latest(history, k)
    ensures op.Put? ==> Latest(history + [op], op.key) == Some(CacheItem(op.value, op.at + op.ttl, op.at))
    ensures op.Drop? ==> Latest(history + [op], op.key) == None
    ensures op.Clear? ==> forall k :: Latest(history + [op], k) == None
  {
  }

  lemma LiveIffUnexpired<V>(history: seq<CacheOp<string, V>>, k: string, now: Time)
    ensures k in LiveKeys(history, now) <==> Latest(history, k).Some? && now <= Latest(history, k).value.expiresAt
  {
  }

  /** Keeping exactly the unexpired items keeps exactly the live keys. */
  lemma SweptKeys<V>(before: map<string, CacheItem<V>>, after: map<string, CacheItem<V>>,
                     history: seq<CacheOp<string, V>>, clock: Time, now: Time)
    requires Represents(before, history, clock) && clock <= now
    requires after.Keys <= before.Keys
    requires forall k :: k in before ==> (k in after <==> now <= before[k].expiresAt)
    ensures after.Keys == LiveKeys(history, now)
  {
    forall k: string ensures k in after <==> k in LiveKeys(history, now) {
      LiveIffUnexpired(history, k, now);
      if k in before { assert Latest(history, k) == Some(before[k]); }
    }
  }

  class ConfigCache<V> {
    var items: map<string, CacheItem<V>>
    const ttl: Time
    ghost var history: seq<CacheOp<string, V>>
    ghost var clock: Time // the instant of the last operation

    ghost predicate Valid()
      reads this
    {
      Past(history, clock) && Represents(items, history, clock)
    }

    constructor (ttl: Time, now: Time)
      ensures Valid() && history == [] && clock == now && this.ttl == ttl
    {
      items, this.ttl := map[], ttl;
      history, clock := [], now;
    }

    method Get(key: string, now: Time) returns (r: Option<V>)
      requires Valid() && now >= clock
      modifies this
      ensures Valid() && history == old(history) + [Lookup(key, now)] && clock == now
      ensures r == Answer(old(history), key, now)
    {
      LatestAfter(history, Lookup(key, now));
      history, clock := history + [Lookup(key, now)], now;
      if key !in items {
        return None;
      }
      if now > items[key].expiresAt {
        items := items - {key};
        return None;
      }
      r := Some(items[key].value);
    }

    method Set(key: string, value: V, now: Time)
      requires Valid() && now >= clock
      modifies this
      ensures Valid() && history == old(history) + [Put(key, value, ttl, now)] && clock == now
    {
      SetWithTTL(key, value, ttl, now);
    }

    method SetWithTTL(key: string, value: V, ttl: Time, now: Time)
      requires Valid() && now >= clock
      modifies this
      ensures Valid() && history == old(history) + [Put(key, value, ttl, now)] && clock == now
    {
      LatestAfter(history, Put(key, value, ttl, now));
      history, clock := history + [Put(key, value, ttl, now)], now;
      items := items[key := CacheItem(value, now + ttl, now)];
    }

    method Delete(key: string, now: Time)
      requires Valid() && now >= clock
      modifies this
      ensures Valid() && history == old(history) + [Drop(key, now)] && clock == now
    {
      LatestAfter(history, Drop(key, now));
      history, clock := history + [Drop(key, now)], now;
      items := items - {key};
    }

    method ClearAll(now: Time)
      requires Valid() && now >= clock
      modifies this
      ensures Valid() && history == old(history) + [CacheOp.Clear(now)] && clock == now
    {
      LatestAfter(history, CacheOp.Clear(now));
      history, clock := history + [CacheOp.Clear(now)], now;
      items := map[];
    }

    /** Right after a sweep this is the number of live keys, by the contract of Cleanup. */
    method Size() returns (n: nat)
      ensures n == |items.Keys|
    {
      n := |items|;
    }

    method Cleanup(now: Time) returns (expired: nat)
      requires Valid() && now >= clock
      modifies this
      ensures Valid() && history == old(history) + [Sweep(now)] && clock == now
      ensures items.Keys == LiveKeys(old(history), now)
      ensures expired == |old(items)| - |items|
    {
      ghost var before := items;
      expired := 0;
      var pending := items.Keys;
      while pending != {}
        invariant history == old(history) && clock == old(clock)
        invariant pending <= items.Keys <= before.Keys
        invariant forall k :: k in items ==> items[k] == before[k]
        invariant forall k :: k in before && k !in pending ==> (k in items <==> now <= before[k].expiresAt)
        invariant expired == |before| - |items|
        decreases pending
      {
        var key :| key in pending;
        if now > items[key].expiresAt {
          assert (items - {key}).Keys == items.Keys - {key};
          items := items - {key};
          expired := expired + 1;
        }
        pending := pending - {key};
      }
      SweptKeys(before, items, history, clock, now);
      LatestAfter(history, Sweep(now));
      history, clock := history + [Sweep(now)], now;
    }
  }
}

/**
  The configuration client with any number of callers and an authoritative remote service.

  Looking into the cache, fetching from the service, storing the reply, posting a value and
  dropping the cached one are separate steps that interleave freely with other callers, with
  sweeps, and with writes that other parties make at the service.
 */
module ConfigStaleness {
  import opened Common

  type Tid = nat

  datatype Write<K, V> = Write(key: K, value: V, at: Time)

  /** The moment a value was read at the service: after `k` of its writes, at instant `at`. */
  datatype Source = Source(k: nat, at: Time)

  datatype Item<V> = Item(value: V, expiresAt: Time, storedAt: Time, ttl: Time, src: Source)

  datatype Pc<K, V> =
    | Idle
    | Checking(key: K, since: Time)
    | Fetching(key: K, since: Time)
    | Fetched(key: K, since: Time, value: V, ttl: Time, src: Source)
    | Posting(key: K, value: V)
    | Posted(key: K, index: nat) // the service applied the value as its write number `index`

  /** An answer GetConfiguration gave; a hit came out of an item stored at `storedAt` for `ttl`. */
  datatype Reply<K, V> = Reply(key: K, value: V, hit: bool, since: Time, at: Time, storedAt: Time, ttl: Time, src: Source)

  datatype State<K(==), V> = State(
    now: Time,
    writes: seq<Write<K, V>>,
    cache: map<K, Item<V>>,
    threads: map<Tid, Pc<K, V>>,
    replies: seq<Reply<K, V>>)

  datatype Action<K, V> =
    | CallGet(t: Tid, key: K)
    | CallSet(t: Tid, key: K, value: V)
    | Check(t: Tid)
    | Fetch(t: Tid, ttl: Time)
    | FetchFails(t: Tid)
    | Store(t: Tid)
    | Post(t: Tid, accepted: bool)
    | PostFails(t: Tid)
    | Invalidate(t: Tid)
    | WriteElsewhere(key: K, value: V)
    | Cleanup
    | ClearCache
    | Drop(key: K)

  /** The service's value of `key` after the first `k` writes. */
  function ValueAfter<K(==), V>(ws: seq<Write<K, V>>, key: K, k: nat): Option<V>
    requires k <= |ws|
  {
    if k == 0 then None
    else if ws[k - 1].key == key then Some(ws[k - 1].value)
    else ValueAfter(ws, key, k - 1)
  }

  predicate Expired<V>(item: Item<V>, now: Time) {
    now > item.expiresAt
  }

  predicate Enabled<K(==), V>(s: State<K, V>, a: Action<K, V>) {
    match a
    case CallGet(t, _) => t in s.threads && s.threads[t].Idle?
    case CallSet(t, _, _) => t in s.threads && s.threads[t].Idle?
    case Check(t) => t in s.threads && s.threads[t].Checking?
    case Fetch(t, _) => t in s.threads && s.threads[t].Fetching? && ValueAfter(s.writes, s.threads[t].key, |s.writes|).Some?
    case FetchFails(t) => t in s.threads && s.threads[t].Fetching?
    case Store(t) => t in s.threads && s.threads[t].Fetched?
    case Post(t, _) => t in s.threads && s.threads[t].Posting?
    case PostFails(t) => t in s.threads && s.threads[t].Posting?
    case Invalidate(t) => t in s.threads && s.threads[t].Posted?
    case _ => true
  }

  function Goto<K(==), V>(s: State<K, V>, t: Tid, pc: Pc<K, V>): State<K, V> {
    s.(threads := s.threads[t := pc])
  }

  /** A lookup: a hit answers, an expired item is removed, and whoever finds nothing goes to the service. */
  function Look<K(==), V>(s: State<K, V>, t: Tid, key: K, since: Time): State<K, V> {
    if key in s.cache && !Expired(s.cache[key], s.now) then
      var i := s.cache[key];
      Goto(s.(replies := s.replies + [Reply(key, i.value, true, since, s.now, i.storedAt, i.ttl, i.src)]), t, Idle)
    else Goto(s.(cache := s.cache - {key}), t, Fetching(key, since))
  }

  function Keep<K(==), V>(s: State<K, V>, t: Tid, pc: Pc<K, V>): State<K, V>
    requires pc.Fetched?
  {
    Goto(s.(cache := s.cache[pc.key := Item(pc.value, s.now + pc.ttl, s.now, pc.ttl, pc.src)],
    replies := s.replies + [Reply(pc.key, pc.value, false, pc.since, s.now, s.now, pc.ttl, pc.src)]), t, Idle)
  }

  function Do<K(==), V>(s0: State<K, V>, a: Action<K, V>, now: Time): State<K, V>
    requires Enabled(s0, a)
  {
    var s := s0.(now := now);
    match a
    case CallGet(t, key) => Goto(s, t, Checking(key, now))
    case CallSet(t, key, value) => Goto(s, t, Posting(key, value))
    case Check(t) => Look(s, t, s.threads[t].key, s.threads[t].since)
    case Fetch(t, ttl) =>
      var pc := s.threads[t];
      Goto(s, t, Fetched(pc.key, pc.since, ValueAfter(s.writes, pc.key, |s.writes|).value, ttl, Source(|s.writes|, now)))
    case FetchFails(t) => Goto(s, t, Idle)
    case Store(t) => Keep(s, t, s.threads[t])
    case Post(t, accepted) =>
      // an error reported after the service applied the value leaves the cache alone
      Goto(s.(writes := s.writes + [Write(s.threads[t].key, s.threads[t].value, now)]), t,
      if accepted then Posted(s.threads[t].key, |s.writes| + 1) else Idle)
    case PostFails(t) => Goto(s, t, Idle)
    case Invalidate(t) => Goto(s.(cache := s.cache - {s.threads[t].key}), t, Idle)
    case WriteElsewhere(key, value) => s.(writes := s.writes + [Write(key, value, now)])
    case Cleanup => s.(cache := map k | k in s.cache && !Expired(s.cache[k], now) :: s.cache[k])
    case ClearCache => s.(cache := map[])
    case Drop(key) => s.(cache := s.cache - {key})
  }

  ghost predicate Next<K(!new), V(!new)>(s: State<K, V>, s': State<K, V>) {
    exists a, now :: Enabled(s, a) && now >= s.now && s' == Do(s, a, now)
  }

  ghost predicate IsPath<K(!new), V(!new)>(path: seq<State<K, V>>) {
    |path| > 0 && forall i :: 0 <= i < |path| - 1 ==> Next(path[i], path[i + 1])
  }

  ghost predicate Init<K, V>(s: State<K, V>) {
    s.writes == [] && s.cache == map[] && s.replies == [] && forall t :: t in s.threads ==> s.threads[t].Idle?
  }

  ghost predicate IsRun<K(!new), V(!new)>(run: seq<State<K, V>>) {
    IsPath(run) && Init(run[0])
  }

  // ---- what every step keeps ----

  /** At instant src.at the service's value of `key` was `value`. */
  ghost predicate ServiceHad<K, V>(ws: seq<Write<K, V>>, key: K, value: V, src: Source, now: Time) {
    && src.k <= |ws| && src.at <= now
    && (src.k > 0 ==> ws[src.k - 1].at <= src.at) && (src.k < |ws| ==> src.at <= ws[src.k].at)
    && ValueAfter(ws, key, src.k) == Some(value)
  }

  ghost predicate WritesOk<K, V>(s: State<K, V>) {
    && (forall i, j :: 0 <= i < j < |s.writes| ==> s.writes[i].at <= s.writes[j].at)
    && (forall i :: 0 <= i < |s.writes| ==> s.writes[i].at <= s.now)
  }

  ghost predicate ItemOk<K, V>(s: State<K, V>, key: K, i: Item<V>) {
    ServiceHad(s.writes, key, i.value, i.src, s.now) && i.src.at <= i.storedAt && i.expiresAt == i.storedAt + i.ttl
  }

  ghost predicate PcOk<K, V>(s: State<K, V>, pc: Pc<K, V>) {
    match pc
    case Checking(_, since) => since <= s.now
    case Fetching(_, since) => since <= s.now
    case Fetched(key, since, value, _, src) => since <= src.at && ServiceHad(s.writes, key, value, src, s.now)
    case Posted(_, index) => index <= |s.writes|
    case _ => true
  }

  ghost predicate ReplyOk<K, V>(s: State<K, V>, r: Reply<K, V>) {
    && ServiceHad(s.writes, r.key, r.value, r.src, s.now)
    && r.src.at <= r.storedAt && r.at <= s.now
    && if r.hit then r.at <= r.storedAt + r.ttl else r.since <= r.src.at <= r.at
  }

  ghost predicate Inv<K, V>(s: State<K, V>) {
    && WritesOk(s)
    && (forall k :: k in s.cache ==> ItemOk(s, k, s.cache[k]))
    && (forall t :: t in s.threads ==> PcOk(s, s.threads[t]))
    && (forall i :: 0 <= i < |s.replies| ==> ReplyOk(s, s.replies[i]))
  }

  lemma {:induction false} ValueOfPrefix<K, V>(ws: seq<Write<K, V>>, more: seq<Write<K, V>>, key: K, k: nat)
    requires k <= |ws|
    ensures ValueAfter(ws + more, key, k) == ValueAfter(ws, key, k)
  {
    if k > 0 { ValueOfPrefix(ws, more, key, k - 1); }
  }

  /** The service's past does not change. */
  lemma HadForever<K, V>(s: State<K, V>, s': State<K, V>, key: K, value: V, src: Source)
    requires ServiceHad(s.writes, key, value, src, s.now) && s.now <= s'.now
    requires s'.writes == s.writes || (exists w :: s'.writes == s.writes + [w] && w.at == s'.now)
    ensures ServiceHad(s'.writes, key, value, src, s'.now)
  {
    if s'.writes != s.writes {
      var w :| s'.writes == s.writes + [w] && w.at == s'.now;
      ValueOfPrefix(s.writes, [w], key, src.k);
    }
  }

  lemma OneWriteAtMost<K, V>(s: State<K, V>, a: Action<K, V>, now: Time)
    requires Enabled(s, a)
    ensures var s' := Do(s, a, now);
            s'.now == now && (s'.writes == s.writes || (exists w :: s'.writes == s.writes + [w] && w.at == now))
  {
    var s' := Do(s, a, now);
    if s'.writes != s.writes {
      assert s'.writes == s.writes + [s'.writes[|s.writes|]];
    }
  }

  lemma EverythingOldKept<K, V>(s: State<K, V>, s': State<K, V>)
    requires Inv(s) && s.now <= s'.now
    requires s'.writes == s.writes || (exists w :: s'.writes == s.writes + [w] && w.at == s'.now)
    ensures WritesOk(s')
    ensures forall k :: k in s.cache ==> ItemOk(s', k, s.cache[k])
    ensures forall t :: t in s.threads ==> PcOk(s', s.threads[t])
    ensures forall i :: 0 <= i < |s.replies| ==> ReplyOk(s', s.replies[i])
  {
    hide ServiceHad;
    forall k | k in s.cache ensures ItemOk(s', k, s.cache[k]) {
      assert ItemOk(s, k, s.cache[k]);
      HadForever(s, s', k, s.cache[k].value, s.cache[k].src);
    }
    forall t | t in s.threads ensures PcOk(s', s.threads[t]) {
      assert PcOk(s, s.threads[t]);
      var pc := s.threads[t];
      if pc.Fetched? { HadForever(s, s', pc.key, pc.value, pc.src); }
    }
    forall i | 0 <= i < |s.replies| ensures ReplyOk(s', s.replies[i]) {
      var r := s.replies[i];
      assert ReplyOk(s, r);
      HadForever(s, s', r.key, r.value, r.src);
    }
  }

  lemma InvKept<K, V>(s: State<K, V>, a: Action<K, V>, now: Time)
    requires Inv(s) && Enabled(s, a) && now >= s.now
    ensures Inv(Do(s, a, now))
  {
    var s' := Do(s, a, now);
    OneWriteAtMost(s, a, now);
    EverythingOldKept(s, s');
    hide ValueAfter;
  }

  lemma {:induction false} PathKeepsInv<K(!new), V(!new)>(path: seq<State<K, V>>, n: nat)
    requires IsPath(path) && Inv(path[0]) && n < |path|
    ensures Inv(path[n])
  {
    hide Inv, Do, Enabled;
    if n > 0 {
      PathKeepsInv(path, n - 1);
      assert Next(path[n - 1], path[n]);
      var a, now :| Enabled(path[n - 1], a) && now >= path[n - 1].now && path[n] == Do(path[n - 1], a, now);
      InvKept(path[n - 1], a, now);
    }
  }

  /**
    Bounded staleness: every value GetConfiguration ever answers was the service's value at an
    instant not before the answer minus the item's time to live minus the latency between fetch
    and store; and if the answer was fetched, at an instant within the call.
   */
  lemma BoundedStaleness<K(!new), V(!new)>(run: seq<State<K, V>>, n: nat, i: nat)
    requires IsRun(run) && n < |run| && i < |run[n].replies|
    ensures var r := run[n].replies[i];
            && ServiceHad(run[n].writes, r.key, r.value, r.src, r.at)
            && (r.hit ==> r.src.at >= r.at - r.ttl - (r.storedAt - r.src.at) && r.storedAt >= r.src.at)
            && (!r.hit ==> r.since <= r.src.at)
  {
    PathKeepsInv(run, n);
    assert ReplyOk(run[n], run[n].replies[i]);
    SourcesInTimeAlways(run, n);
  }

  ghost predicate SourcesInTime<K, V>(s: State<K, V>) {
    && (forall k :: k in s.cache ==> s.cache[k].src.at <= s.now)
    && (forall t :: t in s.threads && s.threads[t].Fetched? ==> s.threads[t].src.at <= s.now)
    && (forall i :: 0 <= i < |s.replies| ==> s.replies[i].src.at <= s.replies[i].at)
  }

  lemma {:induction false} SourcesInTimeAlways<K(!new), V(!new)>(run: seq<State<K, V>>, n: nat)
    requires IsRun(run) && n < |run|
    ensures SourcesInTime(run[n])
  {
    hide Init;
    if n > 0 {
      SourcesInTimeAlways(run, n - 1);
      assert Next(run[n - 1], run[n]);
      var a, now :| Enabled(run[n - 1], a) && now >= run[n - 1].now && run[n] == Do(run[n - 1], a, now);
      SourcesInTimeKept(run[n - 1], a, now);
    } else {
      InitInTime(run[0]);
    }
  }

  lemma InitInTime<K, V>(s: State<K, V>)
    requires Init(s)
    ensures SourcesInTime(s)
  {
  }

  lemma SourcesInTimeKept<K, V>(s: State<K, V>, a: Action<K, V>, now: Time)
    requires SourcesInTime(s) && Enabled(s, a) && now >= s.now
    ensures SourcesInTime(Do(s, a, now))
  {
    hide ValueAfter;
  }

  // ---- reading one's own writes ----

  /** A fetch of `key` from before write number `index`, on its way into the cache and fit to be hit there. */
  ghost predicate StaleFetch<K, V>(s: State<K, V>, key: K, index: nat) {
    exists t :: t in s.threads && s.threads[t].Fetched? && s.threads[t].key == key && s.threads[t].src.k < index && s.threads[t].ttl >= 0
  }

  /** Neither the cache nor a fetch under way holds a value from before write number `index` that could be hit. */
  ghost predicate FreshFor<K, V>(s: State<K, V>, key: K, index: nat) {
    && index <= |s.writes|
    && !StaleFetch(s, key, index)
    && (key in s.cache ==> s.cache[key].src.k >= index || s.cache[key].expiresAt < s.cache[key].storedAt <= s.now)
  }

  lemma FreshForKept<K, V>(s: State<K, V>, a: Action<K, V>, now: Time, key: K, index: nat)
    requires FreshFor(s, key, index) && Enabled(s, a) && now >= s.now
    ensures FreshFor(Do(s, a, now), key, index)
    ensures forall i :: |s.replies| <= i < |Do(s, a, now).replies| ==> Fresh(Do(s, a, now).replies[i], key, index)
  {
    hide ValueAfter;
  }

  /** A hit on `key` comes from no earlier than write number `index`. */
  predicate Fresh<K(==), V>(r: Reply<K, V>, key: K, index: nat) {
    r.hit && r.key == key ==> r.src.k >= index
  }

  lemma {:induction false} FreshForAlways<K(!new), V(!new)>(path: seq<State<K, V>>, n: nat, key: K, index: nat)
    requires IsPath(path) && FreshFor(path[0], key, index) && n < |path|
    ensures FreshFor(path[n], key, index) && |path[0].replies| <= |path[n].replies|
    ensures forall i :: |path[0].replies| <= i < |path[n].replies| ==> Fresh(path[n].replies[i], key, index)
  {
    hide Do, Enabled, FreshFor, Fresh;
    if n > 0 {
      FreshForAlways(path, n - 1, key, index);
      var s, s' := path[n - 1], path[n];
      assert Next(s, s');
      var a, now :| Enabled(s, a) && now >= s.now && s' == Do(s, a, now);
      FreshForKept(s, a, now, key, index);
      RepliesGrow(s, a, now);
      forall i | |path[0].replies| <= i < |s'.replies| ensures Fresh(s'.replies[i], key, index) {
        if i < |s.replies| { assert s'.replies[i] == s.replies[i]; }
      }
    }
  }

  lemma RepliesGrow<K, V>(s: State<K, V>, a: Action<K, V>, now: Time)
    requires Enabled(s, a)
    ensures s.replies <= Do(s, a, now).replies
  {
  }

  ghost predicate StaleHitFollows<K(!new), V(!new)>(s: State<K, V>, key: K, index: nat) {
    exists path, i :: StaleHitAt(path, s, key, index, i)
  }

  /** At the end of the path some new answer is a hit on `key` from before write number `index`. */
  ghost predicate StaleHitAt<K(!new), V(!new)>(path: seq<State<K, V>>, s: State<K, V>, key: K, index: nat, i: nat) {
    && IsPath(path) && path[0] == s
    && |s.replies| <= i < |path[|path| - 1].replies| && !Fresh(path[|path| - 1].replies[i], key, index)
  }

  /** From a stale fetch: store it, ask again, and be answered with it. */
  lemma StaleFetchIsHit<K(!new), V(!new)>(s: State<K, V>, key: K, index: nat, t: Tid)
    requires t in s.threads && s.threads[t].Fetched? && s.threads[t].key == key
    requires s.threads[t].src.k < index && s.threads[t].ttl >= 0
    ensures StaleHitFollows(s, key, index)
  {
    hide ValueAfter;
    var s1 := Do(s, Store(t), s.now);
    var s2 := Do(s1, CallGet(t, key), s.now);
    var s3 := Do(s2, Check(t), s.now);
    assert Next(s, s1) && Next(s1, s2) && Next(s2, s3);
    var path := [s, s1, s2, s3];
    assert IsPath(path);
    assert !Expired(s2.cache[key], s.now);
    assert StaleHitAt(path, s, key, index, |s.replies| + 1);
  }

  /**
    Reading one's own writes, exactly: after a successful SetConfiguration has dropped the cached
    value, a later lookup can be answered with a value from before the post if and only if a fetch
    from before the post is still on its way into the cache.
   */
  lemma SetConfigurationIsSeen<K(!new), V(!new)>(run: seq<State<K, V>>, n: nat, t: Tid, now: Time)
    requires IsRun(run) && n < |run| && now >= run[n].now
    requires t in run[n].threads && run[n].threads[t].Posted?
    ensures var key, index, s' := run[n].threads[t].key, run[n].threads[t].index, Do(run[n], Invalidate(t), now);
            key !in s'.cache && (StaleHitFollows(s', key, index) <==> StaleFetch(s', key, index))
  {
    PathKeepsInv(run, n);
    assert PcOk(run[n], run[n].threads[t]);
    var key, index, s' := run[n].threads[t].key, run[n].threads[t].index, Do(run[n], Invalidate(t), now);
    if StaleFetch(s', key, index) {
      var u :| u in s'.threads && s'.threads[u].Fetched? && s'.threads[u].key == key && s'.threads[u].src.k < index && s'.threads[u].ttl >= 0;
      StaleFetchIsHit(s', key, index, u);
    } else {
      NoStaleHit(s', key, index);
    }
  }

  lemma NoStaleHit<K(!new), V(!new)>(s: State<K, V>, key: K, index: nat)
    requires FreshFor(s, key, index)
    ensures !StaleHitFollows(s, key, index)
  {
    forall path, i ensures !StaleHitAt(path, s, key, index, i) {
      if StaleHitAt(path, s, key, index, i) { FreshForAlways(path, |path| - 1, key, index); }
    }
  }

  /** At the end of the run thread u has had its value applied as write number `index`; once it drops the key, an older value can still be hit. */
  ghost predicate Resurfaces<K(!new), V(!new)>(run: seq<State<K, V>>, u: Tid, key: K, index: nat) {
    && IsRun(run) && u in run[|run| - 1].threads && run[|run| - 1].threads[u] == Posted(key, index)
    && StaleHitFollows(Do(run[|run| - 1], Invalidate(u), run[|run| - 1].now), key, index)
  }

  lemma PathStep<K(!new), V(!new)>(path: seq<State<K, V>>, a: Action<K, V>, s': State<K, V>)
    requires IsPath(path) && Enabled(path[|path| - 1], a) && s' == Do(path[|path| - 1], a, path[|path| - 1].now)
    ensures IsPath(path + [s'])
  {
    hide Do, Enabled;
    var longer := path + [s'];
    assert Next(path[|path| - 1], s');
    assert forall i :: 0 <= i < |longer| - 1 ==> Next(longer[i], longer[i + 1]);
  }

  /** Somebody writes `value` at the service, and thread t fetches it. */
  lemma FetchUnderWay<K(!new), V(!new)>(s: State<K, V>, t: Tid, key: K, value: V, ttl: Time) returns (run: seq<State<K, V>>)
    requires Init(s) && t in s.threads
    ensures IsRun(run) && run[0] == s
    ensures run[|run| - 1] == Goto(s.(writes := [Write(key, value, s.now)]), t, Fetched(key, s.now, value, ttl, Source(1, s.now)))
  {
    var s1 := s.(writes := [Write(key, value, s.now)]);
    PathStep([s], WriteElsewhere(key, value), s1);
    PathStep([s, s1], CallGet(t, key), Goto(s1, t, Checking(key, s.now)));
    PathStep([s, s1] + [Goto(s1, t, Checking(key, s.now))], Check(t), Goto(s1, t, Fetching(key, s.now)));
    var s4 := Goto(s1, t, Fetched(key, s.now, value, ttl, Source(1, s.now)));
    run := [s, s1] + [Goto(s1, t, Checking(key, s.now))] + [Goto(s1, t, Fetching(key, s.now))];
    assert ValueAfter(s1.writes, key, 1) == Some(value);
    hide IsPath;
    PathStep(run, Fetch(t, ttl), s4);
    run := run + [s4];
  }

  /** Two threads are enough: t fetches the old value, u posts a new one and drops the key, and the old one comes back. */
  lemma OldValueComesBack<K(!new), V(!new)>(s: State<K, V>, t: Tid, u: Tid, key: K, before: V, after: V, ttl: Time)
    requires Init(s) && t != u && t in s.threads && u in s.threads && ttl >= 0
    ensures exists run: seq<State<K, V>> :: Resurfaces(run, u, key, 2) && run[0] == s
                          && run[|run| - 1].writes == [Write(key, before, s.now), Write(key, after, s.now)]
  {
    var run := FetchUnderWay(s, t, key, before, ttl);
    var s4 := run[|run| - 1];
    var s5 := Goto(s4, u, Posting(key, after));
    var s6 := Goto(s4.(writes := [Write(key, before, s.now), Write(key, after, s.now)]), u, Posted(key, 2));
    hide IsPath, ValueAfter, StaleHitFollows;
    PathStep(run, CallSet(u, key, after), s5);
    PathStep(run + [s5], Post(u, true), s6);
    var s7 := Goto(s6.(cache := map[]), u, Idle);
    assert Do(s6, Invalidate(u), s.now) == s7;
    StaleFetchIsHit(s7, key, 2, t);
    assert Resurfaces(run + [s5] + [s6], u, key, 2);
  }
}

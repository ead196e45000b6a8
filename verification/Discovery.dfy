/**
  Looking services up in the registry: the discovery loop with its staleness rule, the filter
  for healthy instances, and the cleanup of entries that have no expiry.
 */
module Discovery {
  import opened Common
  import opened Registration

  const CLEANUP_AFTER: Time := 2 * MINUTE

  datatype ServiceInfo = ServiceInfo(
    instance: string, address: string, port: int, grpcPort: int, httpPort: int,
    health: string, status: string, lastHeartbeat: Time)

  /** What reading one key of the KEYS reply gives; `at` is the instant of the staleness test. */
  datatype Fetch = Failed | Garbage | Got(info: ServiceInfo, at: Time)

  predicate Stale(f: Fetch)
    requires f.Got?
  {
    f.at - f.info.lastHeartbeat > STALE_AFTER
  }

  /** A stale service is listed, but marked. */
  function Marked(f: Fetch): ServiceInfo
    requires f.Got?
  {
    if Stale(f) then f.info.(health := "unhealthy", status := "stale") else f.info
  }

  /** The readable services, in the order of their keys. */
  function Listed(fs: seq<Fetch>): seq<ServiceInfo> {
    if fs == [] then []
    else Listed(fs[..|fs| - 1]) + if fs[|fs| - 1].Got? then [Marked(fs[|fs| - 1])] else []
  }

  function Count(fs: seq<Fetch>, stale: bool): nat {
    if fs == [] then 0
    else Count(fs[..|fs| - 1], stale) + if fs[|fs| - 1].Got? && Stale(fs[|fs| - 1]) == stale then 1 else 0
  }

  predicate Serving(info: ServiceInfo) {
    info.health == "healthy" && info.status == "active"
  }

  function Healthy(infos: seq<ServiceInfo>): seq<ServiceInfo> {
    if infos == [] then []
    else Healthy(infos[..|infos| - 1]) + if Serving(infos[|infos| - 1]) then [infos[|infos| - 1]] else []
  }

  /** The infos as stored, of exactly the services that are serving and not stale. */
  function Fresh(fs: seq<Fetch>): seq<ServiceInfo> {
    if fs == [] then []
    else
      var f := fs[|fs| - 1];
      Fresh(fs[..|fs| - 1]) + if f.Got? && !Stale(f) && Serving(f.info) then [f.info] else []
  }

  /** The two gauges partition the listed services. */
  lemma {:induction false} CountsPartition(fs: seq<Fetch>)
    ensures Count(fs, true) + Count(fs, false) == |Listed(fs)|
  {
    if fs != [] { CountsPartition(fs[..|fs| - 1]); }
  }

  /** Marking and then filtering hands out exactly the fresh services, unmarked and in order. */
  lemma {:induction false} HealthyIsFresh(fs: seq<Fetch>)
    ensures Healthy(Listed(fs)) == Fresh(fs)
  {
    if fs != [] {
      var front, f := fs[..|fs| - 1], fs[|fs| - 1];
      HealthyIsFresh(front);
      if f.Got? {
        assert (Listed(front) + [Marked(f)])[..|Listed(front)|] == Listed(front);
      } else {
        assert Listed(front) + [] == Listed(front) && Fresh(front) + [] == Fresh(front);
      }
    }
  }

  lemma {:induction false} FreshHolds(fs: seq<Fetch>, info: ServiceInfo)
    ensures info in Fresh(fs) <==>
            exists i :: 0 <= i < |fs| && fs[i].Got? && fs[i].info == info && fs[i].at - info.lastHeartbeat <= 60_000_000_000
                        && info.health == "healthy" && info.status == "active"
  {
    if fs != [] {
      FreshHolds(fs[..|fs| - 1], info);
      var last := |fs| - 1;
      if info in Fresh(fs) && info !in Fresh(fs[..last]) {
        assert fs[last].Got? && fs[last].info == info;
      }
    }
  }

  /** What one reading adds to the list and to the two gauges: one stale entry, marked, past a minute, else one healthy one as it is. */
  lemma OneReading(fs: seq<Fetch>, f: Fetch)
    ensures !f.Got? ==> Listed(fs + [f]) == Listed(fs) && Count(fs + [f], true) == Count(fs, true) && Count(fs + [f], false) == Count(fs, false)
    ensures f.Got? && f.at - f.info.lastHeartbeat > 60_000_000_000 ==>
              && Listed(fs + [f]) == Listed(fs) + [f.info.(health := "unhealthy", status := "stale")]
              && Count(fs + [f], true) == Count(fs, true) + 1 && Count(fs + [f], false) == Count(fs, false)
    ensures f.Got? && f.at - f.info.lastHeartbeat <= 60_000_000_000 ==>
              && Listed(fs + [f]) == Listed(fs) + [f.info]
              && Count(fs + [f], true) == Count(fs, true) && Count(fs + [f], false) == Count(fs, false) + 1
    ensures Listed([]) == [] && Count([], true) == 0 && Count([], false) == 0
  {
    assert (fs + [f])[..|fs|] == fs;
  }

  // ---- the registry key of a registered instance, as discovery sees it ----

  /** Reading the key of an instance in state `s`. */
  function Read(s: State, template: ServiceInfo): Fetch {
    if Visible(s)
    then Got(template.(health := s.key.value.health, status := "active", lastHeartbeat := s.key.value.lastHeartbeat), s.now)
    else Failed
  }

  /** A visible key published within 30 seconds of its heartbeat instant is never stale, and is handed out if healthy. */
  lemma RecentKeyIsHandedOut(s: State, template: ServiceInfo, fs: seq<Fetch>)
    requires Visible(s) && Read(s, template) in fs
    requires s.key.writtenAt - s.key.value.lastHeartbeat < 30_000_000_000
    ensures !Stale(Read(s, template))
    ensures s.key.value.health == "healthy" ==> Read(s, template).info in Healthy(Listed(fs))
  {
    HealthyIsFresh(fs);
    FreshHolds(fs, Read(s, template).info);
  }

  /** In a timely run, what a heartbeat published as healthy is handed out by every lookup that reads it. */
  lemma BeatIsHandedOut(run: seq<State>, n: nat, template: ServiceInfo, fs: seq<Fetch>)
    requires IsRun(run) && Timely(run) && n < |run|
    requires Visible(run[n]) && run[n].key.author.ByBeat? && run[n].key.value.health == "healthy"
    requires Read(run[n], template) in fs
    ensures Read(run[n], template).info in Healthy(Listed(fs))
  {
    BeatsAreRecentAlways(run, n);
    RecentKeyIsHandedOut(run[n], template, fs);
  }

  /** A key is handed out exactly when it is there, healthy and not stale, whoever wrote it. */
  lemma ReadIsHandedOutExactly(s: State, template: ServiceInfo)
    requires s.key.Present?
    ensures Healthy(Listed([Read(s, template)])) ==
            if s.now < s.key.writtenAt + 30_000_000_000 && s.key.value.health == "healthy"
               && s.now - s.key.value.lastHeartbeat <= 60_000_000_000
            then [template.(health := "healthy", status := "active", lastHeartbeat := s.key.value.lastHeartbeat)] else []
  {
    HealthyIsFresh([Read(s, template)]);
    FreshOfOne(Read(s, template));
    hide Fresh, Listed, Healthy;
  }

  lemma FreshOfOne(f: Fetch)
    ensures Fresh([f]) == if f.Got? && !Stale(f) && Serving(f.info) then [f.info] else []
  {
    hide Stale, Serving;
    assert [f][..0] == [];
  }

  /**
    Exactly when what Register publishes is handed out: at every later instant until the key is
    written again, a lookup passes it over if and only if the key is 30 seconds old, or, before the
    write, the registration in memory was not healthy or carried a heartbeat instant more than a
    minute before the lookup.
   */
  lemma RegisterIsHandedOutExactly(run: seq<State>, n: nat, t: Tid, o: Outcome, template: ServiceInfo, now: Time, later: Time)
    requires IsRun(run) && n < |run| && t in run[n].clients && run[n].clients[t].RWrite? && !o.Lost?
    requires run[n].now <= now <= later
    ensures Enabled(run[n], Move(t, o), now)
    ensures var s' := Do(run[n], Move(t, o), now).(now := later);
            Healthy(Listed([Read(s', template)])) == [] <==>
            later >= now + 30_000_000_000 || run[n].reg.health != "healthy" || later - run[n].reg.lastHeartbeat > 60_000_000_000
  {
    RegisterPublishesMemory(run[n], t, o, now, later);
    ReadIsHandedOutExactly(Do(run[n], Move(t, o), now).(now := later), template);
  }

  /** For a first Register that is: 30 seconds after the write, or more than a minute after construction. */
  lemma FirstRegisterIsHandedOutExactly(run: seq<State>, n: nat, t: Tid, o: Outcome, template: ServiceInfo, now: Time, later: Time)
    requires IsRun(run) && n < |run| && forall k :: 0 <= k < n ==> !run[k].isRegistered
    requires t in run[n].clients && run[n].clients[t].RWrite? && !o.Lost? && run[n].now <= now <= later
    ensures Enabled(run[n], Move(t, o), now)
    ensures var s' := Do(run[n], Move(t, o), now).(now := later);
            Healthy(Listed([Read(s', template)])) == [] <==> later >= now + 30_000_000_000 || later - run[0].now > 60_000_000_000
  {
    MemoryUntouched(run, n);
    RegisterIsHandedOutExactly(run, n, t, o, template, now, later);
  }

  /**
    What a call of UpdateHealth(h) writes, in every interleaving: while the key lives a lookup passes
    it over if and only if h is not "healthy" or the call stamped it more than a minute before; and if
    the write came within 30 seconds of the call, if and only if h is not "healthy".
   */
  lemma UpdateIsHandedOutExactly(run: seq<State>, i: nat, j: nat, t: Tid, h: string, since: Time, o: Outcome, w: Time,
                                 template: ServiceInfo, later: Time) returns (at: Time)
    requires IsRun(run) && UpdateLasts(run, i, j, t, h, since)
    requires t in run[j].clients && run[j].clients[t].HWrite? && w >= run[j].now && !o.Lost?
    requires w <= later < w + 30_000_000_000
    ensures since <= at <= w && Enabled(run[j], Move(t, o), w)
    ensures var s' := Do(run[j], Move(t, o), w).(now := later);
            && (Healthy(Listed([Read(s', template)])) == [] <==> h != "healthy" || later - at > 60_000_000_000)
            && (w <= since + 30_000_000_000 ==> (Healthy(Listed([Read(s', template)])) == [] <==> h != "healthy"))
  {
    at := UpdateWritesItsHealth(run, i, j, t, h, since, o, w);
    ReadIsHandedOutExactly(Do(run[j], Move(t, o), w).(now := later), template);
  }

  /** A Register that completes at `at` is registered and visible, and passed over if and only if it is more than a minute late. */
  lemma LateRegisterIsNotHandedOut(s: State, t: Tid, template: ServiceInfo, at: Time)
    requires Init(s) && t in s.clients && at >= s.now
    ensures Reaches(s, AfterRegister(s, t, at)) && AfterRegister(s, t, at).isRegistered && Visible(AfterRegister(s, t, at))
    ensures Healthy(Listed([Read(AfterRegister(s, t, at), template)])) == [] <==> at - s.now > 60_000_000_000
  {
    RegisterMayPublishStale(s, t, at);
    RegisterStarts(s, t, at);
    var run := ReachesRun(s, Inside(s.(now := at), t, RWrite));
    RegisterIsHandedOutExactly(run, |run| - 1, t, Done, template, at, at);
  }

  // ---- cleanup ----

  /** A registry entry; `info` is None when the data does not parse, `expiresAt` when there is no expiry. */
  datatype Entry = Entry(info: Option<ServiceInfo>, expiresAt: Option<Time>)

  predicate Removable(e: Entry, now: Time) {
    e.expiresAt.None? && e.info.Some? && now - e.info.value.lastHeartbeat > CLEANUP_AFTER
  }

  // ---- the discovery object ----

  class ServiceDiscovery {
    var discoveryRequestCount: int
    var healthyServices: int
    var unhealthyServices: int
    var errorCount: int

    constructor ()
      ensures discoveryRequestCount == 0 && healthyServices == 0 && unhealthyServices == 0 && errorCount == 0
    {
      discoveryRequestCount, healthyServices, unhealthyServices, errorCount := 0, 0, 0, 0;
    }

    /** `found` is None when KEYS fails, else what reading each key of its reply gives. */
    method DiscoverService(found: Option<seq<Fetch>>) returns (r: Option<seq<ServiceInfo>>)
      modifies this
      ensures discoveryRequestCount == old(discoveryRequestCount) + 1
      ensures found.None? ==> r.None? && errorCount == old(errorCount) + 1
                              && healthyServices == old(healthyServices) && unhealthyServices == old(unhealthyServices)
      ensures found.Some? ==> r == Some(Listed(found.value)) && errorCount == old(errorCount)
                              && healthyServices == Count(found.value, false) && unhealthyServices == Count(found.value, true)
    {
      discoveryRequestCount := discoveryRequestCount + 1;
      if found.None? {
        errorCount := errorCount + 1;
        return None;
      }
      var fs := found.value;
      var services, healthy, unhealthy := [], 0, 0;
      for i := 0 to |fs|
        invariant services == Listed(fs[..i])
        invariant healthy == Count(fs[..i], false) && unhealthy == Count(fs[..i], true)
      {
        assert fs[..i + 1][..i] == fs[..i];
        if fs[i].Got? {
          var info := fs[i].info;
          if fs[i].at - info.lastHeartbeat > STALE_AFTER {
            info := info.(health := "unhealthy", status := "stale");
            unhealthy := unhealthy + 1;
          } else {
            healthy := healthy + 1;
          }
          services := services + [info];
        }
      }
      assert fs[..|fs|] == fs;
      healthyServices, unhealthyServices := healthy, unhealthy;
      r := Some(services);
    }

    method GetHealthyInstances(found: Option<seq<Fetch>>) returns (r: Option<seq<ServiceInfo>>)
      modifies this
      ensures r == if found.Some? then Some(Fresh(found.value)) else None
      ensures discoveryRequestCount == old(discoveryRequestCount) + 1
      ensures errorCount == old(errorCount) + if found.None? then 1 else 0
      ensures found.None? ==> healthyServices == old(healthyServices) && unhealthyServices == old(unhealthyServices)
      ensures found.Some? ==> healthyServices == Count(found.value, false) && unhealthyServices == Count(found.value, true)
    {
      var all := DiscoverService(found);
      if all.None? {
        return None;
      }
      var healthy := [];
      for i := 0 to |all.value|
        invariant healthy == Healthy(all.value[..i])
      {
        assert all.value[..i + 1][..i] == all.value[..i];
        if all.value[i].health == "healthy" && all.value[i].status == "active" {
          healthy := healthy + [all.value[i]];
        }
      }
      assert all.value[..|all.value|] == all.value;
      HealthyIsFresh(found.value);
      r := Some(healthy);
    }

    /**
      CleanupStaleServices over the entries that KEYS lists: only entries without an expiry are
      candidates, so a registered instance's own key never is. `unreachable` holds the keys for
      which TTL or GET fails.
     */
    method CleanupStaleServices(store: map<string, Entry>, keys: seq<string>, unreachable: set<string>, now: Time)
      returns (left: map<string, Entry>)
      ensures left == store - set k | k in keys && k in store && k !in unreachable && Removable(store[k], now)
      ensures forall k :: k in store && store[k].expiresAt.Some? ==> k in left && left[k] == store[k]
      ensures forall k :: k in left <==>
                k in store && !(k in keys && k !in unreachable && store[k].expiresAt.None? && store[k].info.Some?
                                && now - store[k].info.value.lastHeartbeat > 120_000_000_000)
    {
      left := store;
      ghost var gone: set<string> := {};
      for i := 0 to |keys|
        invariant gone == set k | k in keys[..i] && k in store && k !in unreachable && Removable(store[k], now)
        invariant left == store - gone
      {
        var key := keys[i];
        assert keys[..i + 1] == keys[..i] + [key];
        if key in left && key !in unreachable && left[key].expiresAt.None? {
          if left[key].info.Some? && now - left[key].info.value.lastHeartbeat > CLEANUP_AFTER {
            left := left - {key};
            gone := gone + {key};
          }
        }
      }
      assert keys[..|keys|] == keys;
    }
  }
}

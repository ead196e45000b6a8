/**
  The pool of inter-service clients: two maps kept under one key, the counters about them, and
  the fate of every connection ever dialled.

  `Pool` is the value of the manager's fields together with a record of the connections, which
  are numbered in the order in which they are dialled. Nothing here depends on what a key is;
  `ClientManagers` uses the source's name:type strings.
 */
module ClientPool {
  import opened Common
  import opened CircuitBreakers

  const IDLE_TIMEOUT: Time := 5 * MINUTE

  /** A client: the key it was created for, its connection, and what its methods change. */
  datatype ClientInfo<K> = ClientInfo(id: K, conn: nat, lastUsed: Time, healthy: bool, breaker: Breaker)

  /**
    `active`, `size` and `errors` are the manager's metrics. `closed` and `displaced` are the
    connections closed, and those overwritten by a re-created client; `dropped` counts the
    entries that Close threw away.
   */
  datatype Pool<K(==)> = Pool(
    clients: map<K, ClientInfo<K>>,
    connections: map<K, nat>,
    active: int, size: int, errors: int,
    dialled: nat, closed: set<nat>, displaced: set<nat>, dropped: nat)

  /** How the attempt to build a client ends. */
  datatype Dial = DiscoveryFailed | NoInstances | DialFailed | CheckFailed | Connected(serving: bool)

  datatype Op<K> =
    | Get(key: K, dial: Dial, now: Time, done: Time)
    | CheckHealth(key: K, reply: Option<bool>, now: Time)
    | Request(key: K, success: bool, now: Time)
    | CleanupIdle(now: Time)
    | Close

  /** The number of entries of a map, as len reports it. */
  function SizeOf<K(==), V>(m: map<K, V>): nat {
    |m|
  }

  lemma SameKeysSameSize<K, A, B>(m: map<K, A>, n: map<K, B>)
    requires m.Keys == n.Keys
    ensures SizeOf(m) == SizeOf(n)
  {
  }

  function Empty<K>(): Pool<K> {
    Pool(map[], map[], 0, 0, 0, 0, {}, {}, 0)
  }

  predicate Idle<K>(c: ClientInfo<K>, now: Time) {
    now - c.lastUsed > IDLE_TIMEOUT
  }

  /** A pooled client that is asked for: its use is noted, and its breaker polled if it is healthy. */
  function Touched<K>(c: ClientInfo<K>, now: Time): ClientInfo<K> {
    c.(lastUsed := now, breaker := if c.healthy then Apply(c.breaker, Polled(now)) else c.breaker)
  }

  predicate Usable<K>(c: ClientInfo<K>) {
    c.healthy && !c.breaker.state.Open?
  }

  function Touch<K>(p: Pool<K>, key: K, now: Time): Pool<K> {
    if key in p.clients then p.(clients := p.clients[key := Touched(p.clients[key], now)]) else p
  }

  /** A new client is filed under `key`; a connection that was filed there before is displaced, not closed. */
  function File<K>(p: Pool<K>, key: K, serving: bool, done: Time): Pool<K> {
    var clients := p.clients[key := ClientInfo(key, p.dialled, done, serving, NewBreaker(0))];
    p.(clients := clients,
    connections := p.connections[key := p.dialled],
    dialled := p.dialled + 1,
    displaced := if key in p.connections then p.displaced + {p.connections[key]} else p.displaced,
    active := p.active + 1,
    size := SizeOf(clients))
  }

  /** A connection whose health check fails is closed at once. */
  function DialledInVain<K>(p: Pool<K>): Pool<K> {
    p.(dialled := p.dialled + 1, closed := p.closed + {p.dialled}, errors := p.errors + 1)
  }

  /** createClient and the bookkeeping GetClient does around it. */
  function Create<K>(p: Pool<K>, key: K, dial: Dial, done: Time): Pool<K> {
    match dial
    case Connected(serving) => File(p, key, serving, done)
    case CheckFailed => DialledInVain(p)
    case _ => p.(errors := p.errors + 1)
  }

  predicate Served<K>(p: Pool<K>, op: Op<K>)
    requires op.Get?
  {
    (op.key in p.clients && Usable(Touched(p.clients[op.key], op.now))) || op.dial.Connected?
  }

  function GetStep<K>(p: Pool<K>, op: Op<K>): Pool<K>
    requires op.Get?
  {
    var q := Touch(p, op.key, op.now);
    if op.key in q.clients && Usable(q.clients[op.key]) then q else Create(q, op.key, op.dial, op.done)
  }

  ghost function IdleKeys<K>(p: Pool<K>, now: Time): set<K> {
    set k | k in p.clients && Idle(p.clients[k], now)
  }

  /** Closes and removes the given entries; with none to remove not even the metrics are touched. */
  ghost function Removed<K>(p: Pool<K>, keys: set<K>): Pool<K>
    requires keys <= p.clients.Keys
  {
    if keys == {} then p else
    p.(clients := p.clients - keys,
    connections := p.connections - keys,
    closed := p.closed + set k | k in keys :: p.clients[k].conn,
    active := p.active - |keys|,
    size := SizeOf(p.clients - keys))
  }

  ghost function Emptied<K>(p: Pool<K>): Pool<K> {
    p.(clients := map[], connections := map[],
    closed := p.closed + set k | k in p.connections :: p.connections[k],
    dropped := p.dropped + |p.clients|)
  }

  function Reported<K>(c: ClientInfo<K>, op: Op<K>): ClientInfo<K>
    requires op.CheckHealth? || op.Request?
  {
    match op
    case CheckHealth(_, None, now) => c.(healthy := false, breaker := Apply(c.breaker, Failed(now)))
    case CheckHealth(_, Some(ok), now) =>
      c.(healthy := ok, breaker := if ok then Apply(c.breaker, Succeeded(now)) else c.breaker)
    case Request(_, ok, now) =>
      c.(breaker := Apply(Apply(c.breaker, if ok then Succeeded(now) else Failed(now)), Polled(now)))
  }

  function Report<K>(p: Pool<K>, op: Op<K>): Pool<K>
    requires op.CheckHealth? || op.Request?
  {
    if op.key in p.clients then p.(clients := p.clients[op.key := Reported(p.clients[op.key], op)]) else p
  }

  ghost function Step<K>(p: Pool<K>, op: Op<K>): Pool<K> {
    match op
    case Get(_, _, _, _) => GetStep(p, op)
    case CleanupIdle(now) => Removed(p, IdleKeys(p, now))
    case Close => Emptied(p)
    case _ => Report(p, op)
  }

  ghost function Run<K>(p: Pool<K>, ops: seq<Op<K>>): Pool<K> {
    if ops == [] then p else Step(Run(p, ops[..|ops| - 1]), ops[|ops| - 1])
  }

  // ---- what every operation keeps ----

  /** Both maps hold the same keys, agree on the connection, and file each client under its own key. */
  ghost predicate MapsAgree<K>(p: Pool<K>) {
    && p.clients.Keys == p.connections.Keys
    && (forall k :: k in p.clients ==> p.clients[k].conn == p.connections[k])
    && (forall k :: k in p.clients ==> p.clients[k].id == k)
  }

  ghost predicate Filed<K>(p: Pool<K>, c: nat) {
    exists k :: k in p.connections && p.connections[k] == c
  }

  ghost predicate Injective<K>(m: map<K, nat>) {
    forall j, k :: j in m && k in m && m[j] == m[k] ==> j == k
  }

  /** Each dialled connection is in exactly one place: pooled under one key, closed, or displaced. */
  ghost predicate Conserved<K>(p: Pool<K>) {
    && Injective(p.connections)
    && (forall k :: k in p.connections ==> p.connections[k] !in p.closed && p.connections[k] !in p.displaced)
    && p.closed !! p.displaced
    && (forall c: nat :: c < p.dialled <==> (c in p.closed || c in p.displaced || Filed(p, c)))
  }

  ghost predicate CountersAgree<K>(p: Pool<K>) {
    p.active == |p.clients| + |p.displaced| + p.dropped
  }

  ghost predicate PoolInv<K>(p: Pool<K>) {
    MapsAgree(p) && Conserved(p) && CountersAgree(p)
  }

  lemma FiledIsDialled<K>(p: Pool<K>, k: K)
    requires Conserved(p) && k in p.connections
    ensures p.connections[k] < p.dialled
  {
  }

  lemma FileKeepsConserved<K>(p: Pool<K>, key: K, serving: bool, done: Time)
    requires Conserved(p)
    ensures Conserved(File(p, key, serving, done))
  {
    var q := File(p, key, serving, done);
    forall k | k in p.connections ensures p.connections[k] < p.dialled { FiledIsDialled(p, k); }
    forall c: nat | Filed(p, c) && c !in q.displaced ensures Filed(q, c) {
      var j :| j in p.connections && p.connections[j] == c;
      assert j in q.connections && q.connections[j] == c;
    }
    forall c: nat | Filed(q, c) ensures c == p.dialled || Filed(p, c) {
      var j :| j in q.connections && q.connections[j] == c;
      if j != key { assert j in p.connections && p.connections[j] == c; }
    }
    assert key in q.connections && q.connections[key] == p.dialled;
    assert Filed(q, p.dialled);
    if key in p.connections { assert Filed(p, p.connections[key]); }
  }

  lemma FileKeepsInv<K>(p: Pool<K>, key: K, serving: bool, done: Time)
    requires PoolInv(p)
    ensures PoolInv(File(p, key, serving, done))
  {
    FileKeepsConserved(p, key, serving, done);
    FileKeepsCounters(p, key, serving, done);
    FileKeepsMaps(p, key, serving, done);
  }

  lemma FileKeepsMaps<K>(p: Pool<K>, key: K, serving: bool, done: Time)
    requires MapsAgree(p)
    ensures MapsAgree(File(p, key, serving, done))
  {
  }

  lemma FileKeepsCounters<K>(p: Pool<K>, key: K, serving: bool, done: Time)
    requires PoolInv(p)
    ensures CountersAgree(File(p, key, serving, done))
  {
  }

  lemma DialledInVainKeepsInv<K>(p: Pool<K>)
    requires PoolInv(p)
    ensures PoolInv(DialledInVain(p))
  {
    var q := DialledInVain(p);
    forall k | k in p.connections ensures p.connections[k] < p.dialled { FiledIsDialled(p, k); }
    forall c: nat ensures Filed(q, c) <==> Filed(p, c) { assert q.connections == p.connections; }
  }

  /** Changing clients in place, or the error count, cannot upset the bookkeeping of connections. */
  lemma SameEntriesKeepInv<K>(p: Pool<K>, q: Pool<K>)
    requires PoolInv(p) && q.clients.Keys == p.clients.Keys
    requires forall k :: k in p.clients ==> q.clients[k].conn == p.clients[k].conn && q.clients[k].id == p.clients[k].id
    requires q.connections == p.connections && q.dialled == p.dialled && q.closed == p.closed
    requires q.displaced == p.displaced && q.active == p.active && q.dropped == p.dropped
    ensures PoolInv(q)
  {
    forall c: nat ensures Filed(q, c) <==> Filed(p, c) { }
    assert |q.clients| == |q.clients.Keys| == |p.clients.Keys| == |p.clients|;
  }

  lemma TouchKeepsInv<K>(p: Pool<K>, key: K, now: Time)
    requires PoolInv(p)
    ensures PoolInv(Touch(p, key, now))
  {
    var q := Touch(p, key, now);
    assert q.clients.Keys == p.clients.Keys;
    SameEntriesKeepInv(p, q);
  }

  lemma GetKeepsInv<K>(p: Pool<K>, op: Op<K>)
    requires PoolInv(p) && op.Get?
    ensures PoolInv(GetStep(p, op))
  {
    var q := Touch(p, op.key, op.now);
    TouchKeepsInv(p, op.key, op.now);
    match op.dial
    case Connected(serving) => FileKeepsInv(q, op.key, serving, op.done);
    case CheckFailed => DialledInVainKeepsInv(q);
    case _ => SameEntriesKeepInv(q, q.(errors := q.errors + 1));
  }

  lemma RemovedKeepsConserved<K>(p: Pool<K>, keys: set<K>)
    requires MapsAgree(p) && Conserved(p) && keys <= p.clients.Keys && keys != {}
    ensures Conserved(Removed(p, keys))
  {
    var q := Removed(p, keys);
    forall c: nat | Filed(p, c) && c !in q.closed ensures Filed(q, c) {
      var j :| j in p.connections && p.connections[j] == c;
      assert p.clients[j].conn == c;
      assert j in q.connections && q.connections[j] == c;
    }
    forall c: nat | Filed(q, c) ensures Filed(p, c) {
      var j :| j in q.connections && q.connections[j] == c;
      assert j in p.connections && p.connections[j] == c;
    }
    forall c | c in q.closed && c !in p.closed ensures Filed(p, c) && c !in p.displaced {
      var j :| j in keys && p.clients[j].conn == c;
      assert j in p.connections && p.connections[j] == c;
    }
    forall k | k in q.connections ensures q.connections[k] !in q.closed {
      assert forall j <- keys :: p.connections[j] == p.connections[k] ==> j == k;
    }
  }

  lemma RemovedKeepsInv<K>(p: Pool<K>, keys: set<K>)
    requires PoolInv(p) && keys <= p.clients.Keys
    ensures PoolInv(Removed(p, keys))
  {
    if keys != {} {
      RemovedKeepsConserved(p, keys);
      assert (p.clients - keys).Keys == p.clients.Keys - keys;
      assert |p.clients - keys| == |(p.clients - keys).Keys| == |p.clients.Keys| - |keys|;
    }
  }

  /** Removing one entry after others is removing them together. */
  lemma RemoveOneMore<K>(p: Pool<K>, gone: set<K>, key: K, q: Pool<K>, r: Pool<K>)
    requires MapsAgree(p) && gone <= p.clients.Keys && key in p.clients && key !in gone
    requires q == Removed(p, gone) && r == Removed(p, gone + {key})
    ensures r.clients == q.clients - {key}
    ensures r.connections == q.connections - {key}
    ensures r.active == q.active - 1 && r.size == SizeOf(r.clients)
    ensures r.dialled == q.dialled && r.errors == q.errors
  {
    hide MapsAgree;
    assert gone + {key} != {};
    assert p.clients.Keys == p.connections.Keys by { MapsHaveSameKeys(p); }
    MinusOneMore(p.clients, gone, key);
    MinusOneMore(p.connections, gone, key);
    assert |gone + {key}| == |gone| + 1;
  }

  /** And it closes one connection more. */
  lemma CloseOneMore<K>(p: Pool<K>, gone: set<K>, key: K, q: Pool<K>, r: Pool<K>)
    requires gone <= p.clients.Keys && key in p.clients && key !in gone
    requires q == Removed(p, gone) && r == Removed(p, gone + {key})
    ensures key in q.clients && q.clients[key] == p.clients[key] && r.closed == q.closed + {q.clients[key].conn}
  {
    hide SizeOf;
    var before := set k | k in gone :: p.clients[k].conn;
    var after := set k | k in gone + {key} :: p.clients[k].conn;
    assert after == before + {p.clients[key].conn} by {
      forall c ensures c in after <==> c in before || c == p.clients[key].conn { }
    }
  }

  lemma IdleKeysExact<K>(p: Pool<K>, now: Time, key: K)
    requires key in p.clients
    ensures key in IdleKeys(p, now) <==> Idle(p.clients[key], now)
  {
  }

  lemma FileFields<K>(p: Pool<K>, key: K, serving: bool, done: Time, q: Pool<K>)
    requires q == File(p, key, serving, done)
    ensures q.clients == p.clients[key := ClientInfo(key, p.dialled, done, serving, NewBreaker(0))]
    ensures q.connections == p.connections[key := p.dialled] && q.dialled == p.dialled + 1
    ensures q.active == p.active + 1 && q.size == SizeOf(q.clients) && q.errors == p.errors && q.closed == p.closed
  {
  }

  lemma TouchFields<K>(p: Pool<K>, key: K, now: Time, q: Pool<K>)
    requires key in p.clients && q == Touch(p, key, now)
    ensures q.clients == p.clients[key := Touched(p.clients[key], now)]
    ensures q.connections == p.connections && q.dialled == p.dialled && q.closed == p.closed
    ensures q.active == p.active && q.size == p.size && q.errors == p.errors
  {
    hide Touched;
  }

  lemma ReportFields<K>(p: Pool<K>, op: Op<K>, q: Pool<K>)
    requires (op.CheckHealth? || op.Request?) && op.key in p.clients && q == Report(p, op)
    ensures q.clients == p.clients[op.key := Reported(p.clients[op.key], op)]
    ensures q.connections == p.connections && q.dialled == p.dialled && q.closed == p.closed
    ensures q.active == p.active && q.size == p.size && q.errors == p.errors
    ensures q == Step(p, op)
  {
    hide Reported;
  }

  lemma GetUnfolds<K>(p: Pool<K>, op: Op<K>, q: Pool<K>)
    requires op.Get? && q == Touch(p, op.key, op.now)
    ensures (op.key in p.clients <==> op.key in q.clients) && (op.key !in p.clients ==> q == p)
    ensures Step(p, op) == if op.key in q.clients && Usable(q.clients[op.key]) then q else Create(q, op.key, op.dial, op.done)
    ensures Served(p, op) <==> (op.key in q.clients && Usable(q.clients[op.key])) || op.dial.Connected?
  {
    hide Usable, Touched, Create;
  }

  lemma MapsHaveSameKeys<K>(p: Pool<K>)
    requires MapsAgree(p)
    ensures p.clients.Keys == p.connections.Keys
  {
  }

  lemma MinusOneMore<K, V>(m: map<K, V>, gone: set<K>, key: K)
    ensures m - (gone + {key}) == m - gone - {key}
    ensures gone == {} ==> m - gone == m
  {
  }

  lemma EmptiedKeepsInv<K>(p: Pool<K>)
    requires PoolInv(p)
    ensures PoolInv(Emptied(p))
  {
  }

  lemma ReportKeepsInv<K>(p: Pool<K>, op: Op<K>)
    requires PoolInv(p) && (op.CheckHealth? || op.Request?)
    ensures PoolInv(Report(p, op))
  {
    assert Report(p, op).clients.Keys == p.clients.Keys;
    SameEntriesKeepInv(p, Report(p, op));
  }

  lemma StepKeepsInv<K>(p: Pool<K>, op: Op<K>)
    requires PoolInv(p)
    ensures PoolInv(Step(p, op))
  {
    match op
    case Get(_, _, _, _) => GetKeepsInv(p, op);
    case CleanupIdle(now) => RemovedKeepsInv(p, IdleKeys(p, now));
    case Close => EmptiedKeepsInv(p);
    case _ => ReportKeepsInv(p, op);
  }

  /** The invariant holds at every operation boundary of every run from an empty pool. */
  lemma {:induction false} RunKeepsInv<K>(ops: seq<Op<K>>)
    ensures PoolInv(Run(Empty(), ops))
  {
    if ops != [] {
      RunKeepsInv(ops[..|ops| - 1]);
      StepKeepsInv(Run(Empty(), ops[..|ops| - 1]), ops[|ops| - 1]);
    }
  }

  /** The connections dialled so far. */
  ghost function Upto(n: nat): (s: set<nat>)
    ensures |s| == n
    ensures forall c: nat :: c in s <==> c < n
  {
    if n == 0 then {} else Upto(n - 1) + {n - 1}
  }

  ghost function ConnectionsOf<K>(m: map<K, nat>, keys: set<K>): set<nat>
    requires keys <= m.Keys
  {
    set k | k in keys :: m[k]
  }

  lemma {:induction false} InjectiveCount<K>(m: map<K, nat>, keys: set<K>)
    requires Injective(m) && keys <= m.Keys
    ensures |ConnectionsOf(m, keys)| == |keys|
  {
    if keys != {} {
      var k :| k in keys;
      InjectiveCount(m, keys - {k});
      assert ConnectionsOf(m, keys) == ConnectionsOf(m, keys - {k}) + {m[k]};
    }
  }

  /** The connections not closed are the pooled and the displaced ones. */
  lemma OpenConnections<K>(p: Pool<K>, pooled: set<nat>)
    requires Conserved(p) && pooled == ConnectionsOf(p.connections, p.connections.Keys)
    ensures Upto(p.dialled) - p.closed == pooled + p.displaced && pooled !! p.displaced
  {
  }

  /** activeConnections exceeds the number of open connections by exactly the entries Close dropped. */
  lemma ActiveCountsOpenConnections<K>(ops: seq<Op<K>>)
    ensures var p := Run(Empty(), ops); p.active == |Upto(p.dialled) - p.closed| + p.dropped
  {
    hide Run;
    RunKeepsInv(ops);
    ActiveCount(Run(Empty(), ops));
  }

  lemma ActiveCount<K>(p: Pool<K>)
    requires PoolInv(p)
    ensures p.active == |Upto(p.dialled) - p.closed| + p.dropped
  {
    var pooled := ConnectionsOf(p.connections, p.connections.Keys);
    InjectiveCount(p.connections, p.connections.Keys);
    OpenConnections(p, pooled);
    PooledCount(p);
    hide PoolInv, Upto, ConnectionsOf;
    assert |pooled + p.displaced| == |pooled| + |p.displaced|;
  }

  lemma PooledCount<K>(p: Pool<K>)
    requires PoolInv(p)
    ensures |p.connections.Keys| == |p.clients| && p.active == |p.clients| + |p.displaced| + p.dropped
  {
  }

  /** Without a Close the poolSize metric is the number of pooled clients, and nothing was dropped. */
  lemma {:induction false} PoolSizeWithoutClose<K>(ops: seq<Op<K>>)
    requires forall i :: 0 <= i < |ops| ==> !ops[i].Close?
    ensures var p := Run(Empty(), ops); p.size == |p.clients| && p.dropped == 0
  {
    if ops != [] {
      var front, op := ops[..|ops| - 1], ops[|ops| - 1];
      PoolSizeWithoutClose(front);
      var p := Run(Empty(), front);
      if op.Get? {
        var q := Touch(p, op.key, op.now);
        assert q.clients.Keys == p.clients.Keys && |q.clients| == |q.clients.Keys| == |p.clients.Keys|;
      } else if op.CheckHealth? || op.Request? {
        var q := Report(p, op);
        assert q.clients.Keys == p.clients.Keys && |q.clients| == |q.clients.Keys| == |p.clients.Keys|;
      }
    }
  }

  /** Close leaves both gauges behind: afterwards each is wrong exactly if Close dropped something. */
  lemma CloseLeavesMetricsBehind<K>(ops: seq<Op<K>>)
    requires forall i :: 0 <= i < |ops| ==> !ops[i].Close?
    ensures var p, q := Run(Empty(), ops), Run(Empty(), ops + [Close]);
            && (q.size == |q.clients| <==> |p.clients| == 0)
            && (q.active == |q.clients| + |q.displaced| <==> |p.clients| == 0)
  {
    PoolSizeWithoutClose(ops);
    RunKeepsInv(ops);
    assert (ops + [Close])[..|ops|] == ops;
  }

  // ---- connections that leak ----

  /** The guard of the leak: a pooled client that is no longer usable is asked for, and its re-creation succeeds. */
  predicate Displaces<K>(p: Pool<K>, op: Op<K>) {
    op.Get? && op.key in p.clients && !Usable(Touched(p.clients[op.key], op.now)) && op.dial.Connected?
  }

  /** What one operation displaces: the connection of that client, and nothing otherwise. */
  lemma StepDisplaces<K>(p: Pool<K>, op: Op<K>)
    requires MapsAgree(p)
    ensures Step(p, op).displaced == p.displaced + if Displaces(p, op) then {p.clients[op.key].conn} else {}
  {
    hide Apply, NewBreaker, Idle, IdleKeys, SizeOf;
    if op.Get? {
      var q := Touch(p, op.key, op.now);
      assert q.connections == p.connections && q.displaced == p.displaced;
      if op.key in p.clients { assert q.clients[op.key] == Touched(p.clients[op.key], op.now); }
      hide Usable, Touched;
    } else {
      hide Removed, Emptied, Report;
      OtherStepsDisplaceNothing(p, op);
    }
  }

  lemma OtherStepsDisplaceNothing<K>(p: Pool<K>, op: Op<K>)
    requires !op.Get?
    ensures Step(p, op).displaced == p.displaced
  {
    hide Reported, SizeOf, Idle;
  }

  /** No operation of the run is one of the given kind when it comes. */
  ghost predicate Never<K>(kind: (Pool<K>, Op<K>) -> bool, ops: seq<Op<K>>) {
    forall i :: 0 <= i < |ops| ==> !kind(Run(Empty(), ops[..i]), ops[i])
  }

  lemma NeverUnfolds<K>(kind: (Pool<K>, Op<K>) -> bool, ops: seq<Op<K>>)
    requires ops != []
    ensures var front, op := ops[..|ops| - 1], ops[|ops| - 1];
            Never(kind, ops) <==> Never(kind, front) && !kind(Run(Empty(), front), op)
  {
    hide Run, Empty;
    var last := |ops| - 1;
    forall i | 0 <= i < last ensures ops[..last][..i] == ops[..i] && ops[..last][i] == ops[i] { }
    if Never(kind, ops[..last]) && !kind(Run(Empty(), ops[..last]), ops[last]) {
      forall i | 0 <= i < |ops| ensures !kind(Run(Empty(), ops[..i]), ops[i]) {
        if i < last { assert !kind(Run(Empty(), ops[..last][..i]), ops[..last][i]); }
      }
    }
    if Never(kind, ops) {
      forall i | 0 <= i < last ensures !kind(Run(Empty(), ops[..last][..i]), ops[..last][i]) {
        assert !kind(Run(Empty(), ops[..i]), ops[i]);
      }
    }
  }

  /** A run leaks no connection if and only if no operation of it re-creates a pooled client. */
  lemma {:induction false} LeaksExactly<K>(ops: seq<Op<K>>)
    ensures Run(Empty(), ops).displaced == {} <==> Never(Displaces, ops)
  {
    hide Displaces, Step, Apply, PoolInv, Never;
    if ops != [] {
      var front, op := ops[..|ops| - 1], ops[|ops| - 1];
      var p := Run(Empty(), front);
      LeaksExactly(front);
      RunUnfolds(Empty(), ops);
      NeverUnfolds(Displaces, ops);
      hide Run;
      assert MapsAgree(p) by { FilesAgree(front); }
      StepDisplaces(p, op);
    } else {
      assert Never(Displaces, ops) by { NeverInNoRun<K>(Displaces); }
    }
  }

  lemma NeverInNoRun<K>(kind: (Pool<K>, Op<K>) -> bool)
    ensures Never(kind, [])
  {
  }

  lemma FilesAgree<K>(ops: seq<Op<K>>)
    ensures MapsAgree(Run(Empty(), ops))
  {
    hide Run;
    RunKeepsInv(ops);
  }

  lemma RunUnfolds<K>(p: Pool<K>, ops: seq<Op<K>>)
    requires ops != []
    ensures Run(p, ops) == Step(Run(p, ops[..|ops| - 1]), ops[|ops| - 1])
  {
  }

  /** A displaced connection is never closed, whatever happens afterwards: not by a cleanup, not by Close. */
  lemma {:induction false} LeakedForever<K>(p: Pool<K>, ops: seq<Op<K>>, conn: nat)
    requires PoolInv(p) && conn in p.displaced
    ensures PoolInv(Run(p, ops)) && conn in Run(p, ops).displaced && conn !in Run(p, ops).closed
  {
    if ops != [] {
      var front := ops[..|ops| - 1];
      LeakedForever(p, front, conn);
      StepDisplaces(Run(p, front), ops[|ops| - 1]);
      StepKeepsInv(Run(p, front), ops[|ops| - 1]);
    }
  }

  lemma FirstGet<K>(key: K, t: Time)
    ensures Step(Empty(), Get(key, Connected(true), t, t)) == File(Empty(), key, true, t)
    ensures var p := File(Empty(), key, true, t);
            p.displaced == {} && key in p.clients && p.clients[key].conn == 0
  {
    hide SizeOf, NewBreaker;
  }

  lemma FailedCheckDisplaces<K>(p: Pool<K>, key: K, t: Time)
    requires key in p.clients
    ensures var q := Step(p, CheckHealth(key, None, t));
            && Displaces(q, Get(key, Connected(true), t, t)) && q.displaced == p.displaced
            && key in q.clients && q.clients[key].conn == p.clients[key].conn
  {
    hide Apply;
  }

  /** Three operations leak the first connection: create a client, let its health check fail, ask for it again. */
  lemma LeakingRun<K>(key: K, t: Time)
    ensures var ops := [Get(key, Connected(true), t, t), CheckHealth(key, None, t), Get(key, Connected(true), t, t)];
            Run(Empty(), ops).displaced == {0}
  {
    var a, b := Get(key, Connected(true), t, t), CheckHealth(key, None, t);
    assert [a, b, a][..2] == [a, b] && [a, b][..1] == [a] && [a][..0] == [];
    RunUnfolds(Empty(), [a]);
    RunUnfolds(Empty(), [a, b]);
    RunUnfolds(Empty(), [a, b, a]);
    assert Run(Empty<K>(), []) == Empty();
    FilesAgree([a, b]);
    FirstGet(key, t);
    hide Step, Run, File, Empty, Displaces, MapsAgree;
    FailedCheckDisplaces(File(Empty(), key, true, t), key, t);
    StepDisplaces(Run(Empty(), [a, b]), a);
  }

  // ---- gauges that Close leaves behind ----

  /** A Close that finds pooled clients. */
  predicate Drops<K>(p: Pool<K>, op: Op<K>) {
    op.Close? && p.clients != map[]
  }

  /** An operation that sets poolSize: it files a client, or a cleanup removes one. */
  ghost predicate SetsSize<K>(p: Pool<K>, op: Op<K>) {
    || (op.Get? && !(op.key in p.clients && Usable(Touched(p.clients[op.key], op.now))) && op.dial.Connected?)
    || (op.CleanupIdle? && IdleKeys(p, op.now) != {})
  }

  lemma StepDrops<K>(p: Pool<K>, op: Op<K>)
    ensures Step(p, op).dropped == p.dropped + if Drops(p, op) then |p.clients| else 0
  {
    hide Apply, Reported, Touched, Usable, SizeOf, Idle, NewBreaker;
  }

  /** What one operation does to poolSize and to the number of clients. */
  lemma StepSizes<K>(p: Pool<K>, op: Op<K>)
    ensures var q := Step(p, op);
            && (SetsSize(p, op) ==> q.size == |q.clients|)
            && (op.Close? ==> q.size == p.size && q.clients == map[])
            && (!SetsSize(p, op) && !op.Close? ==> q.size == p.size && |q.clients| == |p.clients|)
  {
    hide GetStep, Report, Removed, Emptied, IdleKeys, Usable, Touched;
    match op
    case Get(_, _, _, _) => GetSizes(p, op);
    case CleanupIdle(now) => CleanupSizes(p, now);
    case Close => assert Emptied(p).size == p.size && Emptied(p).clients == map[] by { EmptiedSizes(p); }
    case _ => ReportSizes(p, op);
  }

  lemma GetSizes<K>(p: Pool<K>, op: Op<K>)
    requires op.Get?
    ensures if SetsSize(p, op) then GetStep(p, op).size == |GetStep(p, op).clients|
            else GetStep(p, op).size == p.size && |GetStep(p, op).clients| == |p.clients|
  {
    var t := Touch(p, op.key, op.now);
    assert t.clients.Keys == p.clients.Keys;
    assert |t.clients| == |t.clients.Keys| && |p.clients| == |p.clients.Keys|;
    if op.key in p.clients { assert t.clients[op.key] == Touched(p.clients[op.key], op.now); }
    hide Usable, Touched, NewBreaker;
  }

  lemma CleanupSizes<K>(p: Pool<K>, now: Time)
    ensures var q := Removed(p, IdleKeys(p, now));
            if IdleKeys(p, now) != {} then q.size == |q.clients| else q == p
  {
    hide IdleKeys;
  }

  lemma EmptiedSizes<K>(p: Pool<K>)
    ensures Emptied(p).size == p.size && Emptied(p).clients == map[]
  {
  }

  lemma ReportSizes<K>(p: Pool<K>, op: Op<K>)
    requires op.CheckHealth? || op.Request?
    ensures Report(p, op).size == p.size && |Report(p, op).clients| == |p.clients|
  {
    hide Reported;
    assert Report(p, op).clients.Keys == p.clients.Keys;
    assert |Report(p, op).clients| == |Report(p, op).clients.Keys| && |p.clients| == |p.clients.Keys|;
  }

  /** After any run activeConnections counts the open connections if and only if no Close of it found a pooled client. */
  lemma ActiveIsRightExactly<K>(ops: seq<Op<K>>)
    ensures var p := Run(Empty(), ops); p.active == |Upto(p.dialled) - p.closed| <==> Never(Drops, ops)
  {
    ActiveCountsOpenConnections(ops);
    DropsExactly(ops);
    hide Run, Upto;
  }

  lemma {:induction false} DropsExactly<K>(ops: seq<Op<K>>)
    ensures Run(Empty(), ops).dropped == 0 <==> Never(Drops, ops)
  {
    hide Step, Never;
    if ops != [] {
      var front, op := ops[..|ops| - 1], ops[|ops| - 1];
      DropsExactly(front);
      RunUnfolds(Empty(), ops);
      NeverUnfolds(Drops, ops);
      StepDrops(Run(Empty(), front), op);
    } else {
      assert Never(Drops, ops) by { NeverInNoRun<K>(Drops); }
    }
  }

  /** Some Close of the run found pooled clients, and no operation has set poolSize since. */
  ghost predicate SizeLeftBehind<K>(ops: seq<Op<K>>) {
    exists i :: LastWord(ops, i)
  }

  ghost predicate LastWord<K>(ops: seq<Op<K>>, i: int) {
    && 0 <= i < |ops| && Drops(Run(Empty(), ops[..i]), ops[i])
    && forall j :: i < j < |ops| ==> !SetsSize(Run(Empty(), ops[..j]), ops[j])
  }

  lemma LastWordOfFront<K>(ops: seq<Op<K>>, i: int)
    requires ops != [] && i < |ops| - 1
    ensures var front, op := ops[..|ops| - 1], ops[|ops| - 1];
            LastWord(ops, i) <==> LastWord(front, i) && !SetsSize(Run(Empty(), front), op)
  {
    hide Run, Empty, Drops, SetsSize;
    var last := |ops| - 1;
    forall j | 0 <= j < last ensures ops[..last][..j] == ops[..j] && ops[..last][j] == ops[j] { }
    if LastWord(ops[..last], i) && !SetsSize(Run(Empty(), ops[..last]), ops[last]) {
      forall j | i < j < |ops| ensures !SetsSize(Run(Empty(), ops[..j]), ops[j]) {
        if j < last { assert !SetsSize(Run(Empty(), ops[..last][..j]), ops[..last][j]); }
      }
    }
    if LastWord(ops, i) {
      forall j | i < j < last ensures !SetsSize(Run(Empty(), ops[..last][..j]), ops[..last][j]) {
        assert !SetsSize(Run(Empty(), ops[..j]), ops[j]);
      }
    }
  }

  lemma SizeLeftBehindUnfolds<K>(ops: seq<Op<K>>)
    requires ops != []
    ensures var front, op := ops[..|ops| - 1], ops[|ops| - 1];
            SizeLeftBehind(ops) <==> Drops(Run(Empty(), front), op) || (SizeLeftBehind(front) && !SetsSize(Run(Empty(), front), op))
  {
    hide Run, Empty, Drops, SetsSize;
    var last := |ops| - 1;
    if Drops(Run(Empty(), ops[..last]), ops[last]) { assert LastWord(ops, last); }
    if i :| LastWord(ops, i) && i < last { LastWordOfFront(ops, i); }
    if i :| LastWord(ops[..last], i) { LastWordOfFront(ops, i); }
  }

  /** After any run poolSize is the number of pooled clients if and only if no such Close has the last word on it. */
  lemma {:induction false} PoolSizeIsRightExactly<K>(ops: seq<Op<K>>)
    ensures var p := Run(Empty(), ops);
            && (p.size == |p.clients| <==> !SizeLeftBehind(ops))
            && (SizeLeftBehind(ops) ==> p.clients == map[] && p.size > 0)
  {
    hide Step, Drops, SetsSize, SizeLeftBehind;
    if ops != [] {
      var front, op := ops[..|ops| - 1], ops[|ops| - 1];
      var p := Run(Empty(), front);
      PoolSizeIsRightExactly(front);
      RunUnfolds(Empty(), ops);
      SizeLeftBehindUnfolds(ops);
      StepSizes(p, op);
      hide Run;
      DropsOrNot(p, op);
    } else {
      assert !SizeLeftBehind(ops) by { NothingLeftBehind<K>(); }
    }
  }

  lemma DropsOrNot<K>(p: Pool<K>, op: Op<K>)
    ensures Drops(p, op) <==> op.Close? && |p.clients| > 0
    ensures SetsSize(p, op) ==> !op.Close?
  {
    hide Usable, Touched;
    assert |p.clients| == 0 <==> p.clients == map[];
  }

  lemma NothingLeftBehind<K>()
    ensures !SizeLeftBehind<K>([])
  {
  }

  // ---- what a caller of GetClient holds ----

  /** A served caller gets the client filed under its key, just used and with a breaker that is not open. */
  lemma GetHandsOut<K>(p: Pool<K>, op: Op<K>)
    requires PoolInv(p) && op.Get? && Served(p, op) && op.now <= op.done
    ensures var q := GetStep(p, op);
            && op.key in q.clients && q.clients[op.key].id == op.key
            && !q.clients[op.key].breaker.state.Open? && q.clients[op.key].lastUsed >= op.now
  {
    GetKeepsInv(p, op);
  }

  /**
    Exactly when a pooled client is kept: it is healthy, and its breaker is not open or has been so
    for more than its timeout since the last failure, in which case the lookup makes it half-open.
    Kept, it keeps its connection and nothing is dialled, whatever dialling would have led to.
   */
  lemma PooledClientIsKept<K>(p: Pool<K>, key: K, dial: Dial, now: Time, done: Time)
    requires key in p.clients && p.clients[key].healthy
    requires p.clients[key].breaker.state.Open? ==> now - p.clients[key].breaker.lastFail > p.clients[key].breaker.timeout
    ensures var c, q := p.clients[key], Step(p, Get(key, dial, now, done));
            && Served(p, Get(key, dial, now, done)) && q.clients.Keys == p.clients.Keys && q.clients[key].conn == c.conn
            && q.clients[key].breaker == (if c.breaker.state.Open? then c.breaker.(state := HalfOpen) else c.breaker)
            && q.clients[key].lastUsed == now && q.clients[key].healthy
            && q.connections == p.connections && q.dialled == p.dialled && q.closed == p.closed && q.displaced == p.displaced
            && q.active == p.active && q.size == p.size && q.errors == p.errors
  {
  }

  /**
    Otherwise a new one is dialled: unhealthy, or up to and including the deadline of an open
    breaker. The old client's breaker is left alone, and its connection displaced if the new client
    comes about.
   */
  lemma PooledClientIsReplaced<K>(p: Pool<K>, key: K, dial: Dial, now: Time, done: Time)
    requires MapsAgree(p) && key in p.clients
    requires !p.clients[key].healthy
             || (p.clients[key].breaker.state.Open? && now - p.clients[key].breaker.lastFail <= p.clients[key].breaker.timeout)
    ensures var c, q := p.clients[key], Step(p, Get(key, dial, now, done));
            && (Served(p, Get(key, dial, now, done)) <==> dial.Connected?)
            && key in q.clients && q.clients.Keys == p.clients.Keys
            && (dial.Connected? ==>
                  && q.clients[key].conn == p.dialled && q.clients[key].lastUsed == done && q.clients[key].healthy == dial.serving
                  && q.clients[key].breaker.state.Closed? && q.clients[key].breaker.failureCount == 0
                  && q.dialled == p.dialled + 1 && q.displaced == p.displaced + {c.conn} && q.errors == p.errors)
            && (!dial.Connected? ==>
                  && q.clients[key] == c.(lastUsed := now) && q.displaced == p.displaced && q.errors == p.errors + 1
                  && q.dialled == p.dialled + if dial.CheckFailed? then 1 else 0)
  {
    hide SizeOf;
    var t := Touch(p, key, now);
    assert t.clients.Keys == p.clients.Keys && t.clients[key] == p.clients[key].(lastUsed := now);
    assert t.connections == p.connections;
  }

  /** A client that is not pooled is dialled for, and filed as new if that succeeds. */
  lemma UnknownClientIsDialled<K>(p: Pool<K>, key: K, dial: Dial, now: Time, done: Time)
    requires MapsAgree(p) && key !in p.clients
    ensures var q := Step(p, Get(key, dial, now, done));
            && (Served(p, Get(key, dial, now, done)) <==> dial.Connected?) && (key in q.clients <==> dial.Connected?)
            && (dial.Connected? ==>
                  && q.clients[key].conn == p.dialled && q.clients[key].lastUsed == done && q.clients[key].healthy == dial.serving
                  && q.clients[key].breaker.state.Closed? && q.clients[key].breaker.failureCount == 0)
            && q.displaced == p.displaced && q.errors == p.errors + (if dial.Connected? then 0 else 1)
            && q.dialled == p.dialled + if dial.Connected? || dial.CheckFailed? then 1 else 0
  {
    hide SizeOf;
  }

  /** A refused caller leaves both maps with the same keys and connections, and one more error. */
  lemma GetRefused<K>(p: Pool<K>, op: Op<K>)
    requires PoolInv(p) && op.Get? && !Served(p, op)
    ensures var q := GetStep(p, op);
            && q.connections == p.connections && q.clients.Keys == p.clients.Keys
            && (forall k :: k in p.clients && k != op.key ==> q.clients[k] == p.clients[k])
            && q.errors == p.errors + 1 && q.active == p.active && q.size == p.size
            && q.closed - p.closed == (if op.dial.CheckFailed? then {p.dialled} else {})
  {
    var t := Touch(p, op.key, op.now);
    assert t.clients.Keys == p.clients.Keys;
    assert p.dialled !in p.closed;
  }

  /** No Close, no lookup before `t`, and no cleanup more than five minutes after it. */
  predicate Harmless<K>(op: Op<K>, t: Time) {
    match op
    case Get(_, _, now, _) => t <= now
    case CleanupIdle(now) => now <= t + 300_000_000_000
    case Close => false
    case _ => true
  }

  /** The connection is still filed under its key and was used since `t`, or it was displaced. */
  ghost predicate StillOpen<K>(p: Pool<K>, key: K, conn: nat, t: Time) {
    (key in p.clients && p.clients[key].conn == conn && p.clients[key].lastUsed >= t) || conn in p.displaced
  }

  lemma GetKeepsOpen<K>(p: Pool<K>, op: Op<K>, key: K, conn: nat, t: Time)
    requires MapsAgree(p) && StillOpen(p, key, conn, t) && op.Get? && Harmless(op, t)
    ensures StillOpen(GetStep(p, op), key, conn, t)
  {
    var q := Touch(p, op.key, op.now);
    assert StillOpen(q, key, conn, t);
    assert q.connections == p.connections && q.displaced == p.displaced;
  }

  lemma RemovalKeepsOpen<K>(p: Pool<K>, keys: set<K>, key: K, conn: nat, t: Time)
    requires StillOpen(p, key, conn, t) && keys <= p.clients.Keys && key !in keys
    ensures StillOpen(Removed(p, keys), key, conn, t)
  {
  }

  lemma ReportKeepsOpen<K>(p: Pool<K>, op: Op<K>, key: K, conn: nat, t: Time)
    requires StillOpen(p, key, conn, t) && (op.CheckHealth? || op.Request?)
    ensures StillOpen(Report(p, op), key, conn, t)
  {
  }

  lemma StepKeepsOpen<K>(p: Pool<K>, op: Op<K>, key: K, conn: nat, t: Time)
    requires MapsAgree(p) && StillOpen(p, key, conn, t) && Harmless(op, t)
    ensures StillOpen(Step(p, op), key, conn, t)
  {
    if conn !in p.displaced {
      match op
      case Get(_, _, _, _) => GetKeepsOpen(p, op, key, conn, t);
      case CleanupIdle(now) => RemovalKeepsOpen(p, IdleKeys(p, now), key, conn, t);
      case _ => ReportKeepsOpen(p, op, key, conn, t);
    }
  }

  /**
    Handed-out safety: the connection a GetClient hands out, last used at `t` (when it was asked for, or
    when its creation was done), is not closed by any sequence of lookups from then on, of health
    checks and requests whenever they come, and of cleanups up to five minutes after `t`.
   */
  lemma {:induction false} HandedOutStaysOpen<K>(p: Pool<K>, get: Op<K>, ops: seq<Op<K>>, q: Pool<K>, t: Time)
    requires PoolInv(p) && get.Get? && Served(p, get) && q == GetStep(p, get)
    requires get.key in q.clients ==> t == q.clients[get.key].lastUsed
    requires forall i :: 0 <= i < |ops| ==> Harmless(ops[i], t)
    ensures get.key in q.clients
    ensures t == if get.key in p.clients && Usable(Touched(p.clients[get.key], get.now)) then get.now else get.done
    ensures PoolInv(Run(q, ops)) && StillOpen(Run(q, ops), get.key, q.clients[get.key].conn, t)
    ensures q.clients[get.key].conn !in Run(q, ops).closed
  {
    GetKeepsInv(p, get);
    if ops != [] {
      var front, op := ops[..|ops| - 1], ops[|ops| - 1];
      HandedOutStaysOpen(p, get, front, q, t);
      hide GetStep, Touched, Usable;
      StepKeepsOpen(Run(q, front), op, get.key, q.clients[get.key].conn, t);
      StepKeepsInv(Run(q, front), op);
    }
  }

  /** A cleanup removes exactly the clients idle for more than five minutes, and closes exactly their connections. */
  lemma CleanupIsExact<K>(p: Pool<K>, now: Time, key: K)
    requires PoolInv(p) && key in p.clients
    ensures var q := Step(p, CleanupIdle(now));
            && (key in q.clients <==> now <= p.clients[key].lastUsed + 300_000_000_000)
            && (p.clients[key].conn in q.closed <==> now > p.clients[key].lastUsed + 300_000_000_000)
            && (key in q.clients ==> q.clients[key] == p.clients[key])
  {
    var q := Step(p, CleanupIdle(now));
    StepKeepsInv(p, CleanupIdle(now));
    assert p.connections[key] !in p.closed;
    if key in q.clients { assert q.connections[key] !in q.closed; }
  }
}

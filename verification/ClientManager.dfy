/**
  The manager of inter-service clients: an object over two maps of heap objects, proved method
  by method against the pool machine of `ClientPool`, with name:type strings as keys.
 */
module ClientManagers {
  import opened Common
  import opened CircuitBreakers
  import opened ServiceClients
  import opened ClientPool

  function KeyOf(name: string, kind: string): string {
    name + ":" + kind
  }

  /** The second name continues the first across a colon, and the first kind makes up for it. */
  ghost predicate ColonShift(n1: string, k1: string, n2: string, k2: string) {
    exists u: string :: n2 == n1 + ":" + u && k1 == u + ":" + k2
  }

  /** Two name:type pairs share a key exactly when they are equal or one is a colon shift of the other. */
  lemma KeyCollision(n1: string, k1: string, n2: string, k2: string)
    ensures KeyOf(n1, k1) == KeyOf(n2, k2) <==>
            (n1 == n2 && k1 == k2) || ColonShift(n1, k1, n2, k2) || ColonShift(n2, k2, n1, k1)
  {
    if KeyOf(n1, k1) == KeyOf(n2, k2) {
      if |n1| < |n2| {
        ShorterNameShifts(n1, k1, n2, k2);
      } else if |n2| < |n1| {
        ShorterNameShifts(n2, k2, n1, k1);
      } else {
        assert n1 == KeyOf(n1, k1)[..|n1|] && k1 == KeyOf(n1, k1)[|n1| + 1..];
        assert n2 == KeyOf(n2, k2)[..|n1|] && k2 == KeyOf(n2, k2)[|n1| + 1..];
      }
    }
    if ColonShift(n1, k1, n2, k2) { ShiftCollides(n1, k1, n2, k2); }
    if ColonShift(n2, k2, n1, k1) { ShiftCollides(n2, k2, n1, k1); }
  }

  lemma ShorterNameShifts(n1: string, k1: string, n2: string, k2: string)
    requires |n1| < |n2| && KeyOf(n1, k1) == KeyOf(n2, k2)
    ensures ColonShift(n1, k1, n2, k2)
  {
    var key, u := KeyOf(n2, k2), n2[|n1| + 1..];
    assert n2[..|n1|] == key[..|n1|] == KeyOf(n1, k1)[..|n1|] == n1;
    assert n2[|n1|] == key[|n1|] == ':';
    assert n2 == n1 + ":" + u;
    assert k1 == KeyOf(n1, k1)[|n1| + 1..] == key[|n1| + 1..] == u + ":" + k2;
  }

  lemma ShiftCollides(n1: string, k1: string, n2: string, k2: string)
    requires ColonShift(n1, k1, n2, k2)
    ensures KeyOf(n1, k1) == KeyOf(n2, k2)
  {
  }

  /** Among names without a colon the key determines the pair. */
  lemma KeyInjective(n1: string, k1: string, n2: string, k2: string)
    requires ':' !in n1 && ':' !in n2 && KeyOf(n1, k1) == KeyOf(n2, k2)
    ensures n1 == n2 && k1 == k2
  {
    KeyCollision(n1, k1, n2, k2);
  }

  /** With a colon in a name two services do share a key. */
  lemma KeyCollides()
    ensures KeyOf("risk", "monitor:grpc") == KeyOf("risk:monitor", "grpc") == "risk:monitor:grpc"
  {
  }

  function Info(c: ServiceClient): ClientInfo<string>
    reads c, c.circuitBreaker
  {
    ClientInfo(KeyOf(c.serviceName, c.serviceType), c.connection, c.lastUsed, c.isHealthy, c.circuitBreaker.View())
  }

  /** The key a client belongs under. */
  function OwnKey(client: ServiceClient): string {
    KeyOf(client.serviceName, client.serviceType)
  }

  method NoteUse(client: ServiceClient, now: Time) returns (usable: bool)
    modifies client`lastUsed, client.circuitBreaker
    ensures Info(client) == Touched(old(Info(client)), now)
    ensures usable == Usable(Info(client))
    ensures client.lastUsed == now
    ensures usable <==> old(client.isHealthy && (client.circuitBreaker.state != Open
                                                 || now - client.circuitBreaker.lastFailTime > client.circuitBreaker.timeout))
    ensures usable ==> client.circuitBreaker.state == if old(client.circuitBreaker.state) == Open then HalfOpen else old(client.circuitBreaker.state)
  {
    hide KeyOf;
    client.lastUsed := now;
    usable := false;
    if client.isHealthy {
      var state := client.circuitBreaker.GetState(now, now);
      usable := state != Open;
    }
  }

  method NewClient(name: string, kind: string, conn: nat, serving: bool, done: Time) returns (client: ServiceClient)
    ensures fresh(client) && fresh(client.circuitBreaker)
    ensures client.serviceName == name && client.serviceType == kind
    ensures Info(client) == ClientInfo(KeyOf(name, kind), conn, done, serving, NewBreaker(0)) && client.Valid()
  {
    hide KeyOf, NewBreaker;
    client := new ServiceClient(name, kind, conn, serving, done, 0);
  }

  method IsIdle(client: ServiceClient, now: Time) returns (idle: bool)
    ensures idle <==> Idle(Info(client), now)
  {
    idle := now - client.lastUsed > IDLE_TIMEOUT;
  }

  method Checked(client: ServiceClient, ghost key: string, reply: Option<bool>, now: Time)
    modifies client`isHealthy, client`connectionStatus, client.circuitBreaker
    ensures Info(client) == Reported(old(Info(client)), Op.CheckHealth(key, reply, now))
  {
    hide KeyOf, Apply;
    client.CheckHealth(reply, now);
  }

  method Requested(client: ServiceClient, ghost key: string, duration: int, success: bool, now: Time, later: Time)
    requires client.Valid() && now <= later
    modifies client`requestCount, client`successCount, client`errorCount, client`avgResponseTime
    modifies client`lastRequestTime, client`circuitState, client`durations, client.circuitBreaker
    ensures client.Valid() && client.durations == old(client.durations) + [duration]
    ensures Info(client) == Reported(old(Info(client)), Op.Request(key, success, now))
  {
    hide KeyOf, Apply;
    client.RecordRequest(duration, success, now, later);
  }

  /** No two clients share a breaker. */
  ghost predicate OwnBreakers(made: set<ServiceClient>) {
    forall c, d :: c in made && d in made && c.circuitBreaker == d.circuitBreaker ==> c == d
  }

  /** No two keys share a client object or a breaker. */
  ghost predicate Apart(clients: map<string, ServiceClient>) {
    forall j, k :: j in clients && k in clients && j != k ==>
      clients[j] != clients[k] && clients[j].circuitBreaker != clients[k].circuitBreaker
  }

  lemma ApartWithOneMore(clients: map<string, ServiceClient>, key: string, client: ServiceClient)
    requires Apart(clients)
    requires forall k :: k in clients ==> clients[k] != client && clients[k].circuitBreaker != client.circuitBreaker
    ensures Apart(clients[key := client])
  {
  }

  lemma ApartWithOneLess(clients: map<string, ServiceClient>, key: string)
    requires Apart(clients)
    ensures Apart(clients - {key})
  {
  }

  class InterServiceClientManager {
    var clients: map<string, ServiceClient>
    var connections: map<string, nat>
    var activeConnections: int
    var poolSize: int
    var connectionErrors: int
    var dialled: nat // numbers the connections as they are dialled
    ghost var closed: set<nat> // the connections that were told to close
    ghost var pool: Pool<string> // the manager as a value, with the fate of every connection

    ghost var made: set<ServiceClient> // every client ever built, pooled or not
    ghost var Repr: set<object>  // the client objects and their breakers

    /** The pool's clients are the values of the client objects. */
    ghost predicate EntriesAgree()
      reads `clients, `pool, `Repr, Repr
    {
      EntriesMatch(pool.clients)
    }

    ghost predicate EntriesMatch(infos: map<string, ClientInfo<string>>)
      reads `clients, `Repr, Repr
    {
      && infos.Keys == clients.Keys
      && forall k :: k in clients ==> EntryAgrees(clients[k], infos[k])
    }

    ghost predicate EntryAgrees(c: ServiceClient, info: ClientInfo<string>)
      reads `Repr, Repr
    {
      c in Repr && c.circuitBreaker in Repr && info == Info(c)
    }

    ghost predicate GaugesAgree()
      reads this
    {
      && this !in Repr
      && pool.connections == connections && pool.dialled == dialled && pool.closed == closed
      && pool.active == activeConnections && pool.size == poolSize && pool.errors == connectionErrors
    }

    /** Every client ever built has consistent counters and a breaker of its own, and the pooled ones are among them. */
    ghost predicate Separate()
      reads `clients, `made, `Repr, Repr
    {
      && this !in Repr && Apart(clients) && OwnBreakers(made)
      && (forall k :: k in clients ==> clients[k] in made)
      && (forall c :: c in made ==> c in Repr && c.circuitBreaker in Repr && c.Valid())
    }

    ghost predicate Valid()
      reads this, Repr
    {
      EntriesAgree() && GaugesAgree() && Separate() && PoolInv(pool)
    }

    /** The client is the one filed under its own key. */
    predicate Pooled(client: ServiceClient)
      reads `clients
    {
      OwnKey(client) in clients && clients[OwnKey(client)] == client
    }

    /** When only one client changes, its entry follows if it is filed, and everything else stays as it is. */
    twostate lemma OthersKept(new client: ServiceClient, new key: string)
      requires old(Separate()) && old(EntriesAgree()) && client.Valid() && pool == old(pool)
      requires clients == old(clients) && made == old(made) && Repr == old(Repr)
      requires forall c :: c in made && c != client ==> unchanged(c) && unchanged(c.circuitBreaker)
      requires forall k :: k in clients && clients[k] == client ==> k == key
      ensures Separate()
      ensures if key in clients && clients[key] == client then EntriesMatch(pool.clients[key := Info(client)]) else EntriesMatch(pool.clients)
    {
      hide Info;
      forall c | c in made && c != client ensures c.Valid() { assert old(c.Valid()); }
      forall k | k in clients && clients[k] != client ensures EntryAgrees(clients[k], pool.clients[k]) {
        assert old(EntryAgrees(clients[k], pool.clients[k]));
      }
      if key in clients && clients[key] == client { assert old(EntryAgrees(clients[key], pool.clients[key])); }
    }

    /** A pooled client is good for a lookup at `now`: healthy, with a breaker that is not open or has been so for longer than its timeout. */
    predicate Keeps(key: string, now: Time)
      reads `clients, set k | k in clients :: clients[k], set k | k in clients :: clients[k].circuitBreaker
    {
      && key in clients && clients[key].isHealthy
      && (clients[key].circuitBreaker.state == Open ==>
            now - clients[key].circuitBreaker.lastFailTime > clients[key].circuitBreaker.timeout)
    }

    /** What a lookup at `now` does to a client it keeps: its breaker, if it was open, is half-open now. */
    twostate predicate Kept(client: ServiceClient, now: Time)
      reads client, client.circuitBreaker
    {
      && client.lastUsed == now && client.isHealthy == old(client.isHealthy)
      && client.circuitBreaker.state == if old(client.circuitBreaker.state) == Open then HalfOpen else old(client.circuitBreaker.state)
    }

    /** No pooled client belongs to a service whose name has a colon. */
    ghost predicate ColonFree()
      reads `clients
    {
      forall k :: k in clients ==> ':' !in clients[k].serviceName
    }

    constructor ()
      ensures Valid() && ColonFree() && pool == Empty() && Repr == {} && made == {}
    {
      clients, connections := map[], map[];
      activeConnections, poolSize, connectionErrors, dialled := 0, 0, 0, 0;
      closed, pool, made, Repr := {}, Empty(), {}, {};
      new;
      RunKeepsInv<string>([]);
    }

    /** conn.Close() */
    method CloseConnection(connection: nat)
      modifies `closed
      ensures closed == old(closed) + {connection}
    {
      closed := closed + {connection};
    }

    /** The displaced connections are exactly those that were dialled and are neither filed nor closed. */
    lemma DisplacedAreTheRest(conn: nat)
      requires Valid() && conn < dialled
      ensures conn in pool.displaced <==> conn !in closed && forall k :: k in connections ==> connections[k] != conn
    {
      hide EntriesAgree, Separate;
      assert Filed(pool, conn) <==> exists k :: k in pool.connections && pool.connections[k] == conn;
    }

    /** The first half of GetClient: note the use of a pooled client and ask its breaker. */
    method TouchClient(clientKey: string, client: ServiceClient, now: Time) returns (usable: bool)
      requires Valid() && clientKey in clients && client == clients[clientKey]
      modifies this`pool, client`lastUsed, client.circuitBreaker
      ensures Valid() && Repr == old(Repr) && pool == Touch(old(pool), clientKey, now)
      ensures usable <==> Usable(pool.clients[clientKey])
      ensures usable <==> old(Keeps(clientKey, now))
      ensures usable ==> Kept(client, now)
    {
      hide KeyOf, Info, PoolInv, Touch, Touched, Usable, EntriesMatch, Separate;
      EntryWhenValid(clientKey);
      TouchKeepsInv(pool, clientKey, now);
      TouchFields(pool, clientKey, now, Touch(pool, clientKey, now));
      FiledByOwnKey(client);
      OthersApart(client);
      NamedByKey(clientKey);
      usable := NoteUse(client, now);
      OthersKept(client, clientKey);
      pool := Touch(pool, clientKey, now);
    }

    /** The objects of one client are not those of another. */
    lemma OthersApart(client: ServiceClient)
      requires Valid() && client in made
      ensures forall c :: c in made && c != client ==> c.circuitBreaker != client.circuitBreaker
      ensures client in Repr && client.circuitBreaker in Repr && client.Valid() && this !in Repr
    {
      hide EntriesAgree, GaugesAgree, PoolInv, Apart;
    }

    method GetClient(name: string, kind: string, dial: Dial, now: Time, done: Time) returns (r: Option<ServiceClient>)
      requires Valid() && now <= done
      modifies this, Repr
      ensures Valid() && fresh(Repr - old(Repr)) && pool == Step(old(pool), Get(KeyOf(name, kind), dial, now, done))
      ensures r.Some? <==> Served(old(pool), Get(KeyOf(name, kind), dial, now, done))
      ensures r.Some? ==> KeyOf(name, kind) in clients && r.value == clients[KeyOf(name, kind)]
      ensures r.Some? ==> KeyOf(r.value.serviceName, r.value.serviceType) == KeyOf(name, kind)
      ensures r.None? ==> clients == old(clients) && connections == old(connections)
      ensures old(made) <= made && (r.Some? ==> r.value in made && r.value.Valid())
      ensures old(Keeps(KeyOf(name, kind), now)) ==>
                dialled == old(dialled) && r == Some(old(clients)[KeyOf(name, kind)]) && Kept(old(clients)[KeyOf(name, kind)], now)
      ensures !old(Keeps(KeyOf(name, kind), now)) ==> (r.Some? <==> dial.Connected?) && (r.Some? ==> fresh(r.value))
      ensures old(ColonFree()) && ':' !in name ==>
                ColonFree() && (r.Some? ==> r.value.serviceName == name && r.value.serviceType == kind)
    {
      var clientKey := KeyOf(name, kind);
      hide *;
      KeysWhenValid();
      UnknownIsNotKept(clientKey, now);
      GetUnfolds(pool, Get(clientKey, dial, now, done), Touch(pool, clientKey, now));
      if clientKey in clients {
        var client := clients[clientKey];
        var usable := TouchClient(clientKey, client, now);
        if usable {
          NamedByKey(clientKey);
          OfThisService(clientKey, name, kind);
          MadeWhenValid(client);
          r := Some(client);
          return;
        }
      }
      r := CreateClient(name, kind, clientKey, dial, done);
    }

    lemma UnknownIsNotKept(key: string, now: Time)
      ensures Keeps(key, now) ==> key in clients
    {
    }

    /** A pooled client's own name and type make up the key it is filed under. */
    lemma NamedByKey(key: string)
      requires Valid() && key in clients
      ensures KeyOf(clients[key].serviceName, clients[key].serviceType) == key
    {
    }

    /** Among colon-free names a pooled client belongs to the very service that is asked for. */
    lemma OfThisService(key: string, name: string, kind: string)
      requires Valid() && key in clients && key == KeyOf(name, kind)
      ensures ColonFree() && ':' !in name ==> clients[key].serviceName == name && clients[key].serviceType == kind
    {
      hide KeyOf;
      NamedByKey(key);
      if ColonFree() && ':' !in name { KeyInjective(clients[key].serviceName, clients[key].serviceType, name, kind); }
    }

    /** createClient, and what GetClient does with its outcome. */
    method CreateClient(name: string, kind: string, clientKey: string, dial: Dial, done: Time)
      returns (r: Option<ServiceClient>)
      requires Valid() && clientKey == KeyOf(name, kind)
      modifies this
      ensures Valid() && fresh(Repr - old(Repr)) && pool == Create(old(pool), clientKey, dial, done)
      ensures r.Some? <==> dial.Connected?
      ensures r.Some? ==> clientKey in clients && r.value == clients[clientKey]
      ensures r.Some? ==> r.value.serviceName == name && r.value.serviceType == kind
      ensures r.None? ==> clients == old(clients) && connections == old(connections)
      ensures old(made) <= made && (r.Some? ==> r.value in made && r.value.Valid() && fresh(r.value))
      ensures old(ColonFree()) && ':' !in name ==> ColonFree()
    {
      hide SizeOf, KeyOf, Info, Apply, NewBreaker, PoolInv, Touched, Idle, Usable;
      match dial {
        case Connected(serving) =>
          var client := NewClient(name, kind, dialled, serving, done);
          FileClient(clientKey, client, serving, done);
          r := Some(client);
        case _ =>
          CountError(dial.CheckFailed?);
          r := None;
      }
    }

    /** A failed attempt; a connection that failed its check has been dialled, and closed again. */
    method CountError(checked: bool)
      requires Valid()
      modifies this`connectionErrors, this`dialled, this`closed, this`pool
      ensures Valid()
      ensures pool == if checked then DialledInVain(old(pool)) else old(pool).(errors := old(pool).errors + 1)
    {
      hide SizeOf, KeyOf, Info, Apply, NewBreaker, Touched, Idle, Usable, PoolInv, EntriesMatch, Separate;
      connectionErrors := connectionErrors + 1;
      if checked {
        CloseConnection(dialled);
        dialled := dialled + 1;
        DialledInVainKeepsInv(pool);
        pool := DialledInVain(pool);
      } else {
        SameEntriesKeepInv(pool, pool.(errors := pool.errors + 1));
        pool := pool.(errors := pool.errors + 1);
      }
    }

    /** Files a new client and its connection, and sets the gauges. */
    method FileClient(clientKey: string, client: ServiceClient, serving: bool, done: Time)
      requires Valid() && client !in Repr && client.circuitBreaker !in Repr && client.Valid()
      requires Info(client) == ClientInfo(clientKey, dialled, done, serving, NewBreaker(0))
      modifies this
      ensures Valid() && Repr == old(Repr) + {client, client.circuitBreaker} && made == old(made) + {client}
      ensures pool == File(old(pool), clientKey, serving, done) && clients == old(clients)[clientKey := client]
    {
      hide SizeOf, KeyOf, Info, NewBreaker, PoolInv, File, EntriesAgree, EntryAgrees, Separate, Apart;
      FileFields(pool, clientKey, serving, done, File(pool, clientKey, serving, done));
      FileKeepsInv(pool, clientKey, serving, done);
      connections := connections[clientKey := dialled];
      FileObject(clientKey, client, File(pool, clientKey, serving, done));
      CountFiled();
    }

    /** The gauges after a client was filed. */
    method CountFiled()
      modifies `dialled, `activeConnections, `poolSize
      ensures dialled == old(dialled) + 1 && activeConnections == old(activeConnections) + 1 && poolSize == SizeOf(clients)
    {
      dialled := dialled + 1;
      activeConnections := activeConnections + 1;
      poolSize := SizeOf(clients);
    }

    /** Takes a newly built client into account. */
    ghost method Remember(client: ServiceClient)
      requires EntriesAgree() && Separate() && client !in Repr && client.circuitBreaker !in Repr && client.Valid()
      modifies `made, `Repr
      ensures EntriesAgree() && Separate() && Repr == old(Repr) + {client, client.circuitBreaker}
      ensures made == old(made) + {client}
    {
      hide Info, Apart;
      made := made + {client};
      Repr := Repr + {client, client.circuitBreaker};
    }

    /** Puts the new client object into the map. */
    method FileObject(clientKey: string, client: ServiceClient, ghost target: Pool<string>)
      requires EntriesAgree() && Separate() && client !in Repr && client.circuitBreaker !in Repr && client.Valid()
      requires target.clients == pool.clients[clientKey := Info(client)]
      modifies `clients, `pool, `made, `Repr
      ensures EntriesAgree() && Separate() && Repr == old(Repr) + {client, client.circuitBreaker} && pool == target
      ensures made == old(made) + {client}
      ensures clients == old(clients)[clientKey := client] && SizeOf(clients) == SizeOf(target.clients)
    {
      hide Info, SizeOf, EntriesMatch;
      ApartWithOneMore(clients, clientKey, client);
      Remember(client);
      hide Separate, Apart;
      PutObject(clientKey, client, target);
    }

    method PutObject(clientKey: string, client: ServiceClient, ghost target: Pool<string>)
      requires EntriesAgree() && Separate() && client in made && Apart(clients[clientKey := client])
      requires target.clients == pool.clients[clientKey := Info(client)]
      modifies `clients, `pool
      ensures EntriesAgree() && Separate() && pool == target
      ensures clients == old(clients)[clientKey := client] && SizeOf(clients) == SizeOf(target.clients)
    {
      hide Info, SizeOf, Apart, OwnBreakers;
      clients := clients[clientKey := client];
      pool := target;
      SameKeysSameSize(clients, pool.clients);
    }

    /** checkClientHealth on any client ever built; the pool sees it if the client is still filed. */
    method CheckClientHealth(client: ServiceClient, reply: Option<bool>, now: Time)
      requires Valid() && client in made
      modifies `pool, client`isHealthy, client`connectionStatus, client.circuitBreaker
      ensures Valid()
      ensures pool == if Pooled(client) then Step(old(pool), Op.CheckHealth(OwnKey(client), reply, now)) else old(pool)
    {
      hide *;
      HearHealth(client, reply, now);
      Reflect(client, Op.CheckHealth(OwnKey(client), reply, now));
    }

    method HearHealth(client: ServiceClient, reply: Option<bool>, now: Time)
      requires Valid() && client in made
      modifies client`isHealthy, client`connectionStatus, client.circuitBreaker
      ensures Ahead(client, Op.CheckHealth(OwnKey(client), reply, now))
    {
      hide OwnKey, Info, Reported, PoolInv, EntriesMatch, Separate;
      BeforeReport(client);
      Checked(client, OwnKey(client), reply, now);
      OthersKept(client, OwnKey(client));
    }

    /** RecordRequest by a caller that holds a client, whatever has become of it since; the pool sees it if the client is still filed. */
    method RecordRequest(client: ServiceClient, duration: int, success: bool, now: Time, later: Time)
      requires Valid() && client in made && now <= later
      modifies `pool, client`requestCount, client`successCount, client`errorCount, client`avgResponseTime
      modifies client`lastRequestTime, client`circuitState, client`durations, client.circuitBreaker
      ensures Valid() && client.durations == old(client.durations) + [duration]
      ensures pool == if Pooled(client) then Step(old(pool), Op.Request(OwnKey(client), success, now)) else old(pool)
    {
      hide *;
      HearRequest(client, duration, success, now, later);
      Reflect(client, Op.Request(OwnKey(client), success, now));
    }

    method HearRequest(client: ServiceClient, duration: int, success: bool, now: Time, later: Time)
      requires Valid() && client in made && now <= later
      modifies client`requestCount, client`successCount, client`errorCount, client`avgResponseTime
      modifies client`lastRequestTime, client`circuitState, client`durations, client.circuitBreaker
      ensures Ahead(client, Op.Request(OwnKey(client), success, now)) && client.durations == old(client.durations) + [duration]
    {
      hide OwnKey, Info, Reported, PoolInv, EntriesMatch, Separate;
      BeforeReport(client);
      Requested(client, OwnKey(client), duration, success, now, later);
      OthersKept(client, OwnKey(client));
    }

    /** The client object is ahead of the pool by one report. */
    ghost predicate Ahead(client: ServiceClient, op: Op<string>)
      reads this, Repr
    {
      && GaugesAgree() && Separate() && PoolInv(pool) && pool.clients.Keys == clients.Keys
      && (op.CheckHealth? || op.Request?) && op.key == OwnKey(client)
      && if Pooled(client) then EntriesMatch(pool.clients[op.key := Reported(pool.clients[op.key], op)]) else EntriesAgree()
    }

    /** What a report about a client relies on. */
    lemma BeforeReport(client: ServiceClient)
      requires Valid() && client in made
      ensures pool.clients.Keys == clients.Keys && client.Valid() && this !in Repr
      ensures client in Repr && client.circuitBreaker in Repr
      ensures forall c :: c in made && c != client ==> c.circuitBreaker != client.circuitBreaker
      ensures forall k :: k in clients && clients[k] == client ==> k == OwnKey(client)
      ensures Pooled(client) ==> pool.clients[OwnKey(client)] == Info(client)
    {
      FiledByOwnKey(client);
      OthersApart(client);
      KeysWhenValid();
      if Pooled(client) { EntryWhenValid(OwnKey(client)); }
      hide KeyOf, Info, Separate, GaugesAgree, EntriesAgree, PoolInv;
    }

    /** The pool follows, if the client is filed. */
    ghost method Reflect(client: ServiceClient, op: Op<string>)
      requires Ahead(client, op)
      modifies `pool
      ensures Valid()
      ensures pool == if Pooled(client) then Step(old(pool), op) else old(pool)
    {
      hide Reported, Report, Step, PoolInv, EntriesMatch, Separate, OwnKey;
      if Pooled(client) {
        ReportKeepsInv(pool, op);
        ReportFields(pool, op, Report(pool, op));
        pool := Report(pool, op);
      }
    }

    /** A client is filed under its own key or not at all. */
    lemma FiledByOwnKey(client: ServiceClient)
      requires Valid()
      ensures forall k :: k in clients && clients[k] == client ==> k == OwnKey(client)
    {
      hide KeyOf, Separate, GaugesAgree;
      forall k | k in clients && clients[k] == client ensures k == OwnKey(client) { NamedByKey(k); }
    }

    lemma MadeWhenValid(client: ServiceClient)
      requires Valid() && exists k :: k in clients && clients[k] == client
      ensures client in made && client.Valid()
    {
      hide EntriesAgree, GaugesAgree, PoolInv, Apart, OwnBreakers;
    }

    method CleanupIdleConnections(now: Time)
      requires Valid()
      modifies this
      ensures Valid() && Repr == old(Repr) && made == old(made) && pool == Step(old(pool), CleanupIdle(now))
      ensures Fewer(old(clients)) && (old(ColonFree()) ==> ColonFree())
    {
      hide SizeOf, KeyOf, Info, MapsAgree, Conserved, CountersAgree, Idle, IdleKeys, Removed, Separate, GaugesAgree;
      hide EntriesAgree, Cleaning;
      ghost var p := pool;
      var pending := clients.Keys;
      ghost var gone: set<string> := {};
      SameKeys();
      CleaningStarts(p, now);
      while pending != {}
        invariant pending <= clients.Keys
        invariant Fewer(old(clients))
        invariant Cleaning(p, gone, pending, now) && EntriesAgree() && GaugesAgree() && Separate() && Repr == old(Repr) && made == old(made)
        decreases pending
      {
        var key :| key in pending;
        gone := CleanupOne(p, gone, pending, key, now);
        pending := pending - {key};
      }
      CleaningEnds(p, gone, now);
      RemovedKeepsInv(p, gone);
    }

    /** Nothing but entries of `before` is left. */
    ghost predicate Fewer(before: map<string, ServiceClient>)
      reads `clients
    {
      forall k :: k in clients ==> k in before && clients[k] == before[k]
    }

    /** The entries of `p` that are idle and no longer pending have been removed, and no others. */
    ghost predicate Cleaning(p: Pool<string>, gone: set<string>, pending: set<string>, now: Time)
      reads `pool
    {
      gone <= p.clients.Keys && gone == IdleKeys(p, now) - pending && pool == Removed(p, gone) && pool.clients == p.clients - gone
    }

    lemma CleaningStarts(p: Pool<string>, now: Time)
      requires p == pool
      ensures Cleaning(p, {}, p.clients.Keys, now)
    {
    }

    lemma CleaningEnds(p: Pool<string>, gone: set<string>, now: Time)
      requires Cleaning(p, gone, {}, now)
      ensures gone == IdleKeys(p, now) && gone <= p.clients.Keys && pool == Removed(p, gone)
    {
    }

    method CleanupOne(ghost p: Pool<string>, ghost gone: set<string>, ghost pending: set<string>, key: string, now: Time)
      returns (ghost gone': set<string>)
      requires EntriesAgree() && GaugesAgree() && Separate() && MapsAgree(p) && Cleaning(p, gone, pending, now)
      requires pending <= clients.Keys && key in pending
      modifies this
      ensures EntriesAgree() && GaugesAgree() && Separate() && Cleaning(p, gone', pending - {key}, now)
      ensures pending - {key} <= clients.Keys && Repr == old(Repr) && made == old(made) && Fewer(old(clients))
    {
      hide SizeOf, Info, Idle, IdleKeys, Removed, Separate, GaugesAgree, EntriesAgree, MapsAgree;
      gone' := gone;
      SameKeys();
      EntryOf(key);
      IdleKeysExact(p, now, key);
      var idle := IsIdle(clients[key], now);
      if idle {
        RemoveEntry(p, gone, key);
        gone' := gone + {key};
        MinusOneMore(p.clients, gone, key);
      }
    }

    lemma EntryWhenValid(key: string)
      requires Valid() && key in clients
      ensures key in pool.clients && pool.clients[key] == Info(clients[key]) && clients[key] in made
    {
      hide GaugesAgree, PoolInv, Apart, OwnBreakers, Info;
    }

    lemma KeysWhenValid()
      requires Valid()
      ensures clients.Keys == pool.clients.Keys
      ensures forall k :: k in clients ==> clients[k] in Repr && clients[k].circuitBreaker in Repr
    {
      hide GaugesAgree, Separate, PoolInv;
    }

    lemma SameKeys()
      requires EntriesAgree()
      ensures clients.Keys == pool.clients.Keys
    {
    }

    lemma EntryOf(key: string)
      requires EntriesAgree() && key in clients
      ensures key in pool.clients && pool.clients[key] == Info(clients[key])
      ensures pool.clients[key].conn == clients[key].connection
    {
    }

    /** One turn of the cleanup loop: the connection is closed, the entry deleted and the gauges set. */
    method RemoveEntry(ghost p: Pool<string>, ghost gone: set<string>, key: string)
      requires EntriesAgree() && GaugesAgree() && Separate() && key in clients
      requires MapsAgree(p) && gone <= p.clients.Keys && key in p.clients && key !in gone && pool == Removed(p, gone)
      modifies this
      ensures EntriesAgree() && GaugesAgree() && Separate() && pool == Removed(p, gone + {key})
      ensures clients == old(clients) - {key} && pool.clients == old(pool).clients - {key}
      ensures Repr == old(Repr) && made == old(made)
    {
      hide SizeOf, KeyOf, Info, MapsAgree, Removed, EntriesAgree, Separate;
      RemoveOneMore(p, gone, key, pool, Removed(p, gone + {key}));
      CloseOneMore(p, gone, key, pool, Removed(p, gone + {key}));
      EntryOf(key);
      CloseConnection(clients[key].connection);
      DeleteObject(key, Removed(p, gone + {key}));
      connections := connections - {key};
      activeConnections := activeConnections - 1;
      poolSize := SizeOf(clients);
    }

    /** Takes a client object out of the map. */
    method DeleteObject(key: string, ghost target: Pool<string>)
      requires EntriesAgree() && Separate() && target.clients == pool.clients - {key}
      modifies `clients, `pool
      ensures EntriesAgree() && Separate() && pool == target
      ensures clients == old(clients) - {key} && SizeOf(clients) == SizeOf(target.clients)
    {
      hide Info, SizeOf, Apart;
      ApartWithOneLess(clients, key);
      clients := clients - {key};
      pool := target;
      SameKeysSameSize(clients, pool.clients);
    }

    /** Closes every filed connection, in whatever order. */
    method CloseAll()
      modifies `closed
      ensures closed == old(closed) + ConnectionsOf(connections, connections.Keys)
    {
      var pending := connections.Keys;
      while pending != {}
        invariant pending <= connections.Keys
        invariant closed == old(closed) + ConnectionsOf(connections, connections.Keys - pending)
        decreases pending
      {
        var key :| key in pending;
        CloseConnection(connections[key]);
        pending := pending - {key};
      }
    }

    /** Replaces both maps by empty ones. */
    method Forget(ghost target: Pool<string>)
      requires Separate() && target.clients == map[]
      modifies `clients, `connections, `pool
      ensures EntriesAgree() && Separate() && pool == target && clients == map[] && connections == map[]
    {
      hide OwnBreakers;
      clients := map[];
      connections := map[];
      pool := target;
    }

    /** Close: every pooled connection is closed, both maps are replaced, the metrics are not touched. */
    method Close()
      requires Valid()
      modifies this
      ensures Valid() && ColonFree() && Repr == old(Repr) && made == old(made) && pool == Step(old(pool), Op<string>.Close)
    {
      hide PoolInv, EntriesMatch, Separate;
      EmptiedKeepsInv(pool);
      CloseAll();
      Forget(Emptied(pool));
    }
  }
}

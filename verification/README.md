# Verified model of the market data simulator

The service streams simulated prices; around that it talks to other services through pooled
connections with circuit breakers, keeps itself registered in Redis by a heartbeat, caches
configuration, and exposes request metrics. This project models those five parts of the service in
Dafny and proves what each of them keeps, over every input, every run and every interleaving.
`dafny verify dfyconfig.toml` checks all of it.

## How the model is built

Code that one caller runs at a time is imperative, in the source's own form: classes with the
source's fields, methods with its branches and loops. Each method is proved against a specification
function over plain values (`Apply`, `Step`, `Answer`, `Listed`, `ScenarioPrice`, `GetOrCreate`, ...),
and the lemmas speak about those functions over whole runs. Code in which threads meet (the
breaker's lock upgrade, registration against its heartbeat, fetch against store and post, lazy metric
registration) is modelled as a state machine whose steps are single lock operations, channel
rendezvous, remote commands or locked sections. Time is a ghost clock that never runs backwards,
passed to each step; the answers of the network, the random draws and the contents of Redis are
parameters.

| file | models |
|---|---|
| Common.dfy, Reals.dfy | instants, 64-bit wrap-around, truncating division, products and powers of reals |
| CircuitBreaker.dfy | the breaker as a timed machine (`Apply`) and as an object |
| BreakerThreads.dfy | GetState's read lock, release, write lock, re-check and re-read, with any number of threads |
| ServiceClient.dfy | a client's counters and its running mean in int64 |
| ClientPool.dfy | the pool machine: lookups, health checks, requests, idle cleanup, Close, and the fate of every connection |
| ClientManager.dfy | the manager object over heap objects, refining the pool machine |
| Registration.dfy | Register, Deregister, UpdateHealth and the heartbeat goroutine around one mutex and two channels |
| Discovery.dfy | discovery with its staleness rule, and the cleanup of entries without expiry |
| ConfigCache.dfy, ConfigClient.dfy | the cache against a plain timed map, and the client in front of it |
| ConfigStaleness.dfy | the same client with any number of callers and other writers at the service |
| PriceStream.dfy, Scenario.dfy, Simulation.dfy | the price stream, the scenario stream and the simulation series |
| MetricsAdapter.dfy | double-checked registration with any number of threads |
| PrometheusAdapter.dfy, Middleware.dfy | the adapter as an object, and the RED middleware that drives it |

## What the proofs found

- The comment at internal/infrastructure/inter_service_client.go:212 speaks of consecutive failures.
  The code counts all failures since the last half-open to closed step; the model follows the code
  (`BreakerHistory`, `FailuresNeedNotBeConsecutive`).
- Deregister can block for ever, and every other call with it, holding the mutex: it waits for the
  heartbeat to take the stop, and the heartbeat waits for the mutex. `CallCanReturn` gives the exact
  set of states from which no call returns. It is larger than the blocked state itself: it already
  contains the states in which Deregister has just taken the mutex in front of a waiting heartbeat.
- GetState is not one atomic operation: a success between its two halves yields an answer that no
  order of the two calls explains (`AnswerOfNoOrder`, `RipeIsReachable`), while a failure there does
  not (`OneRecordInTheGap`). `GetStateIsExplainedExactly` says for every gap when an order exists.
  Each answer still is the state at an instant of the call (`EveryAnswerIsJustified`).
- Register publishes the heartbeat instant set at construction (or left by an earlier write), so a
  late Register is visible and not handed out. `RegisterIsHandedOutExactly` and
  `FirstRegisterIsHandedOutExactly` say exactly when.
- A fetch that overlaps a successful SetConfiguration can put the old value back into the cache;
  `SetConfigurationIsSeen` says exactly when, and `OldValueComesBack` gives a run.
- A client that is re-created displaces its old connection without closing it, and nothing ever
  closes it later. `LeaksExactly` says which runs leak, `LeakedForever` that a leak is for good,
  `LeakingRun` gives one.
- Close leaves `activeConnections` and `poolSize` as they were. `ActiveIsRightExactly` and
  `PoolSizeIsRightExactly` say after which runs each of them is right.
- The key name:type is ambiguous once a name contains a colon (`KeyCollision`, `KeyCollides`).
- A configuration's time to live beyond 9223372036 seconds overflows (`TtlIsSecondsExactly`).
- Beyond 153722867 minutes a scenario's duration overflows and its length is wrong (`UpdateCount`).
- With a trend factor beyond 5 in absolute value, simulated closes leave their low-high range
  (`CloseWithinRangeExactly`).
- A metric name used for two kinds, or with two sets of label names, keeps some call from getting
  through in every run (`CompletesExactlyWhenConsistent`).

## Model

| member | source | states |
|---|---|---|
| CircuitBreakers.BreakerHistory | internal/infrastructure/inter_service_client.go:431-473 | over every event sequence from a fresh breaker: `failureCount` is the number of failures since creation or the last half-open to closed step, and the state is closed if and only if that number is below the threshold |
| CircuitBreakers.FailuresNeedNotBeConsecutive | internal/infrastructure/inter_service_client.go:212-214 | on a breaker as createClient builds it, four failures, a success and one more failure: closed before the last, open after it |
| CircuitBreakers.OpensForThirtySeconds | internal/infrastructure/inter_service_client.go:210-214 | a breaker as createClient builds it is closed after four failures, open after five, and a poll moves it to half-open if and only if it comes more than 30 s after the last |
| CircuitBreakers.ConfigurationIsFixed | internal/infrastructure/inter_service_client.go:431-473 | no run changes the threshold or the timeout |
| CircuitBreakers.LastReset | internal/infrastructure/inter_service_client.go:438-441 | the index from which failures count: it is 0 or the end of a half-open to closed step, and no such step comes after it |
| CircuitBreakers.LastFailIsLatest | internal/infrastructure/inter_service_client.go:448-449 | `lastFailTime` is at or after every failure recorded, and never in the future |
| CircuitBreakers.OnceFailed | internal/infrastructure/inter_service_client.go:444-456 | a breaker that is not closed has seen a failure, none later than its last event |
| CircuitBreakers.HalfOpenOrigin | internal/infrastructure/inter_service_client.go:462-467 | a half-open breaker was opened to trial by a poll strictly more than `timeout` after every earlier failure, and has seen no failure since |
| CircuitBreakers.NoEarlyRecovery | internal/infrastructure/inter_service_client.go:431-473 | between an open and a later closed state of any run lie such a poll and then a success, with a failure-free interval strictly longer than `timeout` before the poll and no failure between the two |
| CircuitBreakers.OpenUntilDeadline | internal/infrastructure/inter_service_client.go:444-473 | an open breaker stays open under any events up to and including `lastFailTime + timeout` |
| CircuitBreakers.FailurePushesDeadline | internal/infrastructure/inter_service_client.go:448-455 | a failure recorded while open keeps the breaker open until its own instant plus `timeout` |
| CircuitBreakers.SuccessesOnlyCountWhenHalfOpen | internal/infrastructure/inter_service_client.go:435-441 | any number of successes while closed or open change neither the state nor the failure count |
| CircuitBreakers.SuccessesAreCounted | internal/infrastructure/inter_service_client.go:435-436 | in every run each success is counted, whatever the state, and `lastSuccTime` is the instant of the latest one |
| CircuitBreakers.ExplainedExactly | internal/infrastructure/inter_service_client.go:462-472 | for any events in the gap between a GetState's poll and the reading of its answer: some order of them and one atomic GetState, at an instant within the call, explains the answer and the breaker if and only if the answer is HalfOpen or the events without that poll lead to the very same breaker |
| CircuitBreakers.ExplainedUnlessSuccessFirst | internal/infrastructure/inter_service_client.go:462-472 | it is explained whenever the poll does not move the breaker, the gap is empty or its first event is not a success |
| CircuitBreakers.OneRecordExplainedExactly | internal/infrastructure/inter_service_client.go:462-472 | with one record in the gap: if and only if it is not the case that the poll moves the breaker and the record is a success |
| CircuitBreakers.OpenSinceLastFailure | internal/infrastructure/inter_service_client.go:444-456 | an open breaker has been open since its latest failure, or from the start |
| CircuitBreakers.HalfOpenUntilRecord | internal/infrastructure/inter_service_client.go:431-473 | within `timeout` of reaching half-open, the breaker is half-open if and only if nothing was recorded since |
| CircuitBreakers.CircuitBreaker.constructor | internal/infrastructure/inter_service_client.go:210-214 | a new breaker is closed with threshold 5 and timeout 30 s |
| CircuitBreakers.CircuitBreaker.RecordSuccess | internal/infrastructure/inter_service_client.go:431-442 | the object refines one success event of the machine |
| CircuitBreakers.CircuitBreaker.RecordFailure | internal/infrastructure/inter_service_client.go:444-456 | the object refines one failure event of the machine |
| CircuitBreakers.CircuitBreaker.GetState | internal/infrastructure/inter_service_client.go:458-473 | with nobody else at the breaker, the double look refines one poll, and the answer is the resulting state |
| CircuitBreakers.CircuitBreaker.GetStateString | internal/infrastructure/inter_service_client.go:475-486 | the state after one poll as "closed", "open" or "half-open" |
| BreakerThreads.RunKeepsInv | internal/infrastructure/inter_service_client.go:458-473 | in every interleaving: mutual exclusion of writer and readers, the breaker equals the machine run on its log, and each thread past a look can justify the answer it is about to give |
| BreakerThreads.ThreadsRefineBreaker | internal/infrastructure/inter_service_client.go:431-473 | in every interleaving of any number of threads the shared breaker is the atomic machine run on a clock-ordered log of its write sections |
| BreakerThreads.WrittenOnlyUnderWriteLock | internal/infrastructure/inter_service_client.go:431-473 | in every interleaving a step that changes the breaker is made by the very thread that holds the write lock, with no reader inside, is one event of the machine, and moves the state along closed-open, open-half-open, half-open-closed or half-open-open only |
| BreakerThreads.EveryAnswerIsJustified | internal/infrastructure/inter_service_client.go:458-473 | every answer of GetState is the state at an instant between call and return at which an atomic GetState answers the same and changes nothing |
| BreakerThreads.OpenIsAnsweredUntilDeadline | internal/infrastructure/inter_service_client.go:458-473 | in every interleaving a GetState that begins with the breaker open and returns by lastFailTime + timeout answers Open |
| BreakerThreads.AnswerOfNoOrder | internal/infrastructure/inter_service_client.go:462-472 | from every state with nobody at the locks and the timeout of an open breaker over: a success recorded between the two halves of a GetState makes it answer Closed, while an atomic GetState answers HalfOpen both before and after that success |
| BreakerThreads.RipeIsReachable | internal/infrastructure/inter_service_client.go:210-214 | such a state is reached with a breaker as createClient builds it, by five failures and a success 31 s later |
| BreakerThreads.HalfOpenExactlyWithoutRecords | internal/infrastructure/inter_service_client.go:462-472 | in every interleaving, within `timeout` of a re-check that moved the breaker, a GetState reads HalfOpen if and only if nothing but polls came into its gap |
| BreakerThreads.GetStateIsExplainedExactly | internal/infrastructure/inter_service_client.go:458-473 | in every interleaving, whatever came into the gap of a GetState whose re-check moved the breaker and whenever the answer is read: some order of it and one atomic GetState explains what is read if and only if it is HalfOpen or the events without that re-check lead to the very same breaker; so it does whenever no success came first |
| BreakerThreads.OneRecordInTheGap | internal/infrastructure/inter_service_client.go:462-472 | in every interleaving in which one record came into that gap, whenever the answer is read: some order explains what GetState reads if and only if the record is a failure |
| BreakerThreads.SomeCallMoves | internal/infrastructure/inter_service_client.go:431-473 | in every interleaving, while a call is unfinished some thread is granted its next lock step, even with readers held back behind a waiting writer |
| BreakerThreads.EveryCallReturns | internal/infrastructure/inter_service_client.go:431-473 | in every run, once no more calls begin, at most seven lock steps a thread are left, and where no thread is granted one every call has returned |
| BreakerThreads.FailureInTheGapIsSeen | internal/infrastructure/inter_service_client.go:462-467 | a failure recorded while the caller holds no lock, no more than `timeout` before the re-check, makes the re-check leave the breaker as it is |
| BreakerThreads.NoEarlyRecoveryWithThreads | internal/infrastructure/inter_service_client.go:431-473 | the timed recovery rule holds of every interleaving |
| ServiceClients.DriftBound | internal/infrastructure/inter_service_client.go:418-425 | for any durations, negative ones too, twice the drift between the true sum and n times the stored average is at most n(n-1) in absolute value |
| ServiceClients.DriftOfNonnegative | internal/infrastructure/inter_service_client.go:418-425 | for nonnegative durations 0 <= S - n A <= n(n-1)/2 |
| ServiceClients.DriftBoundIsTight | internal/infrastructure/inter_service_client.go:418-425 | the bound is attained for every n, by a sequence given explicitly |
| ServiceClients.Lossy | internal/infrastructure/inter_service_client.go:418-425 | that sequence has n nonnegative durations |
| ServiceClients.MeanWithinRange | internal/infrastructure/inter_service_client.go:418-425 | the stored average lies between any bounds on the durations |
| ServiceClients.NoOverflow | internal/infrastructure/inter_service_client.go:420-422 | for nonnegative durations whose true sum fits in int64 no intermediate result overflows, so the wrapping computation is the exact one |
| ServiceClients.ServiceClient.AverageIsClose | internal/infrastructure/inter_service_client.go:403-428 | the drift bound for the fields of a client object at any time |
| ServiceClients.ServiceClient.constructor | internal/infrastructure/inter_service_client.go:217-229 | a new client has no history and a fresh breaker of its own |
| ServiceClients.ServiceClient.RecordRequest | internal/infrastructure/inter_service_client.go:403-428 | keeps requestCount = successCount + errorCount, the average equal to the running mean of the recorded history in 64-bit arithmetic, and reports to and then polls the breaker |
| ServiceClients.ServiceClient.CheckHealth | internal/infrastructure/inter_service_client.go:264-279 | a failed check marks the client and records a failure, a serving reply records a success, any other reply leaves the breaker alone |
| Common.Wrap64 | internal/infrastructure/inter_service_client.go:420-422 | 64-bit wrap-around: congruent, in range, and the identity on representable values |
| Common.TruncDiv | internal/infrastructure/inter_service_client.go:420-422 | Go division, truncating toward zero on both signs |
| ClientPool.StepKeepsInv | internal/infrastructure/inter_service_client.go:104-143 | every operation keeps the pool invariant: same keys in both maps, the pooled connection is the filed one, each client under its own key, every dialled connection in exactly one place, and the active gauge equal to pool size plus displaced plus dropped entries |
| ClientPool.RunKeepsInv | internal/infrastructure/inter_service_client.go:104-374 | the invariant holds at every operation boundary of every run |
| ClientPool.ActiveCountsOpenConnections | internal/infrastructure/inter_service_client.go:131-134 | over every run `activeConnections` is the number of dialled and not yet closed connections plus the entries dropped by Close |
| ClientPool.PoolSizeWithoutClose | internal/infrastructure/inter_service_client.go:307-310 | in every run without Close, `poolSize` is the number of pooled clients |
| ClientPool.CloseLeavesMetricsBehind | internal/infrastructure/inter_service_client.go:359-374 | after a first Close both gauges are right if and only if the pool was already empty |
| ClientPool.ActiveIsRightExactly | internal/infrastructure/inter_service_client.go:359-374 | after any run `activeConnections` is the number of dialled and not yet closed connections if and only if no Close of the run found a pooled client |
| ClientPool.PoolSizeIsRightExactly | internal/infrastructure/inter_service_client.go:359-374 | after any run `poolSize` is the number of pooled clients if and only if it is not the case that a Close found pooled clients and no client was filed or removed by a cleanup since |
| ClientPool.StepSizes | internal/infrastructure/inter_service_client.go:307-310 | which operations set `poolSize`, and that all others but Close leave it and the number of clients alone |
| ClientPool.InjectiveCount | internal/infrastructure/inter_service_client.go:232-233 | distinct keys file distinct connections, so pooled connections can be counted by keys |
| ClientPool.OpenConnections | internal/infrastructure/inter_service_client.go:232-233 | the connections dialled and not closed are exactly the pooled and the displaced ones |
| ClientPool.StepDisplaces | internal/infrastructure/inter_service_client.go:111-142 | an operation displaces exactly the connection of a pooled client that is asked for while unusable and re-created with success, and nothing otherwise |
| ClientPool.LeaksExactly | internal/infrastructure/inter_service_client.go:232-233 | a run leaks a connection if and only if some operation of it does so |
| ClientPool.LeakedForever | internal/infrastructure/inter_service_client.go:282-374 | from any state a displaced connection stays displaced and unclosed under every continuation, cleanups and Close included |
| ClientPool.LeakingRun | internal/infrastructure/inter_service_client.go:111-142 | create, failed health check, create again: the first connection has leaked |
| ClientPool.GetHandsOut | internal/infrastructure/inter_service_client.go:111-142 | a served caller gets the client filed under its key, just used, its breaker not open |
| ClientPool.PooledClientIsKept | internal/infrastructure/inter_service_client.go:111-118 | a healthy pooled client whose breaker is not open, or has been open for more than its timeout since the last failure, is kept with its connection whatever dialling would have led to, an open breaker turning half-open; nothing is dialled, displaced or counted |
| ClientPool.PooledClientIsReplaced | internal/infrastructure/inter_service_client.go:111-142 | an unhealthy one, or one whose breaker is open up to and including its deadline, is served if and only if a new dial succeeds, which then replaces it and displaces its connection; otherwise only its last use and the error count move |
| ClientPool.UnknownClientIsDialled | internal/infrastructure/inter_service_client.go:121-142 | a client that is not pooled is served if and only if the dial succeeds, and filed with the new connection, the health found and a closed breaker |
| ClientPool.GetRefused | internal/infrastructure/inter_service_client.go:121-128 | a refused caller leaves keys, connections and all other clients as they were, one error more, and closes a connection only if its check failed |
| ClientPool.HandedOutStaysOpen | internal/infrastructure/inter_service_client.go:282-313 | a connection handed out, last used when it was asked for or, if it had to be created, when its creation was done, is not closed by any sequence of later lookups, of health checks and requests whenever they come, and of cleanups up to five minutes after that last use |
| ClientPool.CleanupIsExact | internal/infrastructure/inter_service_client.go:286-312 | a cleanup removes a client, and closes its connection, if and only if it has been idle for more than 300 s |
| ClientPool.RemoveOneMore | internal/infrastructure/inter_service_client.go:300-310 | deleting one by one in the loop is deleting all at once |
| ClientPool.CloseOneMore | internal/infrastructure/inter_service_client.go:300-302 | and each deletion closes one connection more, the one of its client |
| ClientManagers.KeyCollision | internal/infrastructure/inter_service_client.go:108 | two name:type pairs share a key if and only if they are equal or one name continues the other across a colon |
| ClientManagers.KeyInjective | internal/infrastructure/inter_service_client.go:108 | among colon-free names the key determines name and type |
| ClientManagers.KeyCollides | internal/infrastructure/inter_service_client.go:108 | a concrete pair of services that share a key, spelled out |
| ClientManagers.NoteUse | internal/infrastructure/inter_service_client.go:111-118 | noting a use sets the instant; the client is usable if and only if it is healthy and its breaker is not open or has been so for longer than its timeout, in which case it is half-open afterwards |
| ClientManagers.NewClient | internal/infrastructure/inter_service_client.go:209-229 | a new client object has the value the pool machine files |
| ClientManagers.IsIdle | internal/infrastructure/inter_service_client.go:287-292 | idle means unused for more than five minutes |
| ClientManagers.Checked | internal/infrastructure/inter_service_client.go:251-280 | a health check changes the client as the pool machine says |
| ClientManagers.Requested | internal/infrastructure/inter_service_client.go:403-428 | a recorded request changes the client as the pool machine says and keeps its counters consistent |
| ClientManagers.InterServiceClientManager.constructor | internal/infrastructure/inter_service_client.go:90-102 | an empty manager represents the empty pool, and no pooled name has a colon |
| ClientManagers.InterServiceClientManager.GetClient | internal/infrastructure/inter_service_client.go:104-143 | the objects and maps refine one Get of the pool machine; a pooled healthy client whose breaker is not open or past its timeout is handed out again without a dial, its open breaker now half-open, and any other caller is served if and only if a dial succeeds, with a new client; the counters of the client are consistent and it stays known to the manager for good; among colon-free names, which every call keeps, it is one of the very service and type asked for; a refused call leaves both maps unchanged |
| ClientManagers.InterServiceClientManager.OfThisService | internal/infrastructure/inter_service_client.go:108-119 | while no pooled name has a colon, the client filed under the key of a colon-free name and a type has that name and that type |
| ClientManagers.InterServiceClientManager.CloseConnection | internal/infrastructure/inter_service_client.go:203 | one more connection has been told to close |
| ClientManagers.InterServiceClientManager.DisplacedAreTheRest | internal/infrastructure/inter_service_client.go:232-233 | the displaced connections are exactly those dialled, not filed and never told to close |
| ClientManagers.InterServiceClientManager.TouchClient | internal/infrastructure/inter_service_client.go:111-119 | touching one client changes one entry and no other; it is usable if and only if it is healthy and its breaker is not open or past its timeout, and an open breaker is then half-open |
| ClientManagers.InterServiceClientManager.CreateClient | internal/infrastructure/inter_service_client.go:121-142 | creation succeeds if and only if the dial and its check do, and files the new client |
| ClientManagers.InterServiceClientManager.CountError | internal/infrastructure/inter_service_client.go:165-205 | every failure is counted once; a connection that fails its check is dialled and told to close |
| ClientManagers.InterServiceClientManager.FileClient | internal/infrastructure/inter_service_client.go:130-134 | filing a client replaces what was under its key and sets both gauges |
| ClientManagers.InterServiceClientManager.CheckClientHealth | internal/infrastructure/inter_service_client.go:251-280 | a health check of any client ever built keeps the manager consistent; the pool machine sees it if and only if the client is still the one filed under its key |
| ClientManagers.InterServiceClientManager.RecordRequest | internal/infrastructure/inter_service_client.go:403-428 | a request recorded by whoever holds a client, pooled or not, keeps the manager consistent and its every method usable; the pool machine sees it if and only if the client is still the one filed under its key |
| ClientManagers.InterServiceClientManager.FiledByOwnKey | internal/infrastructure/inter_service_client.go:108-130 | a client is filed under its own key or not at all |
| ClientManagers.InterServiceClientManager.OthersKept | internal/infrastructure/inter_service_client.go:111-119 | what changes one client object changes its own entry, if it is filed, and no other client |
| ClientManagers.InterServiceClientManager.CleanupIdleConnections | internal/infrastructure/inter_service_client.go:282-313 | the loop that deletes while it iterates refines one cleanup of the pool machine in whatever order the map is visited, closing exactly the connections of the entries it deletes and keeping the others as they are |
| ClientManagers.InterServiceClientManager.CleanupOne | internal/infrastructure/inter_service_client.go:289-312 | one turn removes its entry if and only if it is idle |
| ClientManagers.InterServiceClientManager.RemoveEntry | internal/infrastructure/inter_service_client.go:300-310 | the connection is told to close, both maps lose the entry and the gauges follow |
| ClientManagers.InterServiceClientManager.CloseAll | internal/infrastructure/inter_service_client.go:363-367 | every filed connection is told to close, in whatever order |
| ClientManagers.InterServiceClientManager.Close | internal/infrastructure/inter_service_client.go:359-374 | every filed connection is closed, both maps are emptied and the gauges are left alone |
| Registration.RunKeepsInv | internal/infrastructure/service_discovery.go:128-222 | in every interleaving: the mutex has one holder, there is at most one heartbeat goroutine, it is live exactly while registered except during the handover inside Register and Deregister, and the key is the last one written |
| Registration.OneHeartbeat | internal/infrastructure/service_discovery.go:182-183 | never two heartbeats; while the mutex is free one is live if and only if isRegistered; and sendHeartbeat never meets isRegistered false |
| Registration.QuietAfterDeregister | internal/infrastructure/service_discovery.go:188-222 | after that, and until a Register reaches its write, this instance writes its key no more, an absent key stays absent, and a key left behind still carries its last write instant |
| Registration.DeregisterLeavesQuiet | internal/infrastructure/service_discovery.go:196-217 | when Deregister clears the flag no heartbeat is left, and no key either if the deletion took effect |
| Registration.ProgressExceptDeadlock | internal/infrastructure/service_discovery.go:188-198 | in every reachable state with an unfinished call a protocol step is enabled if and only if it is not the case that Deregister sends on heartbeatStop while the heartbeat waits for the mutex |
| Registration.CallCanReturn | internal/infrastructure/service_discovery.go:188-198 | in every reachable state an unfinished call of any kind has a completing continuation if and only if Deregister has not taken the mutex in front of a waiting heartbeat |
| Registration.CompletingPath | internal/infrastructure/service_discovery.go:128-222 | a completing continuation, built by a schedule under which a rank falls at every step |
| Registration.DoomedForever | internal/infrastructure/service_discovery.go:446-448 | once Deregister is in front of a waiting heartbeat, no step of anybody ends that |
| Registration.NoEscape | internal/infrastructure/service_discovery.go:446-448 | and no unfinished call ever returns from there on |
| Registration.DeadlockIsReachable | internal/infrastructure/service_discovery.go:197-198 | one thread that registers and deregisters at the first tick can block for ever |
| Registration.RegisterCompletes | internal/infrastructure/service_discovery.go:128-186 | a Register that meets no error reaches the registered state with one heartbeat and the key written |
| Registration.RegisterSucceedsExactly | internal/infrastructure/service_discovery.go:136-183 | past its check, Register ends registered with a heartbeat started if and only if PING and SETEX report success, whatever SADD reports, and has written the key if and only if PING succeeded and the write was not lost |
| Registration.DeregisterClears | internal/infrastructure/service_discovery.go:200-214 | once the heartbeat has ended, Deregister clears the flag whatever DEL and SREM report, and the key is gone unless DEL was lost |
| Registration.UpdatePublishes | internal/infrastructure/service_discovery.go:306-318 | UpdateHealth(h) publishes health h and its own instant, unless the write is lost |
| Registration.UpdateWritesItsHealth | internal/infrastructure/service_discovery.go:298-326 | in every interleaving whatever a call of UpdateHealth(h) writes carries h, and a heartbeat instant between the call and the write |
| Registration.BeatPublishes | internal/infrastructure/service_discovery.go:454-466 | a beat publishes the health as it stands and its own instant, and the next tick is due 15 s after the last |
| Registration.FirstTick | internal/infrastructure/service_discovery.go:418-426 | the first tick is due 15 s after the heartbeat starts, and not before |
| Registration.RegisterPublishesMemory | internal/infrastructure/service_discovery.go:145-153 | unless the write is lost, Register publishes the registration in memory, and the key is visible if and only if less than 30 s have passed |
| Registration.MemoryUntouched | internal/infrastructure/service_discovery.go:88-99 | until the service is first registered, the registration in memory is the one of construction |
| Registration.FirstRegisterIsStaleExactly | internal/infrastructure/service_discovery.go:145-153 | the key of a first Register is stale at an instant of its life if and only if construction is more than a minute ago |
| Registration.RegisterMayPublishStale | internal/infrastructure/service_discovery.go:145-153 | for every instant there is a run that registers then; its key is visible, and stale if and only if that is more than a minute after construction |
| Registration.KeyOutlastsAlways | internal/infrastructure/service_discovery.go:417-469 | in every timely run the key was written recently enough to outlast the next beat |
| Registration.KeyNeverExpires | internal/infrastructure/service_discovery.go:417-469 | in every timely run the 30 s key never expires while a heartbeat is live, in particular whenever the mutex is free and the service registered |
| Registration.BeatsAreRecentAlways | internal/infrastructure/service_discovery.go:454-463 | in every timely run a key written by a heartbeat carries a heartbeat instant at most five seconds older than the write |
| Discovery.CountsPartition | internal/infrastructure/service_discovery.go:239-264 | the two health counters add up to the number of services listed |
| Discovery.HealthyIsFresh | internal/infrastructure/service_discovery.go:289-293 | marking and then filtering hands out exactly the services that are healthy, active and not stale, unmarked and in order |
| Discovery.FreshHolds | internal/infrastructure/service_discovery.go:256-262 | membership in that result, in both directions, by what was read |
| Discovery.OneReading | internal/infrastructure/service_discovery.go:242-265 | each readable entry is listed as stored and counted healthy up to a minute after its heartbeat, and past it listed as unhealthy and stale and counted unhealthy; unreadable ones do neither |
| Discovery.RecentKeyIsHandedOut | internal/infrastructure/service_discovery.go:255-262 | a live key published within 30 s of its heartbeat instant is never marked stale, and is handed out if healthy |
| Discovery.ReadIsHandedOutExactly | internal/infrastructure/service_discovery.go:255-293 | a key is handed out, with the stored data, if and only if it is less than 30 s old, healthy and its heartbeat instant at most a minute old |
| Discovery.RegisterIsHandedOutExactly | internal/infrastructure/service_discovery.go:145-153 | for every run, every outcome that writes and every later instant: what Register publishes is passed over if and only if 30 s have passed since the write, or the registration in memory before the write was not healthy or its heartbeat instant is more than a minute before the lookup |
| Discovery.FirstRegisterIsHandedOutExactly | internal/infrastructure/service_discovery.go:145-153 | for a first Register: if and only if 30 s have passed since the write, or construction is more than a minute before the lookup |
| Discovery.UpdateIsHandedOutExactly | internal/infrastructure/service_discovery.go:298-326 | in every interleaving, what a call of UpdateHealth(h) writes is passed over while it lives if and only if h is not "healthy" or was stamped more than a minute before; with a write within 30 s of the call, if and only if h is not "healthy" |
| Discovery.BeatIsHandedOut | internal/infrastructure/service_discovery.go:282-296 | in every timely run a key published healthy by a heartbeat is handed out by every lookup that reads it |
| Discovery.LateRegisterIsNotHandedOut | internal/infrastructure/service_discovery.go:145-153 | for every instant a Register that completes then is registered and visible, and passed over if and only if that is more than a minute after construction |
| Discovery.ServiceDiscovery.DiscoverService | internal/infrastructure/service_discovery.go:224-280 | the loop lists the readable services in order, with stale ones marked, and sets both gauges; on a failed KEYS only the error count moves |
| Discovery.ServiceDiscovery.GetHealthyInstances | internal/infrastructure/service_discovery.go:282-296 | the result is the fresh services, and the counters move as in the lookup it makes |
| Discovery.ServiceDiscovery.CleanupStaleServices | internal/infrastructure/service_discovery.go:375-415 | exactly the readable entries without expiry and idle for over two minutes go, so no entry with an expiry is ever removed |
| ConfigCaches.RemovalIsInvisible | internal/infrastructure/configuration_client.go:345-349 | lookups and sweeps, wherever they occur in a history, change no later answer |
| ConfigCaches.AnswerIsLatestPut | internal/infrastructure/configuration_client.go:336-366 | a lookup answers v if and only if the latest unremoved put of its key put v and has not expired |
| ConfigCaches.LatestWasPut | internal/infrastructure/configuration_client.go:358-367 | only keys that were put can answer |
| ConfigCaches.SweptKeys | internal/infrastructure/configuration_client.go:394-399 | keeping exactly the unexpired items keeps exactly the keys that answer |
| ConfigCaches.ConfigCache.constructor | internal/infrastructure/configuration_client.go:76-80 | an empty cache with an empty history |
| ConfigCaches.ConfigCache.Get | internal/infrastructure/configuration_client.go:336-352 | returns what the plain timed map answers, whatever was removed lazily before |
| ConfigCaches.ConfigCache.Set | internal/infrastructure/configuration_client.go:354-356 | a put with the default time to live |
| ConfigCaches.ConfigCache.SetWithTTL | internal/infrastructure/configuration_client.go:358-367 | a put with the given time to live |
| ConfigCaches.ConfigCache.Delete | internal/infrastructure/configuration_client.go:369-373 | a drop of that key |
| ConfigCaches.ConfigCache.ClearAll | internal/infrastructure/configuration_client.go:375-379 | a drop of every key |
| ConfigCaches.ConfigCache.Size | internal/infrastructure/configuration_client.go:381-385 | the number of stored items |
| ConfigCaches.ConfigCache.Cleanup | internal/infrastructure/configuration_client.go:387-404 | afterwards the stored keys are exactly the ones that still answer, whatever the order of deletion, and the number removed is the difference in size |
| ConfigClients.ConfigurationClient.constructor | internal/infrastructure/configuration_client.go:75-107 | an empty client over an empty cache |
| ConfigClients.TtlIsSecondsExactly | internal/infrastructure/configuration_client.go:155-160 | a positive time to live is that many seconds if and only if it is at most 9223372036, where the product stops fitting in a Duration; any other reply is kept for 300 s |
| ConfigClients.StoredUntilExpiry | internal/infrastructure/configuration_client.go:155-160 | a stored reply is the answer up to the end of its time to live (300 s without one), and none after it |
| ConfigClients.ConfigurationClient.GetConfiguration | internal/infrastructure/configuration_client.go:109-170 | answers from the cache if and only if the timed map answers, else with the reply, which then is the answer for exactly its time to live in seconds, or 300 without one; hits, misses and errors add up to the requests |
| ConfigClients.ConfigurationClient.SetConfiguration | internal/infrastructure/configuration_client.go:172-210 | drops the cached value if and only if the service accepted, and then no later instant finds it |
| ConfigStaleness.PathKeepsInv | internal/infrastructure/configuration_client.go:109-210 | in every interleaving each cached item, fetched value and answer is one the service really had, with the instants in order |
| ConfigStaleness.BoundedStaleness | internal/infrastructure/configuration_client.go:109-170 | every answer was the service's value at an instant no earlier than the answer minus time to live minus the latency from fetch to store; a fetched answer, at an instant within the call |
| ConfigStaleness.SourcesInTimeAlways | internal/infrastructure/configuration_client.go:141-160 | nothing is answered, cached or stored before it was read |
| ConfigStaleness.SetConfigurationIsSeen | internal/infrastructure/configuration_client.go:187-202 | after a successful SetConfiguration has dropped the key, a later lookup can hit a value from before the post if and only if a fetch from before the post is still on its way into the cache |
| ConfigStaleness.FreshForAlways | internal/infrastructure/configuration_client.go:187-202 | with no such fetch, no hit on that key is ever older than the post |
| ConfigStaleness.StaleFetchIsHit | internal/infrastructure/configuration_client.go:141-160 | with such a fetch, a continuation that hits the old value |
| ConfigStaleness.NoStaleHit | internal/infrastructure/configuration_client.go:187-202 | with no such fetch, no continuation at all hits an old value |
| ConfigStaleness.OldValueComesBack | internal/infrastructure/configuration_client.go:187-202 | from every initial state with two threads, a run in which a successful SetConfiguration is followed by a hit on the old value |
| PriceStream.StreamPrices | internal/handlers/grpc_marketdata.go:98-126 | each delivered update moves the last price delivered for its symbol by its own draw, the updates go round the requested symbols in order and chain; none is delivered from the failing send on; the stream ends by cancellation if and only if one update per tick and symbol was delivered, and otherwise at the failing send |
| PriceStream.SendRound | internal/handlers/grpc_marketdata.go:117-123 | one tick delivers one update per symbol in turn, up to the failed send |
| PriceStream.StreamSession.GeneratePriceUpdate | internal/handlers/grpc_marketdata.go:212-241 | one update moves the remembered price as its draw says, by at most half a percent, keeps it positive, and remembers it |
| PriceStream.NextPriceSteps | internal/handlers/grpc_marketdata.go:213-217 | a random step stays within half a percent and positive |
| PriceStream.NextPriceIsAffine | internal/handlers/grpc_marketdata.go:216-217 | the price is 0.995 of the last one plus a hundredth of it times the draw |
| PriceStream.LargerDrawLargerPrice | internal/handlers/grpc_marketdata.go:216-217 | a larger draw gives a larger price, and exactly the draw 1/2 leaves it as it is |
| PriceStream.NothingSentYet | internal/handlers/grpc_marketdata.go:99-106 | a symbol starts at its quote, or at 100 without one |
| PriceStream.ChangesTelescope | internal/handlers/grpc_marketdata.go:222-225 | for every symbol, repeated in the request or not, the change amounts add up to its last delivered price minus its opening price |
| PriceStream.PriceStaysInCone | internal/handlers/grpc_marketdata.go:212-225 | after k updates a symbol's price is positive and within [p0 0.995^k, p0 1.005^k] |
| Scenario.StreamScenario | internal/handlers/grpc_marketdata.go:156-192 | terminates; completes if and only if one update per second begun was delivered, the i-th computed for start + i seconds; otherwise the next turn was cancelled or its send failed |
| Scenario.UpdateCount | internal/handlers/grpc_marketdata.go:165-166 | the count is 60 m for m minutes if and only if m <= 153722867, where the duration stops fitting in int64 |
| Scenario.GenerateScenarioPrice | internal/handlers/grpc_marketdata.go:312-355 | the branches compute the scenario's price law at that instant |
| Scenario.ChangeIsConsistent | internal/handlers/grpc_marketdata.go:347-353 | amount and percentage of a change block both lead from its reference to its price, and low and high are two percent off on either side |
| Scenario.PriceAt | internal/handlers/grpc_marketdata.go:338-343 | the price of an update does not depend on the draw |
| Scenario.PriceLaw | internal/handlers/grpc_marketdata.go:312-355 | the price of every scenario type as a formula in base price, intensity and the share of the scenario that has passed; types without a branch stay at the base |
| Scenario.StreamLaw | internal/handlers/grpc_marketdata.go:163-187 | in every delivered stream update i is stamped start + i s, at the share i / 60m of m minutes, with base 100 and intensity 1 by default |
| Scenario.CrashPrice | internal/handlers/grpc_marketdata.go:326-328 | so the i-th price of a crash stream in terms of the request and i alone |
| Scenario.PriceMultiplier | internal/handlers/grpc_marketdata.go:322-336 | the switch computes the multiplier of the scenario type |
| Scenario.CrashFalls | internal/handlers/grpc_marketdata.go:326-328 | a crash never rises between two instants, and stays above half the base for I <= 2 |
| Scenario.CrashStream | internal/handlers/grpc_marketdata.go:326-328 | along every crash stream with I in [1, 2] prices never rise and stay in (base/2, base] |
| Scenario.RallyRises | internal/handlers/grpc_marketdata.go:323-325 | a rally never falls between two instants |
| Scenario.RallyStream | internal/handlers/grpc_marketdata.go:323-325 | along every rally stream with I >= 1 prices never fall and stay in [base, I base] |
| Scenario.DivergenceStaysClose | internal/handlers/grpc_marketdata.go:329-331 | within 0.1 (I - 1) base of the base |
| Scenario.MeanRevertingStaysClose | internal/handlers/grpc_marketdata.go:332-335 | within 0.2 (I - 1) base of the base |
| Scenario.OscillatingStream | internal/handlers/grpc_marketdata.go:329-335 | the two bounds along every stream |
| Simulation.GenerateHistoricalData | internal/handlers/grpc_marketdata.go:243-266 | points exactly hourly from the start to the last hour begun before the end, each walking as its own draw says from the one before, the first from 100 |
| Simulation.NextPoint | internal/handlers/grpc_marketdata.go:249-260 | one step of the walk moves the close as its draw says, from 0.99 of the last one at 0 through the last one at 1/2, and keeps it positive |
| Simulation.LargerDrawHigherClose | internal/handlers/grpc_marketdata.go:250-259 | of two steps from the same close the one with the larger draw is the higher, and exactly the draw 1/2 stays |
| Simulation.HistoryStaysInCone | internal/handlers/grpc_marketdata.go:249-251 | the i-th close is positive and within [100 0.99^(i+1), 100 1.01^(i+1)] |
| Simulation.GenerateSimulatedData | internal/handlers/grpc_marketdata.go:268-310 | point i of the simulated series is derived from point i of the history, the trend applied to every close but the first |
| Simulation.SimulatedPrice | internal/handlers/grpc_marketdata.go:278-291 | the factor of the simulation type applied to a close |
| Simulation.SimulatedSpelledOut | internal/handlers/grpc_marketdata.go:276-306 | each simulated point as a formula in its historical point, the parameters and its draws |
| Simulation.NoiseAndTrendPoint | internal/handlers/grpc_marketdata.go:280-306 | a larger draw gives a larger price if and only if the volatility is positive, and the trend raises a positive close if and only if it is positive |
| Simulation.SimilarityBounds | internal/handlers/grpc_marketdata.go:280-306 | for |volatility| < 200 and |trend| <= 5: positive, low <= close <= high, and deviation from the history at most (1 + 0.005|v|)(1 + 0.001|t|) - 1 |
| Simulation.VolumeNearHistory | internal/handlers/grpc_marketdata.go:299 | the simulated volume is within a fifth of the historical one |
| Simulation.CloseWithinRangeExactly | internal/handlers/grpc_marketdata.go:302-306 | for every type, parameters and draws: a close lies between low and high if and only if the simulated price is zero, or positive with no trend beyond 5 in absolute value applied to it |
| Simulation.SimilarCloseWithinRange | internal/handlers/grpc_marketdata.go:280-306 | for statistical similarity with |volatility| < 200, if and only if |trend| <= 5 |
| Simulation.GenerateSimulation | internal/handlers/grpc_marketdata.go:128-154 | the history walks hourly from the start to the last hour begun, the simulated series has the same length and timestamps and each point derived from its own, and the similarity bounds hold at every point |
| MetricsAdapter.RunKeepsInv | internal/infrastructure/observability/prometheus_adapter.go:77-193 | in every interleaving with consistent names: the locks exclude, vectors and registered names correspond one to one, threads hold the vector of their call, and what the registry exposes is what was finished |
| MetricsAdapter.RegisteredAtMostOnce | internal/infrastructure/observability/prometheus_adapter.go:87-112 | in every interleaving with consistent names no name is registered twice and nobody panics |
| MetricsAdapter.NeverRegisteredTwice | internal/infrastructure/observability/prometheus_adapter.go:87-112 | no name is registered twice in any interleaving, with inconsistent names either |
| MetricsAdapter.SoundAlways | internal/infrastructure/observability/prometheus_adapter.go:52-113 | in every interleaving, whatever the names: names are registered once, vectors have their own ids, a thread past the lookup holds the vector of its call, and what the registry exposes is what was finished |
| MetricsAdapter.TableGrows | internal/infrastructure/observability/prometheus_adapter.go:109-110 | a vector in the maps is never replaced or removed, whatever the names |
| MetricsAdapter.SameVectorForAll | internal/infrastructure/observability/prometheus_adapter.go:77-113 | two callers of the same kind and name get the same vector, at whatever times they ask and whatever the names |
| MetricsAdapter.ExposedIsTotal | internal/infrastructure/observability/prometheus_adapter.go:52-61 | conservation at every state of every interleaving, even after panics: what the registry exposes for a kind, name and label set is the number of such calls finished so far by all threads |
| MetricsAdapter.ExposedWhenDone | internal/infrastructure/observability/prometheus_adapter.go:52-61 | once every thread is through, it is the number of such calls made, independent of the interleaving |
| MetricsAdapter.NoDeadlock | internal/infrastructure/observability/prometheus_adapter.go:79-93 | with consistent names: while a call is left, some thread is granted its next step, even with readers held back behind a waiting writer |
| MetricsAdapter.EveryRunCompletes | internal/infrastructure/observability/prometheus_adapter.go:77-113 | with consistent names: no run is longer than six steps a call, and a run that cannot go on has made every call |
| MetricsAdapter.CompletionNeedsConsistency | internal/infrastructure/observability/prometheus_adapter.go:91-112 | conversely, a run that gets every call through shows that names were used consistently: one kind and one label set per name, no constant label, no name taken beforehand |
| MetricsAdapter.CompletesExactlyWhenConsistent | internal/infrastructure/observability/prometheus_adapter.go:52-113 | some run gets every call through if and only if names are used consistently |
| MetricsAdapter.CarryOn | internal/infrastructure/observability/prometheus_adapter.go:52-113 | with consistent names: any run can be carried on until every call is through |
| PrometheusAdapters.ExtractLabelNames | internal/infrastructure/observability/prometheus_adapter.go:197-209 | every key of the label map but the constant ones, each once |
| PrometheusAdapters.MergeWrites | internal/infrastructure/observability/prometheus_adapter.go:22-24 | writing one of the three maps is writing one slot of one table |
| PrometheusAdapters.CallShows | internal/infrastructure/observability/prometheus_adapter.go:52-61 | a call shows exactly once, under its own kind, name and label set, if the adapter accepts it, and not at all otherwise |
| PrometheusAdapters.AcceptsKept | internal/infrastructure/observability/prometheus_adapter.go:52-113 | accepted calls with consistent names do not spoil each other |
| PrometheusAdapters.PrometheusMetricsAdapter.constructor | internal/infrastructure/observability/prometheus_adapter.go:35-49 | an empty adapter |
| PrometheusAdapters.PrometheusMetricsAdapter.Register | internal/infrastructure/observability/prometheus_adapter.go:97-109 | registers the name with the extracted label names, unless it is taken |
| PrometheusAdapters.PrometheusMetricsAdapter.GetOrCreateCounter | internal/infrastructure/observability/prometheus_adapter.go:77-113 | the counter map and the registry refine the locked section of the step model; a taken name changes nothing |
| PrometheusAdapters.PrometheusMetricsAdapter.GetOrCreateHistogram | internal/infrastructure/observability/prometheus_adapter.go:116-154 | the same for histograms |
| PrometheusAdapters.PrometheusMetricsAdapter.GetOrCreateGauge | internal/infrastructure/observability/prometheus_adapter.go:157-193 | the same for gauges |
| PrometheusAdapters.PrometheusMetricsAdapter.Apply | internal/infrastructure/observability/prometheus_adapter.go:52-61 | the vector counts one update for the label set, or panics on other label names |
| PrometheusAdapters.PrometheusMetricsAdapter.IncCounter | internal/infrastructure/observability/prometheus_adapter.go:52-55 | goes through if and only if the adapter accepts the call, and then the registry shows it once and nothing else changes |
| PrometheusAdapters.PrometheusMetricsAdapter.ObserveHistogram | internal/infrastructure/observability/prometheus_adapter.go:58-61 | the same for a histogram's count |
| Middleware.Digits | internal/infrastructure/observability/middleware.go:36 | a numeral is a nonempty string of digits |
| Middleware.ItoaRoundTrip | internal/infrastructure/observability/middleware.go:36 | reading the code label back gives the status, for every integer |
| Middleware.ItoaIsDecimal | internal/infrastructure/observability/middleware.go:36 | the numeral is decimal, most significant digit first, with a sign if negative |
| Middleware.LabelsIdentify | internal/infrastructure/observability/middleware.go:33-42 | two requests share a label set if and only if verb and status agree and their paths are the same or each is empty or "unknown" |
| Middleware.LabelsSpelledOut | internal/infrastructure/observability/middleware.go:33-42 | method is the verb, code the status, and route the path itself, or "unknown" for an empty one |
| Middleware.BuildLabels | internal/infrastructure/observability/middleware.go:33-42 | the label map built step by step carries the verb, the path or "unknown" for an empty one, and the status |
| Middleware.OneRequest | internal/infrastructure/observability/middleware.go:44-53 | one request calls each metric once under its own labels, the error counter only from 400 on, and nothing when its handler panics |
| Middleware.RedIsConsistent | internal/infrastructure/observability/middleware.go:44-53 | the middleware uses each name for one kind and one label set |
| Middleware.RequestsAreConserved | internal/infrastructure/observability/middleware.go:21-54 | once all requests are through, in whatever interleaving: http_requests_total and the count of http_request_duration_seconds for a verb, path and status both equal the number of such requests whose handlers did not panic, and http_request_errors_total equals it from 400 on and is zero below |
| Middleware.RequestsGetThrough | internal/infrastructure/observability/middleware.go:21-54 | no interleaving of requests blocks or panics in the adapter, and none runs for ever |
| Middleware.RedMetrics | internal/infrastructure/observability/middleware.go:22-53 | the handler's calls all go through, and the registry shows exactly the request's calls more |
| Middleware.RecordRateAndDuration | internal/infrastructure/observability/middleware.go:44-48 | the first two calls |
| Middleware.RecordError | internal/infrastructure/observability/middleware.go:50-53 | the third call |
| Middleware.FreshIsOwn | internal/infrastructure/observability/middleware.go:44-53 | on a fresh adapter the middleware's names are its own |
| Middleware.OwnForAll | internal/infrastructure/observability/middleware.go:33-53 | and for every request, if for one |

## Left out

- Concurrency of the manager, the cache object and the discovery object: each of their methods is one atomic step, since each runs under one mutex; the unlocked read of `isHealthy` and the map deletion under a read lock in the cache's Get are treated as atomic as well.
- Registration.RunKeepsInv: Register, Deregister, UpdateHealth and the heartbeat are steps on a value and not methods of an object, because the properties are about their interleaving; a Redis command takes effect, if at all, before the step that reports its outcome ends.
- Registration.KeyNeverExpires: speaks of timely runs only, in which every beat's write takes effect within five seconds of its tick and a new heartbeat goroutine starts within ten seconds of Register's write; without such a bound the key can expire.
- Registration.RunKeepsInv: the service list that Register and Deregister keep with SADD and SREM is left out, since nothing reads it; their errors are only logged, and the steps are there without an effect.
- MetricsAdapter.RunKeepsInv: the three maps are one table keyed by kind and name, and threads are steps on a value; the maps as fields are in PrometheusAdapters. For a gauge the model counts the calls of SetGauge and not the value set. The exposition handler is left out.
- Middleware.RequestsGetThrough: assumes that the names registered by the Go and process collectors differ from the middleware's three; the duration observed is left out, only the histogram's count is modelled. HealthMetricsMiddleware is left out.
- PrometheusAdapters.PrometheusMetricsAdapter.GetOrCreateCounter: a constant label map other than service, instance and version is left out, and so are the validity rules for metric and label names.
- BreakerThreads.SomeCallMoves: CircuitBreaker.GetMetrics takes the read lock twice and can wait for itself behind a writer; it is not part of this model. The safety results allow every order of lock grants; the progress results hold under the runtime's rule as well.
- CircuitBreakers.CircuitBreaker.GetState: the counters of the breaker are unbounded integers, and so are the request counters and the pool's gauges; only the running mean, durations and times to live wrap at 64 bits.
- ServiceClients.ServiceClient.RecordRequest: reads of the clock within one call that the source makes one after the other share one instant here, but for the re-check of GetState.
- ServiceClients.ServiceClient.CheckHealth: the branch for a client without a connection is left out, because no client is ever built without one; the same branch in the idle cleanup.
- ClientManagers.InterServiceClientManager.GetClient: dialling, discovery and endpoint selection are one outcome (`Dial`); errors of closing a connection are left out.
- ClientManagers.InterServiceClientManager.CheckClientHealth: the goroutines PerformHealthChecks starts are single calls here, in any order, on any client ever built.
- Discovery.ServiceDiscovery.DiscoverService: the JSON of an entry is a parsed record; version, registration time, metadata and tags, which no branch looks at, are left out, and so are the Filter functions.
- Discovery.ServiceDiscovery.CleanupStaleServices: reads the store once, at one instant; entries changed by others during the loop are left out.
- ConfigClients.ConfigurationClient.GetConfiguration: HTTP and JSON are one reply or failure; the health check and the metrics report are left out.
- ConfigStaleness.BoundedStaleness: a GET of a key the service does not hold fails here; the service's own expiry is left out.
- PriceStream.StreamPrices: the interval between ticks, the table of active streams and the choice of the runtime between cancellation and a tick that are both ready are left out; the number of ticks before cancellation is a parameter.
- Scenario.GenerateScenarioPrice: a base price of zero is excluded, since the source divides by it; the price service always answers 100.
- Scenario.RallyStream: square root, sine and exponential are parameters with their elementary properties, and all prices are reals: floating-point rounding is left out.
- Simulation.GenerateSimulatedData: the growth factor of the MONTE_CARLO branch is an arbitrary positive number; the distribution of draws is left out everywhere.
- calculateSimilarityMetrics, the HTTP and gRPC wiring, generated code, configuration from the environment and the gRPC server's own metrics are left out: single branches and random numbers in fixed ranges.

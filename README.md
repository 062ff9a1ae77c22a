# Read routing across PostgreSQL replicas, with a health monitor

This project models the decision logic of a Rails application that spreads
read queries over a primary database and two replicas.

- **Health monitor** (`bin/health_check.rb`). Every cycle it probes each
  configured node and classifies it with `check_node`. It then writes one
  status record per node to Redis under `db_status:<name>`.
- **Read router** (`DatabaseLoadBalancer#reading_role`). For each read it
  needs the list of healthy replicas. The list comes from a 2-second
  in-process cache. When the cache is stale, the list is all replicas if a
  store failure happened in the last 10 seconds (the circuit breaker).
  Otherwise the router reads every replica's record from Redis. It then
  picks a replica round-robin, or `writing` (the primary) when the list is
  empty.
- **Fallback script** (`bin/test_lb_fallback.rb`). A simpler router with no
  cache, breaker or round robin, run against a mock store. It carries two
  checked outcomes.

Modules:

- `StatusRecords` (`status_records.dfy`). The key format and what a reader
  can make of a stored record (`Malformed`, or `Parsed` with a truthy or
  falsy `"healthy"`). A store snapshot that may become unreachable after a
  given number of `get` calls. `Scan`, the specification of one pass over
  the replica list, and `HealthyReplicas`, the reference filter it is proved
  against.
- `LoadBalancer` (`load_balancer.dfy`). `Decide` specifies one
  `reading_role` call on an abstract `RouterState`. The class
  `DatabaseLoadBalancer` holds the four instance variables and updates them
  in place, in the source's order. `ReadingRole` is proved to agree with
  `Decide`. The lemmas cover the cache, the breaker, fallback, round-robin
  fairness and cache coherence.
- `HealthCheck` (`health_check.dfy`). `CheckNode` classifies a node from its
  probe results. `PublishCycle` is one pass of the monitor loop, writing into
  a `StatusStore` object.
- `LbFallbackTest` (`lb_fallback_test.dfy`). `MockRedis`,
  `TestLoadBalancer`, and the script's two test cases as methods whose
  postconditions are the script's checks.
- `Pipeline` (`pipeline.dfy`). The monitor's records as the router reads
  them back.

Other modelling choices:

- Time is an integer number of milliseconds, passed to the router by its
  caller.
- Replication lag is an integer number of hundredths of a second, because
  the lag query rounds it to two decimals. `MAX_LAG_SECONDS = 1.0` becomes
  100.
- Roles (Ruby symbols) are strings.

## Model

| member | source | states |
|---|---|---|
| `LoadBalancer.Decide` | app/services/database_load_balancer.rb:20-70 | A call is a cache hit iff a check time is recorded and `now - lastCheckedAt < 2000` (strict). On a hit the cached list and check time are kept. With a stale cache the breaker path is taken iff a failure time is recorded and `now - failure < 10000`. Every non-hit sets the check time to `now`. The breaker and failed-fetch paths cache the full replica list. A successful fetch caches `HealthyReplicas`. Only a failed fetch records `now` as the failure time. The role is the selection over the new cached list. |
| `LoadBalancer.Select` | app/services/database_load_balancer.rb:74-83 | On a non-empty list the cursor becomes `(index + 1) % size`. The result is in range and the role at it is a member of the list. On an empty list the result is `writing` and the cursor is unchanged. |
| `LoadBalancer.StoreNotReadWhenCachedOrOpen` | app/services/database_load_balancer.rb:22-44 | On a cache hit or with the breaker open the decision is the same whatever the store holds, so the store is not read. |
| `LoadBalancer.FetchErrorFallsBack` | app/services/database_load_balancer.rb:46-57 | With the cache stale and the breaker closed, the fetch fails iff some replica's `get` raises or its record is malformed. On failure the breaker opens at `now` and all replicas are cached, discarding partial results. Otherwise the source is a fetch, the healthy replicas are cached and the breaker timestamp is unchanged. |
| `LoadBalancer.DecideReturnsReplicaOrWriting` | app/services/database_load_balancer.rb:74-86 | The cached list stays within the configured replicas (line 7). The returned role is a configured replica, or `writing` exactly when the list is empty. |
| `LoadBalancer.AllUnhealthyRoutesToPrimary` | app/services/database_load_balancer.rb:46-83 | With the store up and every replica's record false or missing, a stale-cache call caches `[]` and returns `writing`. |
| `LoadBalancer.PicksRotate` | app/services/database_load_balancer.rb:76-80 | `k <= N` consecutive selections over a fixed list of size N return the list read cyclically from the position after the cursor. |
| `LoadBalancer.RoundRobinFair` | app/services/database_load_balancer.rb:76-80 | N consecutive selections over N roles return each of them exactly once (equal multisets). |
| `LoadBalancer.CachedRunIsRoundRobin` | app/services/database_load_balancer.rb:22-31 | Calls that all fall inside the cache lifetime return exactly the round-robin picks over the cached list. |
| `LoadBalancer.CacheCoherent` | app/services/database_load_balancer.rb:62-66 | After a call that refreshed the cache at `now`, a call before `now + 2000` is a cache hit on the same list, whatever the store holds. |
| `LoadBalancer.BreakerWindow` | app/services/database_load_balancer.rb:37-57 | After a failed fetch at `now`, a stale-cache call before `now + 10000` skips the store. A call from then on consults it again. |
| `LoadBalancer.DatabaseLoadBalancer.constructor` | app/services/database_load_balancer.rb:6-18 | Replicas `[replica_1, replica_2]`. No check time, empty cache, no failure time, cursor 0. |
| `LoadBalancer.DatabaseLoadBalancer.FetchHealthy` | app/services/database_load_balancer.rb:46-53 | The `each` loop returns exactly `Scan` of the configured replicas: the first error, or the healthy ones in order. |
| `LoadBalancer.DatabaseLoadBalancer.ReadingRole` | app/services/database_load_balancer.rb:20-70 | The role returned and the four fields afterwards are exactly those of `Decide` on the old fields. |
| `LoadBalancer.DatabaseLoadBalancer.SelectRole` | app/services/database_load_balancer.rb:74-87 | The role and the new cursor are `Select` of the list and the old cursor. Only the cursor changes. |
| `LbFallbackTest.FirstCallsMatchFallbackTest` | app/services/database_load_balancer.rb:20-83 | From a fresh router, the fallback script's records with the store up give cached `[replica_1]`. With the store down they give `[replica_1, replica_2]`, and the first pick over two replicas is `replica_2`. |
| `StatusRecords.Key` | app/services/database_load_balancer.rb:48 | A role's key is `db_status:` followed by the role name, the same format the monitor writes under (bin/health_check.rb:89). |
| `StatusRecords.Get` | app/services/database_load_balancer.rb:48 | A `get` raises a connection error iff the store is down by that call. Otherwise it returns the stored value iff the key is present, else nil. |
| `StatusRecords.HealthyReplicasMembers` | app/services/database_load_balancer.rb:47-53 | A role is in the filtered list iff it is configured and its record is present, parses and has a truthy `"healthy"`. The list is no longer than the configuration. |
| `StatusRecords.HealthyReplicasExtremes` | app/services/database_load_balancer.rb:47-53 | All records healthy keeps every replica in order. None healthy keeps none. |
| `StatusRecords.ScanOutcome` | app/services/database_load_balancer.rb:46-57 | A scan succeeds iff no position has the store down or a malformed record, and then returns `HealthyReplicas` in configured order. It fails with a connection error iff the store goes down before any malformed record is reached. |
| `HealthCheck.RoundToCentis` | bin/health_check.rb:53-54 | `ROUND(x, 2)` on microseconds: the nearest hundredth, with halves rounded away from zero. |
| `HealthCheck.RealLagCentis` | bin/health_check.rb:48-59 | `real_lag` is 0 when in sync or when the replay timestamp is NULL. Otherwise it is the rounded age, whatever its sign. |
| `HealthCheck.NegativeAgeVerdict` | bin/health_check.rb:49-72 | A running, not-in-sync replica with a negative replay age (clock skew) is healthy. Its `lag_ms` is ten times the rounded age: never positive, and negative from -0.005 s on. |
| `HealthCheck.ReplicaMessage` | bin/health_check.rb:64-73 | The joined message is exactly "Replay paused" when paused. Otherwise it is "In sync" when in sync, else "Syncing...". |
| `HealthCheck.CheckNode` | bin/health_check.rb:24-82 | A raised error gives `unknown`, unhealthy, with its message. Expected primary in recovery gives `replica`, unhealthy, with the mismatch message. Expected replica not in recovery gives `primary`, unhealthy, with the mismatch message. Healthy iff the node is the expected role and, as a replica, replay is not paused and `real_lag <= 100`. A healthy node has its expected role and `lag_ms <= 1000`, and a healthy primary has `lag_ms 0` and no message. An unhealthy node always has a message. |
| `HealthCheck.ReplicaVerdict` | bin/health_check.rb:58-74 | A correctly-roled replica has role `replica` and `lag_ms = real_lag * 10`. It is healthy iff not paused and `real_lag <= 100`. Its message follows pause and sync state. |
| `HealthCheck.LagBoundary` | bin/health_check.rb:53-62 | A paused replica is never healthy. An in-sync replica has lag 0 whatever its age, and is healthy iff it is not paused. For a replica that is neither paused nor in sync, a non-negative raw age is healthy iff it is below 1.005 s, i.e. it rounds to at most 1.00 (the bound is inclusive). |
| `HealthCheck.ExpectedRoleOf` | bin/health_check.rb:88 | The expected role is primary iff the node name is `primary`. |
| `HealthCheck.PublishedRecords` | bin/health_check.rb:86-92 | After a cycle over nodes with distinct names, each node's key `db_status:<name>` holds the verdict for its own probe. Every other key is unchanged. |
| `HealthCheck.DefaultNodesPublished` | bin/health_check.rb:10-14 | Over the default `NODES`, a cycle leaves `db_status:primary` holding the primary-expected verdict on the first probe. It leaves `db_status:replica_1` and `db_status:replica_2` holding the replica-expected verdicts on the second and third. |
| `HealthCheck.FirstCycle` | bin/health_check.rb:86-92 | A first cycle over the default nodes into an empty store leaves exactly the three nodes' keys, each holding the verdict on its own probe. |
| `HealthCheck.StatusStore.Set` | bin/health_check.rb:89 | The store maps the key to the new record. Every other key is unchanged. The key is appended to the log of writes. |
| `HealthCheck.NodeKeys` | bin/health_check.rb:87-89 | One key `db_status:<name>` per node, in node order. |
| `HealthCheck.PublishCycle` | bin/health_check.rb:87-92 | The store afterwards is `Published` of the old store. The log of writes grows by exactly one key per node, in node order, with no change check: an unchanged status is written again. |
| `LbFallbackTest.MockRedis.constructor` | bin/test_lb_fallback.rb:10-16 | Holds the failure flag and the two records: `replica_1` healthy, `replica_2` unhealthy. |
| `LbFallbackTest.MockRedis.Get` | bin/test_lb_fallback.rb:18-21 | Raises a connection error iff built to fail. Otherwise returns the value iff the key is present, else nil. |
| `LbFallbackTest.MockRedis.AsStore` | bin/test_lb_fallback.rb:18-21 | As a store snapshot, the mock holds its data and is unreachable at every call iff built to fail. |
| `LbFallbackTest.TestLoadBalancer.constructor` | bin/test_lb_fallback.rb:35-38 | Holds the given mock store and the replicas `[replica_1, replica_2]`. |
| `LbFallbackTest.TestLoadBalancer.ReadingRole` | bin/test_lb_fallback.rb:40-57 | Returns the scan's result, except that a connection error becomes the full replica list. |
| `LbFallbackTest.FallbackOutcome` | bin/test_lb_fallback.rb:44-54 | Without a fault the result is the order-preserving sub-list of healthy replicas, and a missing record only drops its role. A connection error reached first gives the full list. |
| `LbFallbackTest.ParseErrorPropagates` | bin/test_lb_fallback.rb:47-51 | A malformed record met while the store is up is not rescued. It propagates as a parse error. |
| `LbFallbackTest.TestRedisUp` | bin/test_lb_fallback.rb:60-67 | With the mock store up the result is exactly `[replica_1]`. |
| `LbFallbackTest.TestRedisDown` | bin/test_lb_fallback.rb:69-76 | With the mock store down the result is exactly `[replica_1, replica_2]`. |
| `Pipeline.ReadBack` | bin/health_check.rb:89 | A record the monitor wrote reads back as parsed, with `"healthy"` equal to its verdict. |
| `Pipeline.MonitorRecordsAreFetched` | app/services/database_load_balancer.rb:46-53 | With the store up, records written by the monitor never open the breaker. The router caches exactly the configured replicas whose record says healthy. |
| `Pipeline.CycleThenRoute` | bin/health_check.rb:86-92 | After one monitor cycle, a configured replica is in the router's healthy list iff `check_node` judged its own probe healthy. |

## Left out

- The PostgreSQL connection and the SQL text. Whether the node is in recovery, whether replay is paused, whether it is in sync, and the replay age are inputs (`Probe`). Closing the connection, including the leak on error paths, is I/O.
- The Redis clients, their URLs and timeouts. The router's store is a snapshot value passed to each call. The monitor's store is a `StatusStore` object. JSON encoding and decoding is abstracted to `StoredValue`.
- The monitor's infinite loop, `sleep CHECK_INTERVAL` and the `puts` output. One cycle is modelled.
- The `Mutex`. Calls are modelled one after another.
- `Thread.current[:redis_routing_duration]` and the monotonic-clock timing. The path a decision took is the `Source` of a `Decision` instead.
- Logging.
- Reading node hosts and the Redis URL from the environment. The default hosts are used.
- The Rails controllers, routes, model configuration and UI tests. They only dispatch GET/HEAD requests to the router and present its timing.
- The monitor's `$redis.set` can fail. The source does not rescue that error, so it ends the monitor process. The model's store writes always succeed.
- HealthCheck.CheckNode: `lag_ms` is modelled as exactly ten times the hundredths of a second. The source computes `(lag * 1000).to_i` on a float. That yields one millisecond less for some values, e.g. 2.01 is not exact in binary, so 2.01 * 1000 truncates to 2009.
- LoadBalancer.DatabaseLoadBalancer.ReadingRole: one clock reading `now` serves the whole call. The source reads `Time.current` separately for the freshness test, the breaker test, the failure time and the check time.
- `@last_index` starts as nil in the source. It is modelled as 0, because `||= 0` makes nil and 0 select alike.

## Behaviour worth knowing

- Writes are not change-suppressed. The monitor writes every node on every cycle without comparing with the stored value (bin/health_check.rb:89).
- A malformed record is not merely skipped by the production router. `JSON.parse` raising is a `StandardError`, so it opens the breaker and every replica is used (app/services/database_load_balancer.rb:50,54-57). Only the fallback script lets a parse error propagate (bin/test_lb_fallback.rb:51).
- A store failure during a monitor write is not rescued (bin/health_check.rb:89). It ends the monitor loop.
- `lag_ms` can be negative. A negative replay age (clock skew) rounds to a negative lag, and that replica counts as healthy (`HealthCheck.NegativeAgeVerdict`).

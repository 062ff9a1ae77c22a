/**
 * The read router (`DatabaseLoadBalancer`): a 2-second cache of the healthy
 * replica list, a 10-second circuit breaker against store failures, and a
 * round-robin cursor over the healthy list. Time is an integer number of
 * milliseconds supplied by the caller; the store is a snapshot value.
 *
 * `Decide` is the specification of one `reading_role` call on an abstract
 * state; the class below runs the same steps in place and is proved to agree
 * with it.
 */
module LoadBalancer {
  import opened Wrappers
  import opened StatusRecords

  const CacheTtlMs: int := 2000
  const FailureBackoffMs: int := 10000

  /** The role returned when no replica is healthy: reads go to the primary. */
  const Writing: string := "writing"
  const ReplicaRoles: seq<string> := ["replica_1", "replica_2"]

  /** Which path a decision took (the source reports it only as a duration). */
  datatype Source = CacheHit | BreakerOpen | Fetched | FetchFailed

  datatype RouterState = RouterState(
    lastCheckedAt: Option<int>,
    cachedHealthyRoles: seq<string>,
    redisLastFailureAt: Option<int>,
    lastIndex: nat)

  datatype Decision = Decision(role: string, next: RouterState, source: Source)

  /** The state right after `initialize` (`@last_index` is nil, which `||= 0` treats as 0). */
  const Initial: RouterState := RouterState(None, [], None, 0)

  predicate CacheFresh(s: RouterState, now: int)
  {
    s.lastCheckedAt.Some? && now - s.lastCheckedAt.value < CacheTtlMs
  }

  predicate CircuitOpen(s: RouterState, now: int)
  {
    s.redisLastFailureAt.Some? && now - s.redisLastFailureAt.value < FailureBackoffMs
  }

  /** `select_role`: advance the cursor modulo the list's size and pick there; `writing` on an empty list. */
  function Select(healthyRoles: seq<string>, lastIndex: nat): (r: (string, nat))
    ensures |healthyRoles| == 0 ==> r == (Writing, lastIndex)
    ensures |healthyRoles| > 0 ==> r.1 == (lastIndex + 1) % |healthyRoles|
    ensures |healthyRoles| > 0 ==> r.1 < |healthyRoles| && r.0 == healthyRoles[r.1] && r.0 in healthyRoles
    ensures |healthyRoles| > 0 && lastIndex + 1 < |healthyRoles| ==> r.1 == lastIndex + 1
    ensures |healthyRoles| > 0 && lastIndex + 1 == |healthyRoles| ==> r.1 == 0
  {
    if |healthyRoles| > 0 then
      var i := (lastIndex + 1) % |healthyRoles|;
      (healthyRoles[i], i)
    else
      (Writing, lastIndex)
  }

  /** The healthy list for a call whose cache is stale, the breaker time afterwards, and the path taken. */
  function Refresh(replicas: seq<string>, s: RouterState, now: int, redis: Store): (seq<string>, Option<int>, Source)
  {
    if CircuitOpen(s, now) then (replicas, s.redisLastFailureAt, BreakerOpen)
    else
      match Scan(redis, replicas)
      case Ok(healthy) => (healthy, s.redisLastFailureAt, Fetched)
      case Err(_) => (replicas, Some(now), FetchFailed)
  }

  /** One `reading_role` call. */
  function Decide(replicas: seq<string>, s: RouterState, now: int, redis: Store): (d: Decision)
    ensures d.source == CacheHit <==> CacheFresh(s, now)
    ensures d.source == BreakerOpen <==> !CacheFresh(s, now) && CircuitOpen(s, now)
    ensures d.source == CacheHit ==> d.next.cachedHealthyRoles == s.cachedHealthyRoles && d.next.lastCheckedAt == s.lastCheckedAt
    ensures d.source != CacheHit ==> d.next.lastCheckedAt == Some(now)
    ensures d.source in {BreakerOpen, FetchFailed} ==> d.next.cachedHealthyRoles == replicas
    ensures d.source == Fetched ==> d.next.cachedHealthyRoles == HealthyReplicas(redis.records, replicas)
    ensures d.next.redisLastFailureAt == if d.source == FetchFailed then Some(now) else s.redisLastFailureAt
    ensures (d.role, d.next.lastIndex) == Select(d.next.cachedHealthyRoles, s.lastIndex)
  {
    if CacheFresh(s, now) then
      var (role, index) := Select(s.cachedHealthyRoles, s.lastIndex);
      Decision(role, s.(lastIndex := index), CacheHit)
    else
      var (healthy, failureAt, source) := Refresh(replicas, s, now, redis);
      ScanOutcome(redis, replicas);
      var (role, index) := Select(healthy, s.lastIndex);
      Decision(role, RouterState(Some(now), healthy, failureAt, index), source)
  }

  /** On a cache hit or with the breaker open the store is not consulted: the decision does not depend on it. */
  lemma StoreNotReadWhenCachedOrOpen(replicas: seq<string>, s: RouterState, now: int, a: Store, b: Store)
    requires CacheFresh(s, now) || CircuitOpen(s, now)
    ensures Decide(replicas, s, now, a) == Decide(replicas, s, now, b)
  {
  }

  /**
   * With the cache stale and the breaker closed, the fetch fails exactly when
   * some replica's `get` raises or its record is malformed: then the breaker
   * opens at `now` and every replica is cached. Otherwise the breaker stays
   * as it was and the healthy replicas are cached.
   */
  lemma FetchErrorFallsBack(replicas: seq<string>, s: RouterState, now: int, redis: Store)
    requires !CacheFresh(s, now) && !CircuitOpen(s, now)
    ensures Decide(replicas, s, now, redis).source == FetchFailed <==> exists j :: 0 <= j < |replicas| && Faulty(redis, replicas, j)
    ensures Decide(replicas, s, now, redis).source == FetchFailed ==>
              Decide(replicas, s, now, redis).next.cachedHealthyRoles == replicas &&
              Decide(replicas, s, now, redis).next.redisLastFailureAt == Some(now)
    ensures Decide(replicas, s, now, redis).source != FetchFailed ==>
              Decide(replicas, s, now, redis).source == Fetched &&
              Decide(replicas, s, now, redis).next.cachedHealthyRoles == HealthyReplicas(redis.records, replicas) &&
              Decide(replicas, s, now, redis).next.redisLastFailureAt == s.redisLastFailureAt
  {
    ScanOutcome(redis, replicas);
  }

  /** The router's healthy list never holds anything but configured replicas. */
  ghost predicate CacheWithin(replicas: seq<string>, s: RouterState)
  {
    forall r :: r in s.cachedHealthyRoles ==> r in replicas
  }

  /**
   * Every decision returns a configured replica, or `writing` exactly when the
   * healthy list it chose from is empty; and it keeps the cache within the
   * replica list. With the primary and `writing` outside the replica list,
   * reads reach the primary only through `writing`.
   */
  lemma DecideReturnsReplicaOrWriting(replicas: seq<string>, s: RouterState, now: int, redis: Store)
    requires CacheWithin(replicas, s)
    requires Writing !in replicas
    ensures CacheWithin(replicas, Decide(replicas, s, now, redis).next)
    ensures Decide(replicas, s, now, redis).role in replicas
         || (Decide(replicas, s, now, redis).role == Writing && Decide(replicas, s, now, redis).next.cachedHealthyRoles == [])
    ensures Decide(replicas, s, now, redis).role == Writing <==> Decide(replicas, s, now, redis).next.cachedHealthyRoles == []
  {
    var d := Decide(replicas, s, now, redis);
    if d.source == Fetched {
      HealthyReplicasMembers(redis.records, replicas);
    }
  }

  /** With the store up and every replica's record unhealthy or missing, a stale-cache call routes the read to the primary. */
  lemma AllUnhealthyRoutesToPrimary(replicas: seq<string>, s: RouterState, now: int, records: map<string, StoredValue>)
    requires !CacheFresh(s, now) && !CircuitOpen(s, now)
    requires forall r :: r in replicas ==> Key(r) !in records || records[Key(r)] == Parsed(false)
    ensures Decide(replicas, s, now, Store(records, None)).role == Writing
    ensures Decide(replicas, s, now, Store(records, None)).next.cachedHealthyRoles == []
  {
    var store := Store(records, None);
    ScanOutcome(store, replicas);
    HealthyReplicasExtremes(records, replicas);
  }

  /** The roles returned by `k` consecutive selections over a fixed list. */
  function Picks(roles: seq<string>, lastIndex: nat, k: nat): (p: seq<string>)
    ensures |p| == k
    decreases k
  {
    if k == 0 then []
    else
      var (role, index) := Select(roles, lastIndex);
      [role] + Picks(roles, index, k - 1)
  }

  /** Consecutive selections walk the list cyclically, starting just after the cursor. */
  lemma {:induction false} PicksRotate(roles: seq<string>, lastIndex: nat, k: nat)
    requires 0 < |roles| && k <= |roles|
    ensures Select(roles, lastIndex).1 + k <= 2 * |roles|
    ensures Picks(roles, lastIndex, k) == (roles + roles)[Select(roles, lastIndex).1 .. Select(roles, lastIndex).1 + k]
    decreases k
  {
    var n := |roles|;
    var rr := roles + roles;
    var s := Select(roles, lastIndex).1;
    if k > 0 {
      PicksRotate(roles, s, k - 1);
      var s' := Select(roles, s).1;
      var tail := Picks(roles, s, k - 1);
      assert Picks(roles, lastIndex, k) == [roles[s]] + tail;
      assert tail == rr[s' .. s' + k - 1];
      if s + 1 < n {
        assert s' == s + 1;
      } else {
        assert s' == 0;
        assert s == n - 1;
        forall j | 0 <= j < k ensures rr[s .. s + k][j] == ([roles[s]] + tail)[j] {
          if j > 0 {
            assert rr[s .. s + k][j] == rr[n + j - 1] == roles[j - 1];
            assert tail[j - 1] == rr[j - 1];
          }
        }
      }
    }
  }

  /** Round-robin fairness: N consecutive selections over N roles return each of them exactly once. */
  lemma RoundRobinFair(roles: seq<string>, lastIndex: nat)
    requires |roles| > 0
    ensures multiset(Picks(roles, lastIndex, |roles|)) == multiset(roles)
  {
    var n := |roles|;
    var s := Select(roles, lastIndex).1;
    PicksRotate(roles, lastIndex, n);
    assert (roles + roles)[s .. s + n] == roles[s..] + roles[..s];
    assert roles == roles[..s] + roles[s..];
  }

  /** The roles returned by consecutive `reading_role` calls at the given times. */
  function Run(replicas: seq<string>, s: RouterState, times: seq<int>, redis: Store): (roles: seq<string>)
    ensures |roles| == |times|
    decreases |times|
  {
    if times == [] then []
    else
      var d := Decide(replicas, s, times[0], redis);
      [d.role] + Run(replicas, d.next, times[1..], redis)
  }

  /**
   * Calls that all fall within the cache's lifetime are cache hits that step
   * the cursor over the cached list: they return exactly `Picks` of it.
   */
  lemma {:induction false} CachedRunIsRoundRobin(replicas: seq<string>, s: RouterState, times: seq<int>, redis: Store)
    requires forall t :: t in times ==> CacheFresh(s, t)
    ensures Run(replicas, s, times, redis) == Picks(s.cachedHealthyRoles, s.lastIndex, |times|)
    decreases |times|
  {
    if times != [] {
      var d := Decide(replicas, s, times[0], redis);
      assert d.next == s.(lastIndex := d.next.lastIndex);
      forall t | t in times[1..] ensures CacheFresh(d.next, t) {
        assert t in times;
      }
      CachedRunIsRoundRobin(replicas, d.next, times[1..], redis);
    }
  }

  /**
   * Cache coherence: within the TTL after a decision that refreshed the cache,
   * the next call is a cache hit on the very list that decision computed.
   */
  lemma CacheCoherent(replicas: seq<string>, s: RouterState, now: int, later: int, a: Store, b: Store)
    requires !CacheFresh(s, now)
    requires now <= later < now + CacheTtlMs
    ensures Decide(replicas, Decide(replicas, s, now, a).next, later, b).source == CacheHit
    ensures Decide(replicas, Decide(replicas, s, now, a).next, later, b).next.cachedHealthyRoles
         == Decide(replicas, s, now, a).next.cachedHealthyRoles
  {
  }

  /**
   * The breaker suppresses repeated failures: after a failed fetch at `now`,
   * a stale-cache call before the backoff has elapsed skips the store, and
   * one after it tries the store again.
   */
  lemma BreakerWindow(replicas: seq<string>, s: RouterState, now: int, later: int, a: Store, b: Store)
    requires Decide(replicas, s, now, a).source == FetchFailed
    requires now + CacheTtlMs <= later
    ensures later < now + FailureBackoffMs ==> Decide(replicas, Decide(replicas, s, now, a).next, later, b).source == BreakerOpen
    ensures later >= now + FailureBackoffMs ==> Decide(replicas, Decide(replicas, s, now, a).next, later, b).source in {Fetched, FetchFailed}
  {
  }

  /** The router class: the four instance variables, updated in the order `reading_role` updates them. */
  class DatabaseLoadBalancer {
    const replicaRoles: seq<string>
    var lastCheckedAt: Option<int>
    var cachedHealthyRoles: seq<string>
    var redisLastFailureAt: Option<int>
    var lastIndex: nat

    function State(): RouterState
      reads this
    {
      RouterState(lastCheckedAt, cachedHealthyRoles, redisLastFailureAt, lastIndex)
    }

    constructor ()
      ensures replicaRoles == ReplicaRoles && State() == Initial
    {
      replicaRoles := ReplicaRoles;
      lastCheckedAt := None;
      cachedHealthyRoles := [];
      redisLastFailureAt := None;
      lastIndex := 0;
    }

    /** The `each` loop of `reading_role`: read every replica's record and keep the healthy ones. */
    method FetchHealthy(redis: Store) returns (r: Result<seq<string>, Error>)
      ensures r == Scan(redis, replicaRoles)
    {
      var healthyRoles: seq<string> := [];
      var i := 0;
      match ScanFrom(redis, replicaRoles, 0) {
        case Ok(tail) => assert [] + tail == tail;
        case Err(_) =>
      }
      while i < |replicaRoles|
        invariant 0 <= i <= |replicaRoles|
        invariant Scan(redis, replicaRoles) == Prepend(healthyRoles, ScanFrom(redis, replicaRoles, i))
      {
        var role := replicaRoles[i];
        var statusJson := Get(redis, i, Key(role));
        match statusJson {
          case Err(e) =>
            return Err(e);
          case Ok(None) =>
          case Ok(Some(Malformed)) =>
            return Err(ParseError);
          case Ok(Some(Parsed(healthy))) =>
            if healthy {
              ScanStep(redis, replicaRoles, i, healthyRoles);
              healthyRoles := healthyRoles + [role];
            }
        }
        i := i + 1;
      }
      assert healthyRoles + [] == healthyRoles;
      return Ok(healthyRoles);
    }

    /** `reading_role`: cache check, circuit breaker, fetch with rescue, cache update, selection. */
    method ReadingRole(now: int, redis: Store) returns (role: string)
      modifies this
      ensures var d := Decide(replicaRoles, old(State()), now, redis); role == d.role && State() == d.next
    {
      // 1. the cache
      if lastCheckedAt.Some? && now - lastCheckedAt.value < CacheTtlMs {
        role := SelectRole(cachedHealthyRoles);
        return;
      }
      // 2. the circuit breaker, else the store
      var healthyRoles: seq<string> := [];
      var circuitOpen := redisLastFailureAt.Some? && now - redisLastFailureAt.value < FailureBackoffMs;
      if circuitOpen {
        healthyRoles := replicaRoles;
      } else {
        var fetched := FetchHealthy(redis);
        match fetched {
          case Ok(roles) =>
            healthyRoles := roles;
          case Err(_) =>
            redisLastFailureAt := Some(now);
            healthyRoles := replicaRoles;
        }
      }
      // 3. the cache update
      cachedHealthyRoles := healthyRoles;
      lastCheckedAt := Some(now);
      role := SelectRole(healthyRoles);
    }

    /** `select_role`. */
    method SelectRole(healthyRoles: seq<string>) returns (role: string)
      modifies this`lastIndex
      ensures (role, lastIndex) == Select(healthyRoles, old(lastIndex))
    {
      if |healthyRoles| > 0 {
        lastIndex := (lastIndex + 1) % |healthyRoles|;
        role := healthyRoles[lastIndex];
      } else {
        role := Writing;
      }
    }
  }
}

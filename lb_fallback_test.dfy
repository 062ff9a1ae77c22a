/**
 * The fallback script: a mock store that either answers from two fixed
 * records or refuses every request, and a stripped-down router with no
 * cache, breaker or round robin that falls back to every replica only on a
 * connection error. Its two embedded checks are the two methods at the end.
 */
module LbFallbackTest {
  import opened Wrappers
  import opened StatusRecords
  import LoadBalancer

  /** `{healthy: true}.to_json` under replica_1, `{healthy: false}.to_json` under replica_2. */
  const MockData: map<string, StoredValue> :=
    map[Key("replica_1") := Parsed(true), Key("replica_2") := Parsed(false)]

  class MockRedis {
    const shouldFail: bool
    const data: map<string, StoredValue>

    constructor (shouldFail: bool)
      ensures this.shouldFail == shouldFail && data == MockData
    {
      this.shouldFail := shouldFail;
      data := MockData;
    }

    /** `get`: raises exactly when built to fail, else the stored value or nil. */
    method Get(key: string) returns (r: Result<Option<StoredValue>, Error>)
      ensures r.Err? <==> shouldFail
      ensures r.Err? ==> r.error == ConnectionError
      ensures r.Ok? ==> (r.value.Some? <==> key in data)
      ensures r.Ok? && r.value.Some? ==> r.value.value == data[key]
    {
      if shouldFail {
        return Err(ConnectionError);
      }
      if key in data {
        return Ok(Some(data[key]));
      }
      return Ok(None);
    }

    /** The mock as a store snapshot: down from the first request when built to fail. */
    function AsStore(): (s: Store)
      ensures s.records == data
      ensures forall call: nat :: Unreachable(s, call) <==> shouldFail
    {
      Store(data, if shouldFail then Some(0) else None)
    }
  }

  /** Only a connection error is rescued (to every replica); a parse error propagates. */
  function RescueConnectionError(scan: Result<seq<string>, Error>, replicas: seq<string>): Result<seq<string>, Error>
  {
    if scan == Err(ConnectionError) then Ok(replicas) else scan
  }

  class TestLoadBalancer {
    const redis: MockRedis
    const replicaRoles: seq<string>

    constructor (redis: MockRedis)
      ensures this.redis == redis && replicaRoles == ["replica_1", "replica_2"]
    {
      this.redis := redis;
      replicaRoles := ["replica_1", "replica_2"];
    }

    /** `reading_role`: the scan, with a connection error turned into the full replica list. */
    method ReadingRole() returns (r: Result<seq<string>, Error>)
      ensures r == RescueConnectionError(Scan(redis.AsStore(), replicaRoles), replicaRoles)
    {
      var healthyRoles: seq<string> := [];
      var i := 0;
      match ScanFrom(redis.AsStore(), replicaRoles, 0) {
        case Ok(tail) => assert [] + tail == tail;
        case Err(_) =>
      }
      while i < |replicaRoles|
        invariant 0 <= i <= |replicaRoles|
        invariant Scan(redis.AsStore(), replicaRoles) == Prepend(healthyRoles, ScanFrom(redis.AsStore(), replicaRoles, i))
      {
        var role := replicaRoles[i];
        var statusJson := redis.Get(Key(role));
        match statusJson {
          case Err(_) =>
            // rescue Redis::BaseConnectionError
            return Ok(replicaRoles);
          case Ok(None) =>
          case Ok(Some(Malformed)) =>
            return Err(ParseError);
          case Ok(Some(Parsed(healthy))) =>
            if healthy {
              ScanStep(redis.AsStore(), replicaRoles, i, healthyRoles);
              healthyRoles := healthyRoles + [role];
            }
        }
        i := i + 1;
      }
      assert healthyRoles + [] == healthyRoles;
      return Ok(healthyRoles);
    }
  }

  /**
   * Without an error the stripped-down router returns the healthy replicas in
   * configured order (a missing record just drops its role); a connection
   * error yields every replica.
   */
  lemma FallbackOutcome(store: Store, replicas: seq<string>)
    ensures (forall j :: 0 <= j < |replicas| ==> !Faulty(store, replicas, j)) ==>
              RescueConnectionError(Scan(store, replicas), replicas) == Ok(HealthyReplicas(store.records, replicas))
    ensures (exists j :: 0 <= j < |replicas| && Unreachable(store, j) && forall m :: 0 <= m < j ==> !IsMalformed(store.records, replicas[m])) ==>
              RescueConnectionError(Scan(store, replicas), replicas) == Ok(replicas)
  {
    ScanOutcome(store, replicas);
  }

  /** Any other error propagates: a malformed record met while the store is still up is raised to the caller. */
  lemma ParseErrorPropagates(store: Store, replicas: seq<string>, j: nat)
    requires j < |replicas| && IsMalformed(store.records, replicas[j])
    requires forall m :: 0 <= m <= j ==> !Unreachable(store, m)
    ensures RescueConnectionError(Scan(store, replicas), replicas) == Err(ParseError)
  {
    ScanOutcome(store, replicas);
    assert Faulty(store, replicas, j);
    assert Scan(store, replicas).Err?;
    forall k | 0 <= k < |replicas| && Unreachable(store, k)
      ensures exists m :: 0 <= m < k && IsMalformed(store.records, replicas[m])
    {
      assert j < k;
    }
    match Scan(store, replicas) {
      case Err(e) => assert e == ParseError;
    }
  }

  /** Test case 1: with the store up, only replica_1 is healthy. */
  method TestRedisUp() returns (healthyUp: Result<seq<string>, Error>)
    ensures healthyUp == Ok(["replica_1"])
  {
    var redis := new MockRedis(false);
    var lbUp := new TestLoadBalancer(redis);
    healthyUp := lbUp.ReadingRole();
    var store := redis.AsStore();
    assert store == Store(MockData, None);
    assert ScanFrom(store, lbUp.replicaRoles, 2) == Ok([]);
    assert ScanFrom(store, lbUp.replicaRoles, 1) == Ok([]);
    assert lbUp.replicaRoles[0] == "replica_1";
    assert Get(store, 0, Key("replica_1")) == Ok(Some(Parsed(true)));
    assert ["replica_1"] + [] == ["replica_1"];
    assert ScanFrom(store, lbUp.replicaRoles, 0) == Ok(["replica_1"]);
    assert lbUp.redis == redis;
  }

  /** Test case 2: with the store down, every replica is returned. */
  method TestRedisDown() returns (healthyDown: Result<seq<string>, Error>)
    ensures healthyDown == Ok(["replica_1", "replica_2"])
  {
    var redis := new MockRedis(true);
    var lbDown := new TestLoadBalancer(redis);
    healthyDown := lbDown.ReadingRole();
  }

  /**
   * The production router reproduces the fallback test's two outcomes from a
   * fresh start: with the store up it caches `[replica_1]`; with it down it
   * opens the breaker and caches both replicas, and the first pick over two
   * replicas is `replica_2`.
   */
  method FirstCallsMatchFallbackTest(now: int) returns (up: string, upRoles: seq<string>, down: string, downRoles: seq<string>)
    ensures upRoles == ["replica_1"] && up == "replica_1"
    ensures downRoles == ["replica_1", "replica_2"] && down == "replica_2"
  {
    var lbUp := new LoadBalancer.DatabaseLoadBalancer();
    up := lbUp.ReadingRole(now, Store(MockData, None));
    upRoles := lbUp.cachedHealthyRoles;
    var lbDown := new LoadBalancer.DatabaseLoadBalancer();
    down := lbDown.ReadingRole(now, Store(MockData, Some(0)));
    downRoles := lbDown.cachedHealthyRoles;
  }
}

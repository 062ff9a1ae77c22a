/**
 * The health records that the monitor publishes and the routers read back:
 * the key format, what a reader can make of a stored value, a snapshot of the
 * store that may be unreachable, and the specification of one scan over the
 * replica list (the `each` loop shared by the production router and the
 * fallback test).
 */
module StatusRecords {
  import opened Wrappers

  /** Prefix of every status key: role `replica_1` is stored under `db_status:replica_1`. */
  const KeyPrefix: string := "db_status:"

  function Key(role: string): (k: string)
    ensures |k| == |KeyPrefix| + |role| && k[..|KeyPrefix|] == KeyPrefix && k[|KeyPrefix|..] == role
  {
    KeyPrefix + role
  }

  /** Different roles never share a key. */
  lemma KeyInjective(a: string, b: string)
    requires Key(a) == Key(b)
    ensures a == b
  {
    assert a == Key(a)[|KeyPrefix|..];
  }

  /**
   * What a reader obtains from a stored string: either `JSON.parse` (or the
   * `["healthy"]` lookup on its result) raises, or it yields a value whose
   * `"healthy"` entry is Ruby-truthy or not (nil and false are falsy).
   */
  datatype StoredValue = Malformed | Parsed(healthyTruthy: bool)

  /** The two StandardErrors a scan can raise. */
  datatype Error = ConnectionError | ParseError

  /**
   * A snapshot of the store as one scan sees it: its records, and the number
   * of `get` calls that succeed before the connection fails (None: it stays up).
   */
  datatype Store = Store(records: map<string, StoredValue>, failsFrom: Option<nat>)

  predicate Unreachable(store: Store, call: nat)
  {
    store.failsFrom.Some? && store.failsFrom.value <= call
  }

  /** `redis.get(key)` as the `call`-th request of a scan: raises, or returns the value or nil. */
  function Get(store: Store, call: nat, key: string): (r: Result<Option<StoredValue>, Error>)
    ensures r.Err? <==> Unreachable(store, call)
    ensures r.Err? ==> r.error == ConnectionError
    ensures r.Ok? ==> (r.value.Some? <==> key in store.records)
    ensures r.Ok? && r.value.Some? ==> r.value.value == store.records[key]
  {
    if Unreachable(store, call) then Err(ConnectionError)
    else if key in store.records then Ok(Some(store.records[key]))
    else Ok(None)
  }

  /** A replica counts as healthy when its record is present, parses, and has a truthy `"healthy"`. */
  predicate IsHealthy(records: map<string, StoredValue>, role: string)
  {
    Key(role) in records && records[Key(role)] == Parsed(true)
  }

  predicate IsMalformed(records: map<string, StoredValue>, role: string)
  {
    Key(role) in records && records[Key(role)] == Malformed
  }

  /** Reference definition: the order-preserving sub-list of `roles` whose records say healthy. */
  function HealthyReplicas(records: map<string, StoredValue>, roles: seq<string>): seq<string>
  {
    if roles == [] then []
    else (if IsHealthy(records, roles[0]) then [roles[0]] else []) + HealthyReplicas(records, roles[1..])
  }

  lemma {:induction false} HealthyReplicasMembers(records: map<string, StoredValue>, roles: seq<string>)
    ensures |HealthyReplicas(records, roles)| <= |roles|
    ensures forall r :: r in HealthyReplicas(records, roles) <==> r in roles && IsHealthy(records, r)
  {
    if roles != [] {
      HealthyReplicasMembers(records, roles[1..]);
      assert roles == [roles[0]] + roles[1..];
    }
  }

  /** When every record is healthy nothing is dropped; when none is, nothing is kept. */
  lemma {:induction false} HealthyReplicasExtremes(records: map<string, StoredValue>, roles: seq<string>)
    ensures (forall r :: r in roles ==> IsHealthy(records, r)) ==> HealthyReplicas(records, roles) == roles
    ensures (forall r :: r in roles ==> !IsHealthy(records, r)) ==> HealthyReplicas(records, roles) == []
  {
    if roles != [] {
      HealthyReplicasExtremes(records, roles[1..]);
      assert roles == [roles[0]] + roles[1..];
    }
  }

  /**
   * One scan from position `i`: `get` each key in order; a missing record is
   * skipped, a malformed one raises a parse error, a connection failure raises
   * a connection error; the first error aborts the scan.
   */
  function ScanFrom(store: Store, roles: seq<string>, i: nat): Result<seq<string>, Error>
    requires i <= |roles|
    decreases |roles| - i
  {
    if i == |roles| then Ok([])
    else
      match Get(store, i, Key(roles[i]))
      case Err(e) => Err(e)
      case Ok(None) => ScanFrom(store, roles, i + 1)
      case Ok(Some(Malformed)) => Err(ParseError)
      case Ok(Some(Parsed(healthy))) =>
        match ScanFrom(store, roles, i + 1)
        case Err(e) => Err(e)
        case Ok(rest) => Ok(if healthy then [roles[i]] + rest else rest)
  }

  function Scan(store: Store, roles: seq<string>): Result<seq<string>, Error>
  {
    ScanFrom(store, roles, 0)
  }

  /** Position `i` of a scan raises: the store is down by then, or the record there is malformed. */
  predicate Faulty(store: Store, roles: seq<string>, i: nat)
    requires i < |roles|
  {
    Unreachable(store, i) || IsMalformed(store.records, roles[i])
  }

  /** `acc` already collected, followed by the outcome of the rest of the scan. */
  function Prepend(acc: seq<string>, rest: Result<seq<string>, Error>): Result<seq<string>, Error>
  {
    match rest
    case Ok(tail) => Ok(acc + tail)
    case Err(e) => Err(e)
  }

  lemma {:induction false} ScanFromOutcome(store: Store, roles: seq<string>, i: nat)
    requires i <= |roles|
    decreases |roles| - i
    ensures ScanFrom(store, roles, i).Err? <==> exists j :: i <= j < |roles| && Faulty(store, roles, j)
    ensures ScanFrom(store, roles, i).Ok? ==> ScanFrom(store, roles, i).value == HealthyReplicas(store.records, roles[i..])
    ensures ScanFrom(store, roles, i) == Err(ConnectionError) <==>
              exists j :: i <= j < |roles| && Unreachable(store, j) && forall m :: i <= m < j ==> !IsMalformed(store.records, roles[m])
  {
    if i < |roles| {
      ScanFromOutcome(store, roles, i + 1);
      assert roles[i..][1..] == roles[i + 1..];
      if Unreachable(store, i) {
        assert Faulty(store, roles, i);
      } else if IsMalformed(store.records, roles[i]) {
        assert Faulty(store, roles, i);
        forall j | i <= j < |roles| && Unreachable(store, j)
          ensures exists m :: i <= m < j && IsMalformed(store.records, roles[m])
        {
          assert j != i;
        }
      } else {
        // position i is fine, so every fault lies further on
        assert forall j :: i <= j < |roles| && Faulty(store, roles, j) ==> i + 1 <= j;
        assert forall j :: i <= j < |roles| && Unreachable(store, j) ==> i + 1 <= j;
      }
    }
  }

  /**
   * A scan succeeds exactly when no position is faulty, and then returns the
   * healthy replicas in configured order; it reports a connection error
   * exactly when the store goes down before any malformed record is reached.
   */
  lemma ScanOutcome(store: Store, roles: seq<string>)
    ensures Scan(store, roles).Ok? <==> forall j :: 0 <= j < |roles| ==> !Faulty(store, roles, j)
    ensures Scan(store, roles).Ok? ==> Scan(store, roles).value == HealthyReplicas(store.records, roles)
    ensures Scan(store, roles) == Err(ConnectionError) <==>
              exists j :: 0 <= j < |roles| && Unreachable(store, j) && forall m :: 0 <= m < j ==> !IsMalformed(store.records, roles[m])
  {
    ScanFromOutcome(store, roles, 0);
    assert roles[0..] == roles;
  }

  /** Loop step of a scan: the outcome at `i` in terms of the outcome at `i + 1`. */
  lemma ScanStep(store: Store, roles: seq<string>, i: nat, acc: seq<string>)
    requires i < |roles|
    requires Get(store, i, Key(roles[i])) == Ok(Some(Parsed(true)))
    ensures Prepend(acc, ScanFrom(store, roles, i)) == Prepend(acc + [roles[i]], ScanFrom(store, roles, i + 1))
  {
    match ScanFrom(store, roles, i + 1)
    case Err(e) =>
    case Ok(rest) => assert acc + ([roles[i]] + rest) == acc + [roles[i]] + rest;
  }
}

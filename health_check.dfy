/**
 * The health monitor: `check_node` classifies one node from the results of
 * its probes, and each cycle publishes one status record per configured node
 * under `db_status:<name>`. The probes (a PostgreSQL connection and three
 * queries) are inputs; lag is in hundredths of a second, as the lag query
 * rounds it to two decimals.
 */
module HealthCheck {
  import opened Wrappers
  import opened StatusRecords

  /** MAX_LAG_SECONDS = 1.0, in hundredths of a second. */
  const MaxLagCentis: int := 100

  datatype ExpectedRole = ExpectPrimary | ExpectReplica

  /** The status hash: keys that the source leaves out of a branch are None. */
  datatype Status = Status(role: string, healthy: bool, lagMs: Option<int>, message: Option<string>)

  /**
   * The replication queries of an in-recovery node: whether WAL replay is
   * paused, whether the received and replayed positions are equal, and
   * `now() - pg_last_xact_replay_timestamp()` in microseconds (None when the
   * timestamp is NULL).
   */
  datatype Replication = Replication(isPaused: bool, isSync: bool, replayAgeUs: Option<int>)

  /**
   * What probing a node yields: an error raised while connecting or asking
   * `pg_is_in_recovery()`, or its answer together with the outcome of the
   * replication queries (run only for an expected replica found in recovery;
   * Err carries the raised error's message).
   */
  datatype Probe =
    | ProbeFailed(error: string)
    | Probed(isRecovery: bool, replication: Result<Replication, string>)

  const PrimaryMismatch: string := "Expected primary but found replica"
  const ReplicaMismatch: string := "Expected replica but found primary"

  /** `ROUND(x, 2)` on a number of microseconds: to the nearest hundredth, halves away from zero. */
  function RoundToCentis(us: int): (cs: int)
    ensures us >= 0 ==> cs >= 0 && cs * 10000 - 5000 <= us < cs * 10000 + 5000
    ensures us < 0 ==> cs <= 0 && cs * 10000 - 5000 < us <= cs * 10000 + 5000
  {
    if us >= 0 then (us + 5000) / 10000 else -((-us + 5000) / 10000)
  }

  /** `real_lag_s` in hundredths: 0 when in sync, else the rounded age, a NULL timestamp counting as 0. */
  function RealLagCentis(r: Replication): (cs: int)
    ensures r.isSync ==> cs == 0
    ensures r.replayAgeUs.None? ==> cs == 0
    ensures !r.isSync && r.replayAgeUs.Some? ==> cs == RoundToCentis(r.replayAgeUs.value)
    ensures !r.isSync && r.replayAgeUs.Some? && r.replayAgeUs.value >= 0 ==>
              cs >= 0 && cs * 10000 - 5000 <= r.replayAgeUs.value < cs * 10000 + 5000
    ensures !r.isSync && r.replayAgeUs.Some? && r.replayAgeUs.value < 0 ==>
              cs <= 0 && cs * 10000 - 5000 < r.replayAgeUs.value <= cs * 10000 + 5000
  {
    if r.isSync then 0 else RoundToCentis(r.replayAgeUs.GetOr(0))
  }

  /** Ruby's `Array#join`. */
  function Join(parts: seq<string>, sep: string): string
  {
    if |parts| == 0 then ""
    else if |parts| == 1 then parts[0]
    else parts[0] + sep + Join(parts[1..], sep)
  }

  /** The `message` array of a correctly-roled replica. */
  function MessageParts(isPaused: bool, isSync: bool): seq<string>
  {
    (if isPaused then ["Replay paused"] else [])
    + (if isSync && !isPaused then ["In sync"] else [])
    + (if !isSync && !isPaused then ["Syncing..."] else [])
  }

  /** Exactly one flag applies, so the joined message is that flag alone. */
  function ReplicaMessage(isPaused: bool, isSync: bool): (m: string)
    ensures isPaused ==> m == "Replay paused"
    ensures !isPaused && isSync ==> m == "In sync"
    ensures !isPaused && !isSync ==> m == "Syncing..."
  {
    Join(MessageParts(isPaused, isSync), ", ")
  }

  function RoleName(expected: ExpectedRole): string
  {
    if expected == ExpectPrimary then "primary" else "replica"
  }

  /** When a node deserves to be called healthy: it is the role expected and, as a replica, replays with a lag within the limit. */
  predicate Healthy(probe: Probe, expected: ExpectedRole)
  {
    && probe.Probed?
    && (probe.isRecovery <==> expected == ExpectReplica)
    && (expected == ExpectReplica ==>
          && probe.replication.Ok?
          && !probe.replication.value.isPaused
          && RealLagCentis(probe.replication.value) <= MaxLagCentis)
  }

  /** `check_node`. */
  function CheckNode(probe: Probe, expected: ExpectedRole): (s: Status)
    // a raised error becomes an unknown, unhealthy node carrying the error's message
    ensures probe.ProbeFailed? ==> s == Status("unknown", false, None, Some(probe.error))
    // role mismatches are unhealthy and say so
    ensures probe.Probed? && expected == ExpectPrimary && probe.isRecovery ==>
              s == Status("replica", false, None, Some(PrimaryMismatch))
    ensures probe.Probed? && expected == ExpectReplica && !probe.isRecovery ==>
              s == Status("primary", false, None, Some(ReplicaMismatch))
    // an error from the pause or lag query is rescued like a connection error
    ensures probe.Probed? && expected == ExpectReplica && probe.isRecovery && probe.replication.Err? ==>
              s == Status("unknown", false, None, Some(probe.replication.error))
    // a healthy node is the role it was expected to be, with a lag within the limit
    ensures s.healthy ==> s.role == RoleName(expected) && s.lagMs.Some? && s.lagMs.value <= MaxLagCentis * 10
    ensures s.healthy ==> expected == ExpectPrimary ==> s.lagMs == Some(0) && s.message == None
    // an unhealthy node always explains itself
    ensures !s.healthy ==> s.message.Some?
    // the health verdict, in full
    ensures s.healthy <==> Healthy(probe, expected)
  {
    match probe
    case ProbeFailed(error) => Status("unknown", false, None, Some(error))
    case Probed(isRecovery, replication) =>
      if expected == ExpectPrimary then
        if isRecovery then Status("replica", false, None, Some(PrimaryMismatch))
        else Status("primary", true, Some(0), None)
      else if !isRecovery then Status("primary", false, None, Some(ReplicaMismatch))
      else
        match replication
        case Err(error) => Status("unknown", false, None, Some(error))
        case Ok(r) =>
          var lag := RealLagCentis(r);
          Status("replica", !r.isPaused && lag <= MaxLagCentis, Some(lag * 10), Some(ReplicaMessage(r.isPaused, r.isSync)))
  }

  /**
   * A correctly-roled replica: its lag in milliseconds is ten times the
   * hundredths, it is healthy exactly when replay runs and the lag is at most
   * one second (inclusive), and its message reports pause or sync state.
   */
  lemma ReplicaVerdict(r: Replication)
    ensures var s := CheckNode(Probed(true, Ok(r)), ExpectReplica);
      && s.role == "replica"
      && s.lagMs == Some(RealLagCentis(r) * 10)
      && (s.healthy <==> !r.isPaused && RealLagCentis(r) <= MaxLagCentis)
      && s.message == Some(if r.isPaused then "Replay paused" else if r.isSync then "In sync" else "Syncing...")
  {
  }

  /**
   * The threshold boundary on the raw age of a replica that is not in sync:
   * up to 1.004999 s rounds to 1.00 and is healthy, from 1.005 s on it rounds
   * above and is not. An in-sync replica has lag 0 whatever its age. A
   * paused replica is unhealthy at any lag.
   */
  lemma LagBoundary(isPaused: bool, isSync: bool, ageUs: int)
    ensures var s := CheckNode(Probed(true, Ok(Replication(isPaused, isSync, Some(ageUs)))), ExpectReplica);
      && (isPaused ==> !s.healthy)
      && (isSync ==> s.lagMs == Some(0) && (s.healthy <==> !isPaused))
      && (!isPaused && !isSync && 0 <= ageUs ==> (s.healthy <==> ageUs < 1005000))
  {
  }

  /**
   * Replay age from a skewed clock: a running, not-in-sync replica whose last
   * replayed transaction lies in the future is healthy, and its `lag_ms` is
   * the negative (or zero) rounded age times ten.
   */
  lemma NegativeAgeVerdict(ageUs: int)
    requires ageUs < 0
    ensures var s := CheckNode(Probed(true, Ok(Replication(false, false, Some(ageUs)))), ExpectReplica);
      && s.healthy
      && s.lagMs == Some(RoundToCentis(ageUs) * 10)
      && s.lagMs.value <= 0
      && (ageUs <= -5000 ==> s.lagMs.value < 0)
  {
  }

  /**
   * A configured node: its name (the role symbol) and the host that is
   * probed; the probe outcome for a node is an input of the cycle.
   */
  datatype Node = Node(name: string, host: string)

  /** NODES with the hosts' default values. */
  const Nodes: seq<Node> := [Node("primary", "postgres-primary"), Node("replica_1", "postgres-replica1"), Node("replica_2", "postgres-replica2")]

  /** The role a node is expected to have: primary for `:primary`, replica for every other name. */
  function ExpectedRoleOf(name: string): (e: ExpectedRole)
    ensures e == ExpectPrimary <==> name == "primary"
  {
    if name == "primary" then ExpectPrimary else ExpectReplica
  }

  /** The store's contents after writing every node in order. */
  function Published(records: map<string, Status>, nodes: seq<Node>, probes: seq<Probe>): map<string, Status>
    requires |probes| == |nodes|
    decreases |nodes|
  {
    if nodes == [] then records
    else
      var status := CheckNode(probes[0], ExpectedRoleOf(nodes[0].name));
      Published(records[Key(nodes[0].name) := status], nodes[1..], probes[1..])
  }

  predicate DistinctNames(nodes: seq<Node>)
  {
    forall i, j :: 0 <= i < j < |nodes| ==> nodes[i].name != nodes[j].name
  }

  /**
   * After a cycle over nodes with distinct names, every node's key holds the
   * verdict for its own probe, written unconditionally, and every other key
   * is as it was.
   */
  lemma {:induction false} PublishedRecords(records: map<string, Status>, nodes: seq<Node>, probes: seq<Probe>)
    requires |probes| == |nodes| && DistinctNames(nodes)
    ensures forall i :: 0 <= i < |nodes| ==>
              Key(nodes[i].name) in Published(records, nodes, probes) &&
              Published(records, nodes, probes)[Key(nodes[i].name)] == CheckNode(probes[i], ExpectedRoleOf(nodes[i].name))
    ensures forall k :: (forall i :: 0 <= i < |nodes| ==> k != Key(nodes[i].name)) ==>
              (k in Published(records, nodes, probes) <==> k in records) &&
              (k in records ==> Published(records, nodes, probes)[k] == records[k])
    decreases |nodes|
  {
    if nodes != [] {
      var head := Key(nodes[0].name);
      var records' := records[head := CheckNode(probes[0], ExpectedRoleOf(nodes[0].name))];
      PublishedRecords(records', nodes[1..], probes[1..]);
      var result := Published(records, nodes, probes);
      assert result == Published(records', nodes[1..], probes[1..]);
      forall i | 1 <= i < |nodes| ensures head != Key(nodes[i].name) {
        if head == Key(nodes[i].name) {
          KeyInjective(nodes[0].name, nodes[i].name);
        }
      }
      assert nodes[1..][0..] == nodes[1..];
      forall i | 0 <= i < |nodes|
        ensures Key(nodes[i].name) in result && result[Key(nodes[i].name)] == CheckNode(probes[i], ExpectedRoleOf(nodes[i].name))
      {
        if i > 0 {
          assert nodes[1..][i - 1] == nodes[i] && probes[1..][i - 1] == probes[i];
        } else {
          assert forall j :: 0 <= j < |nodes[1..]| ==> head != Key(nodes[1..][j].name);
        }
      }
      forall k | forall i :: 0 <= i < |nodes| ==> k != Key(nodes[i].name)
        ensures (k in result <==> k in records) && (k in records ==> result[k] == records[k])
      {
        assert k != head;
        forall j | 0 <= j < |nodes[1..]| ensures k != Key(nodes[1..][j].name) {
          assert nodes[1..][j] == nodes[j + 1];
        }
      }
    }
  }

  /** The status store the monitor writes to (`$redis`). */
  class StatusStore {
    var records: map<string, Status>
    /** Every key written so far, in order, including rewrites of an unchanged record. */
    ghost var writes: seq<string>

    constructor ()
      ensures records == map[] && writes == []
    {
      records := map[];
      writes := [];
    }

    /** `set(key, status.to_json)`. */
    method Set(key: string, status: Status)
      modifies this
      ensures records == old(records)[key := status]
      ensures writes == old(writes) + [key]
    {
      records := records[key := status];
      writes := writes + [key];
    }
  }

  /** The keys of the nodes, in order: one write each. */
  function NodeKeys(nodes: seq<Node>): (keys: seq<string>)
    ensures |keys| == |nodes|
    ensures forall i :: 0 <= i < |nodes| ==> keys[i] == Key(nodes[i].name)
  {
    seq(|nodes|, i requires 0 <= i < |nodes| => Key(nodes[i].name))
  }

  /** One pass of the monitor loop: classify each node in order and write its record. */
  method PublishCycle(redis: StatusStore, nodes: seq<Node>, probes: seq<Probe>)
    requires |probes| == |nodes|
    modifies redis
    ensures redis.records == Published(old(redis.records), nodes, probes)
    ensures redis.writes == old(redis.writes) + NodeKeys(nodes)
  {
    var i := 0;
    while i < |nodes|
      invariant 0 <= i <= |nodes|
      invariant Published(old(redis.records), nodes, probes) == Published(redis.records, nodes[i..], probes[i..])
      invariant redis.writes == old(redis.writes) + NodeKeys(nodes[..i])
    {
      assert NodeKeys(nodes[..i + 1]) == NodeKeys(nodes[..i]) + [Key(nodes[i].name)];
      var node := nodes[i];
      var status := CheckNode(probes[i], ExpectedRoleOf(node.name));
      assert nodes[i..][1..] == nodes[i + 1..] && probes[i..][1..] == probes[i + 1..];
      redis.Set(Key(node.name), status);
      i := i + 1;
    }
    assert nodes[..i] == nodes;
  }

  /** The default node list: `primary` is checked as a primary, both replicas as replicas. */
  lemma DefaultNodesPublished(records: map<string, Status>, probes: seq<Probe>)
    requires |probes| == |Nodes|
    ensures var after := Published(records, Nodes, probes);
      && Key("primary") in after && after[Key("primary")] == CheckNode(probes[0], ExpectPrimary)
      && Key("replica_1") in after && after[Key("replica_1")] == CheckNode(probes[1], ExpectReplica)
      && Key("replica_2") in after && after[Key("replica_2")] == CheckNode(probes[2], ExpectReplica)
  {
    PublishedRecords(records, Nodes, probes);
    assert Nodes[0].name == "primary" && Nodes[1].name == "replica_1" && Nodes[2].name == "replica_2";
  }

  /**
   * The monitor's first cycle against an empty store: afterwards the store
   * holds exactly the three nodes' records, each the verdict on its own probe.
   */
  method FirstCycle(probes: seq<Probe>) returns (records: map<string, Status>)
    requires |probes| == |Nodes|
    ensures records.Keys == {Key("primary"), Key("replica_1"), Key("replica_2")}
    ensures records[Key("primary")] == CheckNode(probes[0], ExpectPrimary)
    ensures records[Key("replica_1")] == CheckNode(probes[1], ExpectReplica)
    ensures records[Key("replica_2")] == CheckNode(probes[2], ExpectReplica)
  {
    var redis := new StatusStore();
    PublishCycle(redis, Nodes, probes);
    records := redis.records;
    var empty: map<string, Status> := map[];
    DefaultNodesPublished(empty, probes);
    PublishedRecords(empty, Nodes, probes);
    assert forall k :: k in records ==> exists i :: 0 <= i < |Nodes| && k == Key(Nodes[i].name);
  }
}

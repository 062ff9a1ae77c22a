/**
 * Monitor and router together: the records one monitor cycle writes are
 * read back by the router, which then routes to exactly the replicas the
 * monitor called healthy.
 */
module Pipeline {
  import opened Wrappers
  import opened StatusRecords
  import opened HealthCheck
  import opened LoadBalancer

  /** What a router reads from a record the monitor wrote: `status.to_json` parses, and its `"healthy"` is the verdict. */
  function ReadBack(records: map<string, Status>): (m: map<string, StoredValue>)
    ensures m.Keys == records.Keys
    ensures forall k :: k in m ==> m[k] == Parsed(records[k].healthy)
  {
    map k | k in records :: Parsed(records[k].healthy)
  }

  /**
   * Records written by the monitor never open the breaker: with the store up
   * and the cache stale, the router fetches successfully and caches the
   * replicas whose record says healthy.
   */
  lemma MonitorRecordsAreFetched(records: map<string, Status>, replicas: seq<string>, s: RouterState, now: int)
    requires !CacheFresh(s, now) && !CircuitOpen(s, now)
    ensures var d := Decide(replicas, s, now, Store(ReadBack(records), None));
      && d.source == Fetched
      && forall r :: r in d.next.cachedHealthyRoles <==> r in replicas && Key(r) in records && records[Key(r)].healthy
  {
    var store := Store(ReadBack(records), None);
    ScanOutcome(store, replicas);
    HealthyReplicasMembers(store.records, replicas);
  }

  /**
   * After one monitor cycle over nodes with distinct names, a router reading
   * that store picks its healthy list from exactly those configured replicas
   * whose own probe `check_node` judged healthy.
   */
  lemma CycleThenRoute(before: map<string, Status>, nodes: seq<Node>, probes: seq<Probe>, replicas: seq<string>, s: RouterState, now: int)
    requires |probes| == |nodes| && DistinctNames(nodes)
    requires !CacheFresh(s, now) && !CircuitOpen(s, now)
    ensures var d := Decide(replicas, s, now, Store(ReadBack(Published(before, nodes, probes)), None));
      forall i :: 0 <= i < |nodes| && nodes[i].name in replicas ==>
        (nodes[i].name in d.next.cachedHealthyRoles <==> CheckNode(probes[i], ExpectedRoleOf(nodes[i].name)).healthy)
  {
    PublishedRecords(before, nodes, probes);
    MonitorRecordsAreFetched(Published(before, nodes, probes), replicas, s, now);
  }
}

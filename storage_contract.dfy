/**
 * What the two map-backed stores share: the error they return, the invariant
 * that every record is filed under its own id, the filter and the shape of a
 * listing, and the effect of the cascading cluster delete.
 */
module StorageContract {
  import opened Api

  datatype ErrorKind = Duplicate | Missing | IdRequired

  /** An error returned by a store: its kind and its message text. */
  datatype StoreError = StoreError(kind: ErrorKind, message: string)

  /** Every stored agent is filed under its own id. */
  predicate AgentsKeyed(m: map<string, Agent>) {
    forall k | k in m :: m[k].id == k
  }

  /** Every stored cluster is filed under its own id. */
  predicate ClustersKeyed(m: map<string, Cluster>) {
    forall k | k in m :: m[k].id == k
  }

  /** The filter of ListAgents: the empty cluster id selects every agent. */
  predicate InCluster(a: Agent, clusterId: string) {
    clusterId == "" || a.clusterId == clusterId
  }

  /** r lists the agents of m that pass the filter, each exactly once, in some order. */
  ghost predicate IsAgentListing(m: map<string, Agent>, clusterId: string, r: seq<Agent>) {
    && (forall j | 0 <= j < |r| :: r[j].id in m && m[r[j].id] == r[j] && InCluster(r[j], clusterId))
    && (forall j, j' | 0 <= j < j' < |r| :: r[j].id != r[j'].id)
    && (forall k | k in m && InCluster(m[k], clusterId) :: exists j :: 0 <= j < |r| && r[j].id == k)
  }

  /** r lists the clusters of m, each exactly once, in some order. */
  ghost predicate IsClusterListing(m: map<string, Cluster>, r: seq<Cluster>) {
    && (forall j | 0 <= j < |r| :: r[j].id in m && m[r[j].id] == r[j])
    && (forall j, j' | 0 <= j < j' < |r| :: r[j].id != r[j'].id)
    && (forall k | k in m :: exists j :: 0 <= j < |r| && r[j].id == k)
  }

  /** The agents that survive deleting cluster clusterId. */
  function WithoutCluster(m: map<string, Agent>, clusterId: string): map<string, Agent> {
    map k | k in m && m[k].clusterId != clusterId :: m[k]
  }

  /** The ids a listing mentions. */
  function AgentIds(r: seq<Agent>): set<string> {
    set j | 0 <= j < |r| :: r[j].id
  }

  lemma {:induction false} DistinctIdsCount(r: seq<Agent>)
    requires forall j, j' | 0 <= j < j' < |r| :: r[j].id != r[j'].id
    ensures |AgentIds(r)| == |r|
  {
    if r != [] {
      var front := r[..|r| - 1];
      DistinctIdsCount(front);
      assert AgentIds(r) == AgentIds(front) + {r[|r| - 1].id};
      assert r[|r| - 1].id !in AgentIds(front);
    }
  }

  /** Listing with the empty filter returns every stored agent, once each. */
  lemma ListAllIsComplete(m: map<string, Agent>, r: seq<Agent>)
    requires AgentsKeyed(m)
    requires IsAgentListing(m, "", r)
    ensures AgentIds(r) == m.Keys
    ensures |r| == |m|
  {
    forall k | k in m ensures k in AgentIds(r) {
      assert InCluster(m[k], "");
      var j :| 0 <= j < |r| && r[j].id == k;
    }
    DistinctIdsCount(r);
  }

  /** A cluster-filtered listing holds only agents of that cluster, and every one of them. */
  lemma ListClusterIsExact(m: map<string, Agent>, clusterId: string, r: seq<Agent>, a: Agent)
    requires clusterId != ""
    requires IsAgentListing(m, clusterId, r)
    ensures a in r ==> a.clusterId == clusterId && a.id in m && m[a.id] == a
    ensures a.id in m && m[a.id] == a && a.clusterId == clusterId ==> a in r
  {
    if a.id in m && m[a.id] == a && a.clusterId == clusterId {
      assert InCluster(m[a.id], clusterId);
      var j :| 0 <= j < |r| && r[j].id == a.id;
      assert r[j] == a;
    }
  }

  /**
   * The cascade removes exactly the agents of the deleted cluster, leaves none
   * of them behind and keeps the store filed by id; a second cascade for the
   * same cluster removes nothing more.
   */
  lemma CascadeIsExact(m: map<string, Agent>, clusterId: string, k: string)
    requires AgentsKeyed(m)
    ensures k in WithoutCluster(m, clusterId) <==> k in m && m[k].clusterId != clusterId
    ensures k in WithoutCluster(m, clusterId) ==> WithoutCluster(m, clusterId)[k] == m[k]
    ensures AgentsKeyed(WithoutCluster(m, clusterId))
    ensures forall j | j in WithoutCluster(m, clusterId) :: WithoutCluster(m, clusterId)[j].clusterId != clusterId
    ensures WithoutCluster(WithoutCluster(m, clusterId), clusterId) == WithoutCluster(m, clusterId)
  {
  }
}

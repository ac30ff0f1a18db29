/**
 * The in-memory storage backend: two maps, clusters and agents, updated in
 * place. Creation rejects duplicates (and, for agents, an empty id); update,
 * get and delete reject a missing id; deleting a cluster cascades to its agents.
 */
module MemoryStorage {
  import opened Wrappers
  import opened Api
  import opened StorageContract

  class Storage {
    var clusters: map<string, Cluster>
    var agents: map<string, Agent>

    ghost predicate Valid()
      reads this
    {
      ClustersKeyed(clusters) && AgentsKeyed(agents)
    }

    constructor ()
      ensures Valid()
      ensures clusters == map[] && agents == map[]
    {
      clusters := map[];
      agents := map[];
    }

    method CreateCluster(cluster: Cluster) returns (err: Option<StoreError>)
      requires Valid()
      modifies this
      ensures Valid() && agents == old(agents)
      ensures cluster.id in old(clusters) ==>
        err == Some(StoreError(Duplicate, "cluster with ID " + cluster.id + " already exists")) && clusters == old(clusters)
      ensures cluster.id !in old(clusters) ==> err == None && clusters == old(clusters)[cluster.id := cluster]
    {
      if cluster.id in clusters {
        return Some(StoreError(Duplicate, "cluster with ID " + cluster.id + " already exists"));
      }
      clusters := clusters[cluster.id := cluster];
      return None;
    }

    method GetCluster(id: string) returns (r: Result<Cluster, StoreError>)
      ensures id in clusters ==> r == Success(clusters[id])
      ensures id !in clusters ==> r == Failure(StoreError(Missing, "cluster with ID " + id + " not found"))
    {
      if id !in clusters {
        return Failure(StoreError(Missing, "cluster with ID " + id + " not found"));
      }
      return Success(clusters[id]);
    }

    method ListClusters() returns (r: seq<Cluster>)
      requires Valid()
      ensures IsClusterListing(clusters, r)
    {
      r := [];
      var pending := clusters.Keys;
      while pending != {}
        invariant pending <= clusters.Keys
        invariant forall j | 0 <= j < |r| :: r[j].id in clusters && r[j].id !in pending && clusters[r[j].id] == r[j]
        invariant forall j, j' | 0 <= j < j' < |r| :: r[j].id != r[j'].id
        invariant forall k | k in clusters && k !in pending :: exists j :: 0 <= j < |r| && r[j].id == k
        decreases pending
      {
        var id :| id in pending;
        ghost var before := r;
        r := r + [clusters[id]];
        assert r[|before|].id == id;
        assert forall j | 0 <= j < |before| :: r[j] == before[j];
        pending := pending - {id};
      }
    }

    method UpdateCluster(cluster: Cluster) returns (err: Option<StoreError>)
      requires Valid()
      modifies this
      ensures Valid() && agents == old(agents)
      ensures cluster.id !in old(clusters) ==>
        err == Some(StoreError(Missing, "cluster with ID " + cluster.id + " not found")) && clusters == old(clusters)
      ensures cluster.id in old(clusters) ==> err == None && clusters == old(clusters)[cluster.id := cluster]
    {
      if cluster.id !in clusters {
        return Some(StoreError(Missing, "cluster with ID " + cluster.id + " not found"));
      }
      clusters := clusters[cluster.id := cluster];
      return None;
    }

    /** Removes the cluster and, first, every agent that belongs to it. */
    method DeleteCluster(id: string) returns (err: Option<StoreError>)
      requires Valid()
      modifies this
      ensures Valid()
      ensures id !in old(clusters) ==>
        err == Some(StoreError(Missing, "cluster with ID " + id + " not found"))
        && clusters == old(clusters) && agents == old(agents)
      ensures id in old(clusters) ==>
        err == None && clusters == old(clusters) - {id} && agents == WithoutCluster(old(agents), id)
    {
      if id !in clusters {
        return Some(StoreError(Missing, "cluster with ID " + id + " not found"));
      }
      var pending := agents.Keys;
      while pending != {}
        invariant pending <= agents.Keys
        invariant clusters == old(clusters)
        invariant forall k | k in agents :: k in old(agents) && agents[k] == old(agents)[k]
        invariant forall k | k in old(agents) && k !in pending :: k in agents <==> old(agents)[k].clusterId != id
        decreases pending
      {
        var agentId :| agentId in pending;
        if agents[agentId].clusterId == id {
          agents := agents - {agentId};
        }
        pending := pending - {agentId};
      }
      assert agents == WithoutCluster(old(agents), id);
      clusters := clusters - {id};
      return None;
    }

    method ClusterExists(id: string) returns (exists_: bool)
      ensures exists_ <==> id in clusters
    {
      return id in clusters;
    }

    method CreateAgent(agent: Agent) returns (err: Option<StoreError>)
      requires Valid()
      modifies this
      ensures Valid() && clusters == old(clusters)
      ensures agent.id == "" ==> err == Some(StoreError(IdRequired, "agent ID is required")) && agents == old(agents)
      ensures agent.id != "" && agent.id in old(agents) ==>
        err == Some(StoreError(Duplicate, "agent with ID " + agent.id + " already exists")) && agents == old(agents)
      ensures agent.id != "" && agent.id !in old(agents) ==> err == None && agents == old(agents)[agent.id := agent]
    {
      if agent.id == "" {
        return Some(StoreError(IdRequired, "agent ID is required"));
      }
      if agent.id in agents {
        return Some(StoreError(Duplicate, "agent with ID " + agent.id + " already exists"));
      }
      agents := agents[agent.id := agent];
      return None;
    }

    method GetAgent(id: string) returns (r: Result<Agent, StoreError>)
      ensures id in agents ==> r == Success(agents[id])
      ensures id !in agents ==> r == Failure(StoreError(Missing, "agent not found: " + id))
    {
      if id !in agents {
        return Failure(StoreError(Missing, "agent not found: " + id));
      }
      return Success(agents[id]);
    }

    method ListAgents(clusterId: string) returns (r: seq<Agent>)
      requires Valid()
      ensures IsAgentListing(agents, clusterId, r)
    {
      r := [];
      var pending := agents.Keys;
      while pending != {}
        invariant pending <= agents.Keys
        invariant forall j | 0 <= j < |r| ::
          r[j].id in agents && r[j].id !in pending && agents[r[j].id] == r[j] && InCluster(r[j], clusterId)
        invariant forall j, j' | 0 <= j < j' < |r| :: r[j].id != r[j'].id
        invariant forall k | k in agents && k !in pending && InCluster(agents[k], clusterId) ::
          exists j :: 0 <= j < |r| && r[j].id == k
        decreases pending
      {
        var id :| id in pending;
        var agent := agents[id];
        if clusterId == "" || agent.clusterId == clusterId {
          ghost var before := r;
          r := r + [agent];
          assert r[|before|].id == id;
          assert forall j | 0 <= j < |before| :: r[j] == before[j];
        }
        pending := pending - {id};
      }
    }

    method UpdateAgent(agent: Agent) returns (err: Option<StoreError>)
      requires Valid()
      modifies this
      ensures Valid() && clusters == old(clusters)
      ensures agent.id !in old(agents) ==>
        err == Some(StoreError(Missing, "agent not found: " + agent.id)) && agents == old(agents)
      ensures agent.id in old(agents) ==> err == None && agents == old(agents)[agent.id := agent]
    {
      if agent.id !in agents {
        return Some(StoreError(Missing, "agent not found: " + agent.id));
      }
      agents := agents[agent.id := agent];
      return None;
    }

    method DeleteAgent(id: string) returns (err: Option<StoreError>)
      requires Valid()
      modifies this
      ensures Valid() && clusters == old(clusters)
      ensures id !in old(agents) ==> err == Some(StoreError(Missing, "agent not found: " + id)) && agents == old(agents)
      ensures id in old(agents) ==> err == None && agents == old(agents) - {id}
    {
      if id !in agents {
        return Some(StoreError(Missing, "agent not found: " + id));
      }
      agents := agents - {id};
      return None;
    }
  }
}

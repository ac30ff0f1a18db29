/**
 * The liveness monitor: one sweep over a snapshot of every stored agent that
 * demotes ACTIVE agents silent for longer than three poll intervals to
 * INACTIVE, and writes only those.
 */
module Monitor {
  import opened Wrappers
  import opened Api
  import opened StorageContract
  import MemoryStorage
  import Agents

  /** The poll interval agents are expected to keep, in seconds. */
  const PollIntervalSeconds := 60
  /** How many missed polls make an agent inactive. */
  const InactiveThresholdMultiplier := 3
  /** Silence longer than this (strictly) makes an ACTIVE agent INACTIVE. */
  const InactiveThresholdSeconds := PollIntervalSeconds * InactiveThresholdMultiplier

  /** An agent the sweep demotes: seen at some time, more than the threshold ago, and still ACTIVE. */
  predicate IsStale(a: Agent, now: Timestamp) {
    a.lastSeen.Some? && now - a.lastSeen.value > InactiveThresholdSeconds && a.status == Active
  }

  /** The sweep's decision for one agent. */
  function Demote(a: Agent, now: Timestamp): (r: Agent)
    ensures r.(status := a.status) == a
    ensures r.status != a.status ==> a.status == Active && r.status == Inactive
    ensures r.status == Inactive <==> a.status == Inactive || IsStale(a, now)
  {
    if IsStale(a, now) then a.(status := Inactive) else a
  }

  /** The agent map after one sweep at time now. */
  function Swept(m: map<string, Agent>, now: Timestamp): (r: map<string, Agent>)
    ensures r.Keys == m.Keys
    ensures forall k | k in m :: r[k].(status := m[k].status) == m[k] && (r[k] != m[k] <==> IsStale(m[k], now))
  {
    map k | k in m :: Demote(m[k], now)
  }

  /** The agent map once the sweep has visited the first n agents of its listing. */
  ghost function SweptPrefix(m: map<string, Agent>, agents: seq<Agent>, n: nat, now: Timestamp): map<string, Agent>
    requires n <= |agents|
  {
    if n == 0 then m
    else
      var a := agents[n - 1];
      var before := SweptPrefix(m, agents, n - 1, now);
      if IsStale(a, now) then before[a.id := Demote(a, now)] else before
  }

  /** The ids the sweep has written back once it has visited the first n agents of its listing. */
  ghost function WrittenPrefix(agents: seq<Agent>, n: nat, now: Timestamp): set<string>
    requires n <= |agents|
  {
    if n == 0 then {}
    else if IsStale(agents[n - 1], now) then WrittenPrefix(agents, n - 1, now) + {agents[n - 1].id}
    else WrittenPrefix(agents, n - 1, now)
  }

  /**
   * Visiting the first n listed agents demotes exactly the stale ones among
   * them, leaves the rest of the listing as listed, and adds no key.
   */
  lemma {:induction false} SweptPrefixIsPointwise(m: map<string, Agent>, agents: seq<Agent>, n: nat, now: Timestamp)
    requires n <= |agents|
    requires forall j | 0 <= j < |agents| :: agents[j].id in m && m[agents[j].id] == agents[j]
    requires forall j, j' | 0 <= j < j' < |agents| :: agents[j].id != agents[j'].id
    ensures SweptPrefix(m, agents, n, now).Keys == m.Keys
    ensures forall j | 0 <= j < |agents| ::
      SweptPrefix(m, agents, n, now)[agents[j].id] == if j < n then Demote(agents[j], now) else agents[j]
    ensures WrittenPrefix(agents, n, now) <= m.Keys
    ensures forall j | 0 <= j < |agents| :: agents[j].id in WrittenPrefix(agents, n, now) <==> j < n && IsStale(agents[j], now)
  {
    if n > 0 {
      SweptPrefixIsPointwise(m, agents, n - 1, now);
    }
  }

  /**
   * What the sweep did to each listed agent it did to every stored agent,
   * since a listing with the empty filter names every one of them.
   */
  lemma SweepOfListing(snapshot: map<string, Agent>, agents: seq<Agent>, result: map<string, Agent>,
                       written: set<string>, now: Timestamp)
    requires IsAgentListing(snapshot, "", agents)
    requires result.Keys == snapshot.Keys
    requires forall j | 0 <= j < |agents| :: result[agents[j].id] == Demote(agents[j], now)
    requires forall j | 0 <= j < |agents| :: agents[j].id in written <==> IsStale(agents[j], now)
    ensures result == Swept(snapshot, now)
    ensures forall k | k in snapshot :: k in written <==> IsStale(snapshot[k], now)
  {
    forall k | k in snapshot
      ensures result[k] == Demote(snapshot[k], now)
      ensures k in written <==> IsStale(snapshot[k], now)
    {
      assert InCluster(snapshot[k], "");
      var j :| 0 <= j < |agents| && agents[j].id == k;
    }
  }

  class AgentMonitor {
    const store: MemoryStorage.Storage

    constructor (store: MemoryStorage.Storage)
      ensures this.store == store
    {
      this.store := store;
    }

    /**
     * One sweep. The ghost result is the set of agent ids written back: exactly
     * the agents the sweep demotes.
     */
    method CheckAgentStates(now: Timestamp) returns (ghost written: set<string>)
      requires store.Valid()
      modifies store
      ensures store.Valid() && store.clusters == old(store.clusters)
      ensures store.agents == Swept(old(store.agents), now)
      ensures written <= old(store.agents).Keys
      ensures forall k | k in old(store.agents) :: k in written <==> IsStale(old(store.agents)[k], now)
    {
      var agents := store.ListAgents("");
      ghost var snapshot := store.agents;
      written := SweepListed(agents, now);
      SweptPrefixIsPointwise(snapshot, agents, |agents|, now);
      SweepOfListing(snapshot, agents, store.agents, written, now);
    }

    /**
     * The loop of one sweep over the agents listed at its start: a stale agent
     * is demoted and written back, any other agent is skipped.
     */
    method SweepListed(agents: seq<Agent>, now: Timestamp) returns (ghost written: set<string>)
      requires store.Valid()
      requires forall j | 0 <= j < |agents| :: agents[j].id in store.agents
      modifies store
      ensures store.Valid() && store.clusters == old(store.clusters)
      ensures store.agents == SweptPrefix(old(store.agents), agents, |agents|, now)
      ensures written == WrittenPrefix(agents, |agents|, now)
    {
      written := {};
      for i := 0 to |agents|
        invariant store.Valid() && store.clusters == old(store.clusters)
        invariant store.agents.Keys == old(store.agents).Keys
        invariant store.agents == SweptPrefix(old(store.agents), agents, i, now)
        invariant written == WrittenPrefix(agents, i, now)
      {
        var agent := agents[i];
        if agent.lastSeen.None? {
          continue;
        }
        var sinceLastSeen := now - agent.lastSeen.value;
        if sinceLastSeen > InactiveThresholdSeconds && agent.status == Active {
          agent := agent.(status := Inactive);
          var err := store.UpdateAgent(agent);
          // a failed write would only be logged and the sweep would go on; with
          // the keys unchanged since the listing it cannot fail
          assert err.None?;
          written := written + {agent.id};
        }
      }
    }

    /** The entry point the tests use: one sweep. */
    method CheckAgentStatesOnce(now: Timestamp)
      requires store.Valid()
      modifies store
      ensures store.Valid() && store.clusters == old(store.clusters)
      ensures store.agents == Swept(old(store.agents), now)
    {
      var _ := CheckAgentStates(now);
    }
  }
}

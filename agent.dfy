/**
 * The agent service: registration (an upsert guarded by request validation and
 * a cluster-existence check), the poll that ingests a result, refreshes the
 * heartbeat and hands out instructions, and the get / list / unregister calls.
 *
 * The behaviour is first stated as a state machine over the agent map
 * (functions `Register` and `Poll`, each giving the response and the map it
 * leaves), and the service class, which works step by step against the mock
 * store, is proved to follow it.
 */
module Agents {
  import opened Wrappers
  import opened Api
  import opened StorageContract
  import MockStorage

  /** The poll interval a successful poll recommends, in seconds. */
  const DefaultPollIntervalSeconds := 60

  /** What one operation returns and the agent map it leaves behind. */
  datatype Step<T> = Step(result: Result<T, RpcError>, agents: map<string, Agent>)

  /** The agent id is checked before the cluster id. */
  function ValidateRegisterRequest(req: RegisterAgentRequest): (r: Outcome<string>)
    ensures r.Pass? <==> req.id != "" && req.clusterId != ""
    ensures req.id == "" ==> r == Fail("agent ID is required")
    ensures req.id != "" && req.clusterId == "" ==> r == Fail("cluster ID is required")
  {
    if req.id == "" then Fail("agent ID is required")
    else if req.clusterId == "" then Fail("cluster ID is required")
    else Pass
  }

  /** The record a first registration creates. */
  function NewAgent(req: RegisterAgentRequest, now: Timestamp): (a: Agent)
    ensures a.id == req.id && a.clusterId == req.clusterId && a.hostname == req.hostname
    ensures a.ipAddress == req.ipAddress && a.version == req.version
    ensures a.status == Active && a.lastSeen == Some(now) && a.createdAt == Some(now) && a.updatedAt == Some(now)
    ensures !a.hardwareCollected && a.networkInterfaces == []
  {
    Agent(req.id, req.clusterId, req.hostname, req.ipAddress, req.version, Active,
          Some(now), Some(now), Some(now), false, [])
  }

  /** The record a successful registration leaves under `req.id`. */
  function Registered(agents: map<string, Agent>, req: RegisterAgentRequest, now: Timestamp): (a: Agent)
    requires AgentsKeyed(agents)
    ensures a.id == req.id && a.clusterId == req.clusterId && a.hostname == req.hostname
    ensures a.ipAddress == req.ipAddress && a.version == req.version
    ensures a.status == Active && a.lastSeen == Some(now) && a.updatedAt == Some(now)
    ensures req.id in agents ==>
      && a.createdAt == agents[req.id].createdAt
      && a.hardwareCollected == agents[req.id].hardwareCollected
      && a.networkInterfaces == agents[req.id].networkInterfaces
    ensures req.id !in agents ==> a == NewAgent(req, now)
  {
    if req.id in agents then
      agents[req.id].(clusterId := req.clusterId, hostname := req.hostname, ipAddress := req.ipAddress,
                      version := req.version, status := Active, lastSeen := Some(now), updatedAt := Some(now))
    else
      NewAgent(req, now)
  }

  /** RegisterAgent as a transition of the agent map, given the ids of the existing clusters. */
  function Register(agents: map<string, Agent>, clusterIds: set<string>, req: RegisterAgentRequest, now: Timestamp)
    : (s: Step<Agent>)
    requires AgentsKeyed(agents)
    ensures AgentsKeyed(s.agents)
    ensures s.result.Failure? ==> s.agents == agents
    ensures s.result.Success? ==> s.result.value.id == req.id && s.agents == agents[req.id := s.result.value]
  {
    match ValidateRegisterRequest(req)
    case Fail(message) => Step(Failure(InvalidArgument(message)), agents)
    case Pass =>
      if req.clusterId !in clusterIds then
        Step(Failure(NotFound("cluster " + req.clusterId + " not found")), agents)
      else
        var a := Registered(agents, req, now);
        Step(Success(a), agents[req.id := a])
  }

  /** A poll ingests a result only when it names the instruction and carries data. */
  predicate CarriesResult(req: GetInstructionsRequest) {
    req.lastInstructionId != "" && req.resultData != ""
  }

  /** The agent after a result is applied, and whether the result could be processed. */
  datatype Processed = Processed(agent: Agent, ok: bool)

  /**
   * A hardware result replaces the NIC list wholesale (even with an empty
   * list) and marks hardware as collected; a result of any other type changes
   * nothing; a result that does not decode changes nothing and is reported.
   */
  function ProcessInstructionResult(a: Agent, result: DecodedResult): (p: Processed)
    ensures p.ok <==> !result.Malformed?
    ensures p.agent.(networkInterfaces := a.networkInterfaces, hardwareCollected := a.hardwareCollected) == a
    ensures result.Hardware? ==> p.agent.hardwareCollected && p.agent.networkInterfaces == result.nics
    ensures !result.Hardware? ==> p.agent == a
  {
    match result
    case Hardware(nics) => Processed(a.(networkInterfaces := nics, hardwareCollected := true), true)
    case Other(_) => Processed(a, true)
    case Malformed => Processed(a, false)
  }

  /** The heartbeat a successful poll records: active, seen and updated now, nothing else touched. */
  function Heartbeat(a: Agent, now: Timestamp): (b: Agent)
    ensures b.status == Active && b.lastSeen == Some(now) && b.updatedAt == Some(now)
    ensures b.(status := a.status, lastSeen := a.lastSeen, updatedAt := a.updatedAt) == a
  {
    a.(lastSeen := Some(now), updatedAt := Some(now), status := Active)
  }

  /** At most one instruction: collect hardware, offered exactly while it has not been collected. */
  function GenerateInstructions(a: Agent, instructionId: string, createdAt: Timestamp): (r: seq<Instruction>)
    ensures |r| == if a.hardwareCollected then 0 else 1
    ensures forall i | 0 <= i < |r| :: r[i] == Instruction(instructionId, CollectHardware, "{}", createdAt)
  {
    if !a.hardwareCollected then [Instruction(instructionId, CollectHardware, "{}", createdAt)] else []
  }

  /** The record a successful poll stores: the result ingested first, then the heartbeat. */
  function Polled(a: Agent, req: GetInstructionsRequest, result: DecodedResult, now: Timestamp): (b: Agent)
    ensures b.status == Active && b.lastSeen == Some(now) && b.updatedAt == Some(now)
    ensures CarriesResult(req) && result.Hardware? ==> b.hardwareCollected && b.networkInterfaces == result.nics
    ensures !(CarriesResult(req) && result.Hardware?) ==>
      b.hardwareCollected == a.hardwareCollected && b.networkInterfaces == a.networkInterfaces
    ensures b.(status := a.status, lastSeen := a.lastSeen, updatedAt := a.updatedAt,
               hardwareCollected := a.hardwareCollected, networkInterfaces := a.networkInterfaces) == a
  {
    var ingested := if CarriesResult(req) then ProcessInstructionResult(a, result).agent else a;
    Heartbeat(ingested, now)
  }

  /**
   * GetInstructions as a transition of the agent map. `result` is what the
   * request's result data decodes to, `instructionId` the fresh id and
   * `instructionTime` the clock reading an offered instruction gets.
   */
  function Poll(agents: map<string, Agent>, req: GetInstructionsRequest, result: DecodedResult,
                now: Timestamp, instructionId: string, instructionTime: Timestamp)
    : (s: Step<GetInstructionsResponse>)
    requires AgentsKeyed(agents)
    ensures AgentsKeyed(s.agents)
    ensures s.result.Failure? ==> s.agents == agents
    ensures s.result.Success? ==> req.agentId in agents && s.agents.Keys == agents.Keys
  {
    if req.agentId == "" then
      Step(Failure(InvalidArgument("agent ID is required")), agents)
    else if req.agentId !in agents then
      Step(Failure(NotFound("agent not found: " + req.agentId)), agents)
    else
      var a := Polled(agents[req.agentId], req, result, now);
      var response := GetInstructionsResponse(
        GenerateInstructions(a, instructionId, instructionTime), DefaultPollIntervalSeconds, now);
      Step(Success(response), agents[req.agentId := a])
  }

  class AgentService {
    const store: MockStorage.Storage

    constructor (store: MockStorage.Storage)
      ensures this.store == store
    {
      this.store := store;
    }

    method RegisterAgent(req: RegisterAgentRequest, now: Timestamp) returns (r: Result<Agent, RpcError>)
      requires store.Valid()
      modifies store
      ensures store.Valid() && store.clusters == old(store.clusters)
      ensures var s := Register(old(store.agents), old(store.clusters).Keys, req, now);
        r == s.result && store.agents == s.agents
    {
      var valid := ValidateRegisterRequest(req);
      if valid.Fail? {
        return Failure(InvalidArgument(valid.error));
      }
      var clusterExists := store.ClusterExists(req.clusterId);
      if !clusterExists {
        return Failure(NotFound("cluster " + req.clusterId + " not found"));
      }
      var existing := store.GetAgent(req.id);
      if existing.Success? {
        var agent := existing.value;
        agent := agent.(clusterId := req.clusterId);
        agent := agent.(hostname := req.hostname);
        agent := agent.(ipAddress := req.ipAddress);
        agent := agent.(version := req.version);
        agent := agent.(status := Active);
        agent := agent.(lastSeen := Some(now));
        agent := agent.(updatedAt := Some(now));
        var err := store.UpdateAgent(agent);
        assert err.None?;  // the agent was read under this id just before
        return Success(agent);
      }
      var agent := Agent(req.id, req.clusterId, req.hostname, req.ipAddress, req.version, Active,
                         Some(now), Some(now), Some(now), false, []);
      store.CreateAgent(agent);
      return Success(agent);
    }

    method GetAgent(id: string) returns (r: Result<Agent, RpcError>)
      ensures id == "" ==> r == Failure(InvalidArgument("agent ID is required"))
      ensures id != "" && id in store.agents ==> r == Success(store.agents[id])
      ensures id != "" && id !in store.agents ==> r == Failure(NotFound("agent not found: " + id))
    {
      if id == "" {
        return Failure(InvalidArgument("agent ID is required"));
      }
      var found := store.GetAgent(id);
      if found.Failure? {
        return Failure(NotFound("agent not found: " + id));
      }
      return Success(found.value);
    }

    method ListAgents(clusterId: string) returns (r: seq<Agent>)
      requires store.Valid()
      ensures IsAgentListing(store.agents, clusterId, r)
    {
      r := store.ListAgents(clusterId);
    }

    method UnregisterAgent(id: string) returns (r: Result<bool, RpcError>)
      requires store.Valid()
      modifies store
      ensures store.Valid() && store.clusters == old(store.clusters)
      ensures id == "" ==> r == Failure(InvalidArgument("agent ID is required")) && store.agents == old(store.agents)
      ensures id != "" && id !in old(store.agents) ==>
        r == Failure(NotFound("agent not found: " + id)) && store.agents == old(store.agents)
      ensures id != "" && id in old(store.agents) ==> r == Success(true) && store.agents == old(store.agents) - {id}
    {
      if id == "" {
        return Failure(InvalidArgument("agent ID is required"));
      }
      var err := store.DeleteAgent(id);
      if err.Some? {
        return Failure(NotFound("agent not found: " + id));
      }
      return Success(true);
    }

    method GetInstructions(req: GetInstructionsRequest, result: DecodedResult, now: Timestamp,
                           instructionId: string, instructionTime: Timestamp)
      returns (r: Result<GetInstructionsResponse, RpcError>)
      requires store.Valid()
      modifies store
      ensures store.Valid() && store.clusters == old(store.clusters)
      ensures var s := Poll(old(store.agents), req, result, now, instructionId, instructionTime);
        r == s.result && store.agents == s.agents
    {
      if req.agentId == "" {
        return Failure(InvalidArgument("agent ID is required"));
      }
      var found := store.GetAgent(req.agentId);
      if found.Failure? {
        return Failure(NotFound("agent not found: " + req.agentId));
      }
      var agent := found.value;
      if req.lastInstructionId != "" && req.resultData != "" {
        // a result that cannot be processed is only logged; the poll goes on
        var processed := ProcessInstructionResult(agent, result);
        agent := processed.agent;
      }
      agent := agent.(lastSeen := Some(now));
      agent := agent.(updatedAt := Some(now));
      agent := agent.(status := Active);
      var err := store.UpdateAgent(agent);
      assert err.None?;  // the agent was read under this id just before
      var instructions := GenerateInstructions(agent, instructionId, instructionTime);
      return Success(GetInstructionsResponse(instructions, DefaultPollIntervalSeconds, now));
    }
  }
}

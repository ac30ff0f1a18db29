/** Properties of the agent state machine: registration, polling and a full session. */
module AgentProperties {
  import opened Wrappers
  import opened Api
  import opened StorageContract
  import opened Agents

  /** The agent id is checked first, then the cluster id; a rejected request writes nothing. */
  lemma RegisterRequiresIds(agents: map<string, Agent>, clusterIds: set<string>, req: RegisterAgentRequest, now: Timestamp)
    requires AgentsKeyed(agents)
    ensures req.id == "" ==>
      Register(agents, clusterIds, req, now) == Step(Failure(InvalidArgument("agent ID is required")), agents)
    ensures req.id != "" && req.clusterId == "" ==>
      Register(agents, clusterIds, req, now) == Step(Failure(InvalidArgument("cluster ID is required")), agents)
  {
  }

  /** Registering into a cluster that does not exist is NotFound and reads or writes no agent. */
  lemma RegisterUnknownClusterWritesNothing(agents: map<string, Agent>, clusterIds: set<string>, req: RegisterAgentRequest, now: Timestamp)
    requires AgentsKeyed(agents)
    requires req.id != "" && req.clusterId != "" && req.clusterId !in clusterIds
    ensures Register(agents, clusterIds, req, now) ==
      Step(Failure(NotFound("cluster " + req.clusterId + " not found")), agents)
    ensures req.id !in agents ==> req.id !in Register(agents, clusterIds, req, now).agents
  {
  }

  /** A first registration creates an active agent whose three timestamps are all now and which has no hardware yet. */
  lemma FirstRegistration(agents: map<string, Agent>, clusterIds: set<string>, req: RegisterAgentRequest, now: Timestamp)
    requires AgentsKeyed(agents)
    requires req.id != "" && req.clusterId != "" && req.clusterId in clusterIds
    requires req.id !in agents
    ensures var s := Register(agents, clusterIds, req, now);
      && s.result.Success?
      && var a := s.result.value;
      && s.agents == agents[req.id := a]
      && a.id == req.id && a.clusterId == req.clusterId && a.hostname == req.hostname
      && a.ipAddress == req.ipAddress && a.version == req.version
      && a.status == Active
      && a.lastSeen == Some(now) && a.createdAt == Some(now) && a.updatedAt == Some(now)
      && !a.hardwareCollected && a.networkInterfaces == []
  {
  }

  /**
   * Re-registering overwrites the descriptive fields and the cluster, forces
   * ACTIVE and refreshes last_seen and updated_at, but keeps created_at and
   * the collected hardware.
   */
  lemma ReRegistration(agents: map<string, Agent>, clusterIds: set<string>, req: RegisterAgentRequest, now: Timestamp)
    requires AgentsKeyed(agents)
    requires req.id != "" && req.clusterId != "" && req.clusterId in clusterIds
    requires req.id in agents
    ensures var s := Register(agents, clusterIds, req, now);
      && s.result.Success?
      && var a, before := s.result.value, agents[req.id];
      && s.agents == agents[req.id := a]
      && a.id == req.id && a.clusterId == req.clusterId && a.hostname == req.hostname
      && a.ipAddress == req.ipAddress && a.version == req.version
      && a.status == Active && a.lastSeen == Some(now) && a.updatedAt == Some(now)
      && a.createdAt == before.createdAt
      && a.hardwareCollected == before.hardwareCollected
      && a.networkInterfaces == before.networkInterfaces
  {
  }

  /** Registering the same request twice converges: only last_seen and updated_at move. */
  lemma RegisterTwice(agents: map<string, Agent>, clusterIds: set<string>, req: RegisterAgentRequest, t1: Timestamp, t2: Timestamp)
    requires AgentsKeyed(agents)
    requires req.id != "" && req.clusterId != "" && req.clusterId in clusterIds
    ensures var s1 := Register(agents, clusterIds, req, t1);
      var s2 := Register(s1.agents, clusterIds, req, t2);
      && s1.result.Success? && s2.result.Success?
      && s2.result.value == s1.result.value.(lastSeen := Some(t2), updatedAt := Some(t2))
      && s2.agents == s1.agents[req.id := s2.result.value]
  {
    var s1 := Register(agents, clusterIds, req, t1);
    assert s1.agents[req.id] == s1.result.value;
  }

  /** A poll for an empty or unknown agent id fails and writes nothing. */
  lemma PollRejects(agents: map<string, Agent>, req: GetInstructionsRequest, result: DecodedResult,
                    now: Timestamp, instructionId: string, instructionTime: Timestamp)
    requires AgentsKeyed(agents)
    ensures req.agentId == "" ==>
      Poll(agents, req, result, now, instructionId, instructionTime) ==
      Step(Failure(InvalidArgument("agent ID is required")), agents)
    ensures req.agentId != "" && req.agentId !in agents ==>
      Poll(agents, req, result, now, instructionId, instructionTime) ==
      Step(Failure(NotFound("agent not found: " + req.agentId)), agents)
  {
  }

  /**
   * Whatever the agent's prior status, a successful poll leaves it ACTIVE
   * with last_seen == updated_at == server_time == now, recommends a 60 s
   * interval, offers the instructions derived from the stored record and
   * touches no other agent.
   */
  lemma PollIsHeartbeat(agents: map<string, Agent>, req: GetInstructionsRequest, result: DecodedResult,
                        now: Timestamp, instructionId: string, instructionTime: Timestamp)
    requires AgentsKeyed(agents)
    requires req.agentId != "" && req.agentId in agents
    ensures var s := Poll(agents, req, result, now, instructionId, instructionTime);
      && s.result.Success?
      && var a := s.agents[req.agentId];
      && a.status == Active && a.lastSeen == Some(now) && a.updatedAt == Some(now)
      && s.result.value.serverTime == now
      && s.result.value.pollIntervalSeconds == 60
      && s.result.value.instructions == GenerateInstructions(a, instructionId, instructionTime)
      && (forall k | k in agents && k != req.agentId :: s.agents[k] == agents[k])
  {
  }

  /**
   * A hardware result carried by a poll replaces the NIC list (even by an
   * empty one) and marks hardware collected before instructions are derived,
   * so the same poll already offers nothing; apart from the heartbeat, no
   * other field of the record changes.
   */
  lemma PollIngestsHardware(agents: map<string, Agent>, req: GetInstructionsRequest, nics: seq<Nic>,
                            now: Timestamp, instructionId: string, instructionTime: Timestamp)
    requires AgentsKeyed(agents)
    requires req.agentId != "" && req.agentId in agents && CarriesResult(req)
    ensures var s := Poll(agents, req, Hardware(nics), now, instructionId, instructionTime);
      && s.result.Success?
      && s.agents[req.agentId].hardwareCollected
      && s.agents[req.agentId].networkInterfaces == nics
      && s.agents[req.agentId] ==
         Heartbeat(agents[req.agentId].(networkInterfaces := nics, hardwareCollected := true), now)
      && s.result.value.instructions == []
  {
  }

  /**
   * A poll without a result, or with a result of another type or one that does
   * not decode, changes no hardware field, still records the heartbeat, and
   * offers hardware collection exactly when it is still missing.
   */
  lemma PollWithoutHardwareResult(agents: map<string, Agent>, req: GetInstructionsRequest, result: DecodedResult,
                                  now: Timestamp, instructionId: string, instructionTime: Timestamp)
    requires AgentsKeyed(agents)
    requires req.agentId != "" && req.agentId in agents
    requires !CarriesResult(req) || !result.Hardware?
    ensures var s := Poll(agents, req, result, now, instructionId, instructionTime);
      var before := agents[req.agentId];
      && s.result.Success?
      && s.agents[req.agentId] == Heartbeat(before, now)
      && s.result.value.instructions ==
         (if before.hardwareCollected then [] else [Instruction(instructionId, CollectHardware, "{}", instructionTime)])
  {
  }

  /**
   * One session: register agent-1 in an existing cluster, poll and receive one
   * COLLECT_HARDWARE instruction, poll again carrying a hardware result with
   * the NICs and receive nothing, poll once more and still receive nothing,
   * the NICs stored.
   */
  lemma HardwareCollectionSession(clusterId: string, hostname: string, nics: seq<Nic>,
                                  t0: Timestamp, t1: Timestamp, t2: Timestamp, t3: Timestamp,
                                  id1: string, id2: string, id3: string)
    requires clusterId != "" && id1 != ""
    ensures
      var reg := Register(map[], {clusterId}, RegisterAgentRequest("agent-1", clusterId, hostname, "", ""), t0);
      && reg.result.Success?
      && var p1 := Poll(reg.agents, GetInstructionsRequest("agent-1", "", ""), Malformed, t1, id1, t1);
      && p1.result.Success?
      && p1.result.value.instructions == [Instruction(id1, CollectHardware, "{}", t1)]
      && var p2 := Poll(p1.agents, GetInstructionsRequest("agent-1", id1, "{...}"), Hardware(nics), t2, id2, t2);
      && p2.result.Success? && p2.result.value.instructions == []
      && var p3 := Poll(p2.agents, GetInstructionsRequest("agent-1", "", ""), Malformed, t3, id3, t3);
      && p3.result.Success? && p3.result.value.instructions == []
      && p3.agents["agent-1"].networkInterfaces == nics
      && p3.agents["agent-1"].createdAt == Some(t0)
  {
    var req := RegisterAgentRequest("agent-1", clusterId, hostname, "", "");
    FirstRegistration(map[], {clusterId}, req, t0);
    var reg := Register(map[], {clusterId}, req, t0);
    var q1 := GetInstructionsRequest("agent-1", "", "");
    PollWithoutHardwareResult(reg.agents, q1, Malformed, t1, id1, t1);
    var p1 := Poll(reg.agents, q1, Malformed, t1, id1, t1);
    var q2 := GetInstructionsRequest("agent-1", id1, "{...}");
    PollIngestsHardware(p1.agents, q2, nics, t2, id2, t2);
    var p2 := Poll(p1.agents, q2, Hardware(nics), t2, id2, t2);
    PollWithoutHardwareResult(p2.agents, q1, Malformed, t3, id3, t3);
  }
}

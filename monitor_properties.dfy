/** Properties of the liveness sweep, alone and together with polling. */
module MonitorProperties {
  import opened Wrappers
  import opened Api
  import opened StorageContract
  import opened Monitor
  import Agents

  /** The threshold is three 60-second poll intervals. */
  lemma ThresholdIsThreePolls()
    ensures InactiveThresholdSeconds == 180
    ensures InactiveThresholdSeconds == Agents.DefaultPollIntervalSeconds * InactiveThresholdMultiplier
  {
  }

  /**
   * A sweep keeps every agent, changes nothing but the status, only ever moves
   * ACTIVE to INACTIVE, never touches an agent that is not ACTIVE or has never
   * been seen, and decides every agent on its own record alone.
   */
  lemma SweepChangesOnlyStaleStatus(m: map<string, Agent>, now: Timestamp, k: string)
    requires k in m
    ensures Swept(m, now).Keys == m.Keys
    ensures Swept(m, now)[k].(status := m[k].status) == m[k]
    ensures Swept(m, now)[k] != m[k] <==> IsStale(m[k], now)
    ensures Swept(m, now)[k].status == Active ==> m[k].status == Active
    ensures m[k].status != Active || m[k].lastSeen.None? ==> Swept(m, now)[k] == m[k]
    ensures Swept(m, now)[k] == Demote(m[k], now)
  {
  }

  /** More than 180 s of silence demotes an active agent; exactly 180 s does not. */
  lemma SweepBoundary(a: Agent, now: Timestamp)
    requires a.status == Active
    ensures a.lastSeen == Some(now - 181) ==> Demote(a, now).status == Inactive
    ensures a.lastSeen == Some(now - 180) ==> Demote(a, now) == a
    ensures a.lastSeen == Some(now - 179) ==> Demote(a, now) == a
  {
  }

  /** A later sweep subsumes an earlier one: sweeping at t1 and then at t2 >= t1 is sweeping at t2. */
  lemma {:induction false} LaterSweepSubsumes(m: map<string, Agent>, t1: Timestamp, t2: Timestamp)
    requires t1 <= t2
    ensures Swept(Swept(m, t1), t2) == Swept(m, t2)
  {
    forall k | k in m ensures Swept(Swept(m, t1), t2)[k] == Swept(m, t2)[k] {
      var a := m[k];
      if IsStale(a, t1) {
        assert IsStale(a, t2);
        assert Demote(Demote(a, t1), t2) == a.(status := Inactive);
      }
    }
  }

  /** Sweeping twice at the same time is sweeping once. */
  lemma SweepIdempotent(m: map<string, Agent>, now: Timestamp)
    ensures Swept(Swept(m, now), now) == Swept(m, now)
  {
    LaterSweepSubsumes(m, now, now);
  }

  /**
   * A successful poll at t keeps the agent ACTIVE through every sweep up to
   * t + 180, and the first sweep after that demotes it.
   */
  lemma PolledAgentStaysActive(agents: map<string, Agent>, req: GetInstructionsRequest, result: DecodedResult,
                               t: Timestamp, instructionId: string, instructionTime: Timestamp, now: Timestamp)
    requires AgentsKeyed(agents)
    requires req.agentId != "" && req.agentId in agents
    ensures var s := Agents.Poll(agents, req, result, t, instructionId, instructionTime);
      && s.result.Success?
      && (now - t <= InactiveThresholdSeconds ==> Swept(s.agents, now)[req.agentId].status == Active)
      && (now - t > InactiveThresholdSeconds ==> Swept(s.agents, now)[req.agentId].status == Inactive)
  {
    var s := Agents.Poll(agents, req, result, t, instructionId, instructionTime);
    var a := s.agents[req.agentId];
    assert a == Agents.Polled(agents[req.agentId], req, result, t);
    assert a.status == Active && a.lastSeen == Some(t);
  }
}

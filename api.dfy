/**
 * The records of the v1 API that the services and the stores exchange: agents,
 * clusters, instructions and the requests and responses of the agent service.
 * Timestamps are whole seconds; `None` stands for a nil timestamp pointer.
 */
module Api {
  import opened Wrappers

  /** Seconds since the epoch. */
  type Timestamp = int

  datatype AgentStatus = StatusUnspecified | Active | Inactive

  datatype InstructionType = TypeUnspecified | CollectHardware | HealthCheck

  /** A network interface descriptor reported by an agent; carried, never interpreted. */
  datatype Nic = Nic(descriptor: string)

  datatype Agent = Agent(
    id: string,
    clusterId: string,
    hostname: string,
    ipAddress: string,
    version: string,
    status: AgentStatus,
    lastSeen: Option<Timestamp>,
    createdAt: Option<Timestamp>,
    updatedAt: Option<Timestamp>,
    hardwareCollected: bool,
    networkInterfaces: seq<Nic>)

  datatype NetworkConfig = NetworkConfig(cidr: string, gateway: string, dnsServers: seq<string>, mtu: int)

  datatype Cluster = Cluster(
    id: string,
    name: string,
    description: string,
    networkConfig: Option<NetworkConfig>,
    createdAt: Option<Timestamp>,
    updatedAt: Option<Timestamp>)

  datatype Instruction = Instruction(id: string, kind: InstructionType, payload: string, createdAt: Timestamp)

  datatype RegisterAgentRequest = RegisterAgentRequest(
    id: string, clusterId: string, hostname: string, ipAddress: string, version: string)

  datatype GetInstructionsRequest = GetInstructionsRequest(
    agentId: string, lastInstructionId: string, resultData: string)

  datatype GetInstructionsResponse = GetInstructionsResponse(
    instructions: seq<Instruction>, pollIntervalSeconds: int, serverTime: Timestamp)

  datatype CreateClusterRequest = CreateClusterRequest(
    name: string, description: string, networkConfig: Option<NetworkConfig>)

  datatype UpdateClusterRequest = UpdateClusterRequest(
    id: string, name: string, description: string, networkConfig: Option<NetworkConfig>)

  /**
   * What decoding an agent's `result_data` JSON yields: a hardware-collection
   * result with its NIC list, a well-formed result of another instruction type,
   * or text that does not decode (either the envelope or the hardware data).
   * A result typed COLLECT_HARDWARE always decodes to `Hardware` or `Malformed`,
   * so `Other` never carries that type.
   */
  datatype DecodedResult = Hardware(nics: seq<Nic>) | Other(kind: OtherInstructionType) | Malformed

  /** The instruction types a result can carry other than COLLECT_HARDWARE. */
  type OtherInstructionType = k: InstructionType | k != CollectHardware witness TypeUnspecified

  /** The gRPC status codes the services return, with their messages. */
  datatype RpcError = InvalidArgument(message: string) | NotFound(message: string) | Internal(message: string)
}

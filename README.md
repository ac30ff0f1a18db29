# netctrl-server core, modelled in Dafny

netctrl-server is a control plane for a fleet of agents grouped into
clusters. Agents register into an existing cluster, then poll the server; a
poll doubles as a heartbeat, may carry the result of the previous
instruction (a hardware inventory of the host's NICs), and returns the next
instructions, of which there is at most one today: "collect hardware",
offered until the inventory has arrived. A background monitor sweeps all
agents and marks INACTIVE every ACTIVE agent silent for more than three poll
intervals (180 s). Clusters are created, read, partially updated and deleted
(deleting a cluster deletes its agents), after a validation of the name and
the network configuration. Two map-backed stores (an in-memory one and a test
mock) hold the data, and the server's configuration is completed with
defaults at start-up.

The project:

| file | module | contents |
|---|---|---|
| wrappers.dfy | `Wrappers` | `Option`, `Result`, `Outcome` |
| api.dfy | `Api` | the API records: agents, clusters, network configurations, instructions, requests, responses, RPC errors |
| storage_contract.dfy | `StorageContract` | what both stores share: the invariant that every record is filed under its own id, the shape of a listing, the cascade of a cluster delete |
| memory.dfy | `MemoryStorage` | the in-memory store, a class with two `map` fields updated in place |
| mock.dfy | `MockStorage` | the mock store, the same shape with the mock's laxer checks and shorter messages |
| agent.dfy | `Agents` | registration and polling as a state machine over the agent map, and the agent service class proved to follow it |
| agent_properties.dfy | `AgentProperties` | properties of registration and polling, and one whole hardware-collection session |
| agent_monitor.dfy | `Monitor` | the liveness sweep, a loop over the store's listing |
| monitor_properties.dfy | `MonitorProperties` | the 180 s boundary, what a sweep may change, sweeps composed with each other and with a poll |
| cluster.dfy | `Clusters` | cluster validation and the cluster service class |
| cluster_properties.dfy | `ClusterProperties` | the byte-length limit on names, the validation order, the partial-overwrite update |
| config.dfy | `Configuration` | the configuration as a class updated in place by `ApplyDefaults` |

Modelling decisions:

- Time is a whole number of seconds; an unset timestamp is `None`.
- Clock readings, fresh UUIDs, the `DATABASE_URL` environment value, and what
  `net.ParseCIDR` / `net.ParseIP` accept are parameters of the operations
  that use them.
- The JSON result data of a poll is represented by what it decodes to
  (`DecodedResult`): a hardware inventory, a result of another type, or
  something that does not decode. A result typed COLLECT_HARDWARE is either
  an inventory or does not decode, so "another type" excludes it.
- The agent and cluster services are bound to the mock store (the one their
  tests use) and the monitor to the in-memory store (the one its tests use).
- Storage calls are atomic; records are values, so a change becomes visible
  only through an explicit store update, as the services always make one.
- The source's `len(name)` counts UTF-8 bytes, and so does `Utf8Length`.
- Some tests of the repository create clusters without a network
  configuration; the cluster service rejects those, and the model follows the
  service.
- A name of exactly 255 bytes is accepted, although the rejection message for
  longer names reads "must be less than 255 characters"; the model keeps both
  the check and the message as they are.

## Model

| member | source | states |
|---|---|---|
| StorageContract.ListAllIsComplete | internal/storage/memory/memory.go:138-150 | a listing with the empty filter names every stored agent exactly once: its ids are the key set and its length is the number of agents |
| StorageContract.ListClusterIsExact | internal/storage/memory/memory.go:138-150 | a listing filtered by cluster c holds a stored agent iff that agent belongs to c |
| StorageContract.CascadeIsExact | internal/storage/memory/memory.go:87-95 | the cascade of deleting cluster c keeps exactly the agents of other clusters, unchanged, leaves no agent of c behind, keeps the store filed by id, and a second cascade for c removes nothing more |
| StorageContract.DistinctIdsCount | internal/storage/memory/memory.go:142-149 | a listing with pairwise distinct ids has as many ids as elements |
| MemoryStorage.Storage.constructor | internal/storage/memory/memory.go:19-24 | a new store is empty and filed by id |
| MemoryStorage.Storage.CreateCluster | internal/storage/memory/memory.go:27-37 | an existing id fails "cluster with ID … already exists" and changes nothing; otherwise exactly that key is added |
| MemoryStorage.Storage.GetCluster | internal/storage/memory/memory.go:40-50 | the stored cluster, or "cluster with ID … not found" |
| MemoryStorage.Storage.ListClusters | internal/storage/memory/memory.go:53-63 | every stored cluster, each once, as stored |
| MemoryStorage.Storage.UpdateCluster | internal/storage/memory/memory.go:66-76 | a missing id fails "not found" and changes nothing; otherwise only that entry is replaced |
| MemoryStorage.Storage.DeleteCluster | internal/storage/memory/memory.go:79-96 | a missing id fails and changes nothing; otherwise the cluster goes and so do exactly the agents whose cluster it was |
| MemoryStorage.Storage.ClusterExists | internal/storage/memory/memory.go:99-105 | true iff the id is a key of the cluster map |
| MemoryStorage.Storage.CreateAgent | internal/storage/memory/memory.go:108-122 | an empty id fails "agent ID is required", an existing id fails "already exists", with nothing changed; otherwise exactly that key is added, whether or not its cluster exists |
| MemoryStorage.Storage.GetAgent | internal/storage/memory/memory.go:125-135 | the stored agent, or "agent not found: id" |
| MemoryStorage.Storage.ListAgents | internal/storage/memory/memory.go:138-150 | exactly the stored agents that pass the cluster filter (all for ""), each once, as stored |
| MemoryStorage.Storage.UpdateAgent | internal/storage/memory/memory.go:153-163 | a missing id fails "not found" and changes nothing; otherwise only that entry is replaced and the key set stays |
| MemoryStorage.Storage.DeleteAgent | internal/storage/memory/memory.go:166-176 | a missing id fails and changes nothing; otherwise only that key is removed |
| MockStorage.Storage.constructor | internal/storage/mock/mock.go:19-24 | a new store is empty and filed by id |
| MockStorage.Storage.CreateCluster | internal/storage/mock/mock.go:28-33 | always succeeds and overwrites any cluster with the same id |
| MockStorage.Storage.GetCluster | internal/storage/mock/mock.go:35-43 | the stored cluster, or "cluster not found" |
| MockStorage.Storage.ListClusters | internal/storage/mock/mock.go:45-53 | every stored cluster, each once, as stored |
| MockStorage.Storage.UpdateCluster | internal/storage/mock/mock.go:55-63 | a missing id fails "cluster not found" and changes nothing; otherwise only that entry is replaced |
| MockStorage.Storage.DeleteCluster | internal/storage/mock/mock.go:65-79 | a missing id fails and changes nothing; otherwise the cluster goes and so do exactly the agents whose cluster it was |
| MockStorage.Storage.ClusterExists | internal/storage/mock/mock.go:81-86 | true iff the id is a key of the cluster map |
| MockStorage.Storage.CreateAgent | internal/storage/mock/mock.go:90-95 | always succeeds and overwrites, with no empty-id or duplicate check |
| MockStorage.Storage.GetAgent | internal/storage/mock/mock.go:97-105 | the stored agent, or "agent not found" |
| MockStorage.Storage.ListAgents | internal/storage/mock/mock.go:107-117 | exactly the stored agents that pass the cluster filter (all for ""), each once, as stored |
| MockStorage.Storage.UpdateAgent | internal/storage/mock/mock.go:119-127 | a missing id fails "agent not found" and changes nothing; otherwise only that entry is replaced |
| MockStorage.Storage.DeleteAgent | internal/storage/mock/mock.go:129-137 | a missing id fails and changes nothing; otherwise only that key is removed |
| Agents.ValidateRegisterRequest | internal/service/agent.go:249-257 | passes iff both ids are set; the agent id is checked first, each failure with its message |
| Agents.NewAgent | internal/service/agent.go:73-83 | a first registration's record: the request's id, cluster, hostname, address and version, ACTIVE, last_seen = created_at = updated_at = now, no hardware |
| Agents.Registered | internal/service/agent.go:49-83 | the record a registration stores: the request's fields, ACTIVE, last_seen and updated_at now; an existing record keeps its created_at and both hardware fields, a new one is `NewAgent` |
| Agents.Register | internal/service/agent.go:32-95 | a failed registration leaves the agent map as it was; a successful one writes the returned agent under the request's id and nothing else, and the map stays keyed by id |
| Agents.ProcessInstructionResult | internal/service/agent.go:192-222 | reports failure iff the result does not decode; only the two hardware fields can change; a hardware result replaces the NIC list wholesale and marks hardware collected; any other result changes nothing |
| Agents.Heartbeat | internal/service/agent.go:160-163 | the agent becomes ACTIVE, seen and updated now, with every other field kept |
| Agents.GenerateInstructions | internal/service/agent.go:225-246 | one COLLECT_HARDWARE instruction with payload "{}" exactly when hardware is not collected, none otherwise |
| Agents.Polled | internal/service/agent.go:153-163 | the record a successful poll stores: ACTIVE, last_seen and updated_at now; a carried hardware result sets the NIC list and the collected flag, otherwise both are kept; every other field is kept |
| Agents.Poll | internal/service/agent.go:141-178 | a failed poll leaves the agent map as it was; a successful one is for a stored agent and keeps the key set |
| Agents.AgentService.RegisterAgent | internal/service/agent.go:32-95 | the response and the new agent map are those of `Register` on the old map and the ids of the existing clusters; clusters are untouched |
| Agents.AgentService.GetAgent | internal/service/agent.go:98-111 | an empty id is InvalidArgument, a missing id NotFound "agent not found: id", otherwise the stored agent |
| Agents.AgentService.ListAgents | internal/service/agent.go:114-123 | exactly the stored agents that pass the cluster filter, each once |
| Agents.AgentService.UnregisterAgent | internal/service/agent.go:126-138 | an empty id is InvalidArgument and a missing id NotFound, both changing nothing; otherwise success and only that agent removed |
| Agents.AgentService.GetInstructions | internal/service/agent.go:141-178 | the response and the new agent map are those of `Poll` on the old map; clusters are untouched |
| AgentProperties.RegisterRequiresIds | internal/service/agent.go:33-35 | an empty agent id fails "agent ID is required" before the cluster id is looked at; then an empty cluster id fails "cluster ID is required"; neither writes |
| AgentProperties.RegisterUnknownClusterWritesNothing | internal/service/agent.go:38-44 | an unknown cluster is NotFound "cluster c not found" and writes no agent |
| AgentProperties.FirstRegistration | internal/service/agent.go:73-83 | a new agent is ACTIVE, copies the request's fields, has last_seen, created_at and updated_at all now, and no hardware |
| AgentProperties.ReRegistration | internal/service/agent.go:49-58 | re-registering overwrites cluster, hostname, address and version, forces ACTIVE, refreshes last_seen and updated_at, and keeps created_at and the hardware fields |
| AgentProperties.RegisterTwice | internal/service/agent.go:49-58 | registering the same request twice gives the first record with only last_seen and updated_at moved |
| AgentProperties.PollRejects | internal/service/agent.go:142-150 | an empty agent id is InvalidArgument and an unknown one NotFound "agent not found: id", both writing nothing |
| AgentProperties.PollIsHeartbeat | internal/service/agent.go:160-177 | whatever the prior status, a good poll leaves the agent ACTIVE with last_seen = updated_at = server_time = now, a 60 s poll interval, instructions derived from the stored record, and every other agent untouched |
| AgentProperties.PollIngestsHardware | internal/service/agent.go:153-163 | a poll carrying a hardware result stores the NIC list, marks hardware collected, records the heartbeat, keeps every other field, and already offers no instruction |
| AgentProperties.PollWithoutHardwareResult | internal/service/agent.go:153-157 | a poll without a result, or with one of another type or that does not decode, only records the heartbeat and offers collection exactly while hardware is missing |
| AgentProperties.HardwareCollectionSession | internal/service/agent.go:141-178 | register, poll (one COLLECT_HARDWARE offered), poll with the inventory (nothing offered), poll again (nothing offered): the NICs stay stored and created_at stays the registration time |
| Monitor.Demote | internal/service/agent_monitor.go:81-96 | only the status can change, only from ACTIVE to INACTIVE, and the result is INACTIVE iff the agent was INACTIVE already or is stale |
| Monitor.Swept | internal/service/agent_monitor.go:68-98 | the agent map after a sweep: the same keys, every agent differing at most in its status, and an agent changed iff it is stale |
| Monitor.SweptPrefixIsPointwise | internal/service/agent_monitor.go:80-96 | after the first n listed agents are visited, exactly the stale ones among them are demoted and written, the rest of the listing is as listed, and no key is added |
| Monitor.SweepOfListing | internal/service/agent_monitor.go:70-80 | what the sweep does to every agent of an unfiltered listing it does to every stored agent |
| Monitor.AgentMonitor.SweepListed | internal/service/agent_monitor.go:80-97 | the loop over the listing: the agent map afterwards is the old one with the stale listed agents demoted, and the ids written are exactly those |
| Monitor.AgentMonitor.CheckAgentStates | internal/service/agent_monitor.go:68-98 | the agent map becomes the sweep of the old one at now, clusters are untouched, and exactly the stale agents are written back |
| Monitor.AgentMonitor.CheckAgentStatesOnce | internal/service/agent_monitor.go:63-65 | the same effect as one sweep |
| MonitorProperties.ThresholdIsThreePolls | internal/service/agent_monitor.go:12-21 | the threshold is 180 s, three poll intervals of the 60 s the poll response recommends |
| MonitorProperties.SweepChangesOnlyStaleStatus | internal/service/agent_monitor.go:80-96 | a sweep keeps every agent and every field but the status, changes an agent iff it is stale, never makes an agent ACTIVE, skips never-seen and non-ACTIVE agents, and decides each agent on its own record |
| MonitorProperties.SweepBoundary | internal/service/agent_monitor.go:89-91 | 181 s of silence demotes an ACTIVE agent; 180 s or 179 s leave it as it was |
| MonitorProperties.LaterSweepSubsumes | internal/service/agent_monitor.go:68-98 | a sweep at t1 followed by one at t2 >= t1 is the sweep at t2 |
| MonitorProperties.SweepIdempotent | internal/service/agent_monitor.go:68-98 | sweeping twice at the same time is sweeping once |
| MonitorProperties.PolledAgentStaysActive | internal/service/agent_monitor.go:77-91 | an agent that polled at t stays ACTIVE through every sweep up to t + 180 and is INACTIVE after any later one |
| Clusters.CharBytes | internal/service/cluster.go:145-147 | the UTF-8 width of a character: 1 byte below U+0080, 2 below U+0800, 3 below U+10000, otherwise 4 |
| Clusters.Utf8Length | internal/service/cluster.go:145-147 | Go's byte length of a string: at least one and at most four bytes per character, one per character for ASCII |
| Clusters.FirstInvalidAddress | internal/service/cluster.go:178-182 | none iff every DNS server parses; otherwise the position of the first one that does not |
| Clusters.ValidationError.Message | internal/service/cluster.go:141-186 | a non-empty text for every validation error; the DNS error's text ends with the rejected address |
| Clusters.NetworkConfigVerdict | internal/service/cluster.go:157-190 | passes iff CIDR and gateway are set and parse, every DNS server parses and 576 <= MTU <= 9000; fails only with a network-configuration error; each failure happens exactly when every earlier check passed and its own did not, and a DNS failure names the first bad server |
| Clusters.CreateRequestVerdict | internal/service/cluster.go:140-154 | an empty name, then a name over 255 bytes, then a missing network configuration fail in that order; otherwise the network configuration's verdict |
| Clusters.Merged | internal/service/cluster.go:98-112 | id and created_at kept, updated_at now, and name, description and network configuration replaced only when the request sets them |
| Clusters.ClusterService.ValidateCreateRequest | internal/service/cluster.go:140-154 | the verdict `CreateRequestVerdict` states |
| Clusters.ClusterService.ValidateNetworkConfig | internal/service/cluster.go:157-190 | the verdict `NetworkConfigVerdict` states, computed by a loop over the DNS servers |
| Clusters.ClusterService.CreateCluster | internal/service/cluster.go:31-56 | a rejected request is InvalidArgument with the validation message and stores nothing; otherwise the cluster with the fresh id, the request's name, description and configuration, and created_at = updated_at = now, is stored under that id |
| Clusters.ClusterService.GetCluster | internal/service/cluster.go:59-72 | an empty id is InvalidArgument, a missing one NotFound, otherwise the stored cluster |
| Clusters.ClusterService.ListClusters | internal/service/cluster.go:75-84 | every stored cluster, each once |
| Clusters.ClusterService.UpdateCluster | internal/service/cluster.go:87-122 | an empty id is InvalidArgument, a missing one NotFound, an invalid new network configuration InvalidArgument, all storing nothing; otherwise the merged cluster replaces the old one and is returned |
| Clusters.ClusterService.DeleteCluster | internal/service/cluster.go:125-137 | an empty id is InvalidArgument and a missing one NotFound, both changing nothing; otherwise success, the cluster and exactly its agents removed |
| ClusterProperties.MaxLengthNamePasses | internal/service/cluster.go:145-147 | a name of exactly 255 single-byte characters passes the length check |
| ClusterProperties.OverlongNameFails | internal/service/cluster.go:145-147 | a name of 256 single-byte characters is rejected as too long |
| ClusterProperties.RepeatedCharLength | internal/service/cluster.go:145 | a run of one character weighs that character's byte width times its length |
| ClusterProperties.TwoByteNameOfHalfLengthFails | internal/service/cluster.go:145-147 | 128 two-byte characters make 256 bytes and are rejected: the limit is on bytes |
| ClusterProperties.AcceptedCreateIsWellFormed | internal/service/cluster.go:140-189 | an accepted create request has a name of 1 to 255 bytes, a non-empty CIDR that parses, a non-empty gateway that parses, every DNS server parsing and 576 <= MTU <= 9000 |
| ClusterProperties.MtuBoundsInclusive | internal/service/cluster.go:185-187 | MTU 576 and 9000 pass, 575 and 9001 fail |
| ClusterProperties.FirstBadDnsServerReported | internal/service/cluster.go:178-182 | the first unparsable DNS server is the one reported |
| ClusterProperties.EmptyUpdateOnlyTouchesTimestamp | internal/service/cluster.go:98-112 | an update that sets no field only refreshes updated_at |
| ClusterProperties.UpdateIsIdempotent | internal/service/cluster.go:98-112 | applying the same update twice at the same time is applying it once |
| ClusterProperties.AcceptedUpdateKeepsConfigValid | internal/service/cluster.go:105-110 | a cluster with a valid network configuration still has one after any accepted update |
| Configuration.Defaulted | internal/config/config.go:79-115 | ports 0 become 9090 and 8080, both flags end true, empty environment, log level and format become "development", "info" and "text", a set DATABASE_URL replaces the URL, connection limits 0 become 100 and 20; every set value is kept |
| Configuration.Config.ApplyDefaults | internal/config/config.go:79-115 | the configuration afterwards is `Defaulted` of the one before |
| Configuration.Config.DefaultServer | internal/config/config.go:80-82 | only the server section changes, to its defaulted value |
| Configuration.Config.DefaultGrpc | internal/config/config.go:84-89 | only the gRPC section changes, to its defaulted value |
| Configuration.Config.DefaultGateway | internal/config/config.go:91-96 | only the gateway section changes, to its defaulted value |
| Configuration.Config.DefaultDatabase | internal/config/config.go:98-107 | only the database section changes, to its defaulted value |
| Configuration.Config.DefaultLogging | internal/config/config.go:109-114 | only the logging section changes, to its defaulted value |
| Configuration.DefaultingIsIdempotent | internal/config/config.go:79-115 | with the same environment, defaulting twice is defaulting once |
| Configuration.CompleteConfigIsKept | internal/config/config.go:79-115 | a fully set configuration is left as it is unless DATABASE_URL names another URL |
| Configuration.DefaultsOfEmptyConfig | internal/config/config.go:70-71 | the defaults of an empty configuration, field by field |

## Left out

- The monitor's ticker loop, its stop channel and the goroutine around it (`Start`, `Stop`): they are timing and concurrency; one sweep is modelled.
- The stores' mutexes and every interleaving of concurrent calls, such as a poll landing between the sweep's listing and its write: every store call is atomic and the sweep one sequential pass.
- The PostgreSQL store, the transport (gRPC server, HTTP gateway, CORS), start-up and the health service: I/O and wiring.
- `Load` and `LoadOrDefault`: file reading and YAML parsing. `DefaultsOfEmptyConfig` states what the latter's default configuration is.
- Result submission through a separate call: it is not an operation of the agent service; results are ingested only inside a poll.
- JSON decoding of the result data: abstracted as `DecodedResult`. The NIC records are opaque values.
- UUIDs, the clock, the environment and the address parsers: parameters, uninterpreted.
- Sub-second timestamp precision and the saturation of Go's duration arithmetic: times are whole seconds and unbounded.
- Logging, including the log line for a result that cannot be processed.
- Pointer aliasing between callers and the stores: the stores hand out the stored record, and `UpdateCluster` edits it before validating the new network configuration, so with a real shared pointer a rejected update could still leave the new name and description in the store. The model has value semantics and stores nothing on a rejected update.
- Monitor.AgentMonitor.CheckAgentStates: the listing-failure branch and the failed-write branch (logged, the sweep continues) are not modelled, because the in-memory store's listing never fails and every agent it lists is still there to update.
- Agents.AgentService.RegisterAgent, Agents.AgentService.GetInstructions, Clusters.ClusterService.CreateCluster, Clusters.ClusterService.UpdateCluster, Clusters.ClusterService.ListClusters: the Internal-error branches for failing store writes and listings are not modelled, because the mock store's calls cannot fail at those points.
- That a later `GetAgent` after a successful `UnregisterAgent` is NotFound follows from the two methods' contracts but is not stated as a lemma, since lemmas cannot call methods.
- Clusters.ValidationError.Message: the rejection message for an unparsable CIDR drops the parser's own error text, which the parser parameter does not supply.

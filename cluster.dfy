/**
 * The cluster service: request validation (name, its length in bytes, the
 * network configuration and its fields, in a fixed order), create, get,
 * list, partial-overwrite update and delete, against the mock store.
 * Go's `net.ParseCIDR` and `net.ParseIP` are the parameters `validCidr` and
 * `validIp`: the model only asks whether each accepts its input.
 */
module Clusters {
  import opened Wrappers
  import opened Api
  import opened StorageContract
  import MockStorage

  const MaxNameBytes := 255
  const MinMtu := 576
  const MaxMtu := 9000

  /** The number of bytes of the UTF-8 encoding of one character. */
  function CharBytes(c: char): (n: nat)
    ensures 1 <= n <= 4
    ensures n == 1 <==> c as int < 0x80
    ensures n <= 2 <==> c as int < 0x800
    ensures n <= 3 <==> c as int < 0x10000
  {
    if c as int < 0x80 then 1 else if c as int < 0x800 then 2 else if c as int < 0x10000 then 3 else 4
  }

  /** Go's `len` of a string: the length of its UTF-8 encoding in bytes. */
  function Utf8Length(s: string): (n: nat)
    ensures |s| <= n <= 4 * |s|
    ensures (forall i | 0 <= i < |s| :: s[i] as int < 0x80) ==> n == |s|
  {
    if s == [] then 0 else CharBytes(s[0]) + Utf8Length(s[1..])
  }

  datatype ValidationError =
    | NameRequired
    | NameTooLong
    | NetworkConfigRequired
    | CidrRequired
    | InvalidCidr
    | GatewayRequired
    | InvalidGateway
    | InvalidDnsServer(address: string)
    | InvalidMtu
  {
    /** The error text; the DNS error names the rejected address at its end. */
    function Message(): (m: string)
      ensures |m| > 0
      ensures InvalidDnsServer? ==> |address| <= |m| && m[|m| - |address|..] == address
    {
      match this
      case NameRequired => "cluster name is required"
      case NameTooLong => "cluster name must be less than 255 characters"
      case NetworkConfigRequired => "network configuration is required"
      case CidrRequired => "CIDR is required"
      case InvalidCidr => "invalid CIDR format"
      case GatewayRequired => "gateway is required"
      case InvalidGateway => "invalid gateway IP address"
      case InvalidDnsServer(address) => "invalid DNS server IP address: " + address
      case InvalidMtu => "MTU must be between 576 and 9000"
    }

    /** The errors a network configuration can fail with. */
    predicate IsNetworkConfigError() {
      CidrRequired? || InvalidCidr? || GatewayRequired? || InvalidGateway? || InvalidDnsServer? || InvalidMtu?
    }
  }

  /** The position of the first address validIp rejects, if any. */
  function FirstInvalidAddress(addresses: seq<string>, validIp: string -> bool): (r: Option<nat>)
    ensures r.None? <==> forall i | 0 <= i < |addresses| :: validIp(addresses[i])
    ensures r.Some? ==>
      && r.value < |addresses| && !validIp(addresses[r.value])
      && forall i | 0 <= i < r.value :: validIp(addresses[i])
  {
    if addresses == [] then None
    else if !validIp(addresses[0]) then Some(0)
    else match FirstInvalidAddress(addresses[1..], validIp)
      case None => None
      case Some(i) => Some(i + 1)
  }

  /**
   * The verdict of validateNetworkConfig: CIDR, then gateway, then each DNS
   * server in turn, then the MTU range; the first check that fails decides.
   */
  function NetworkConfigVerdict(config: NetworkConfig, validCidr: string -> bool, validIp: string -> bool)
    : (r: Outcome<ValidationError>)
    ensures r.Pass? <==>
      && config.cidr != "" && validCidr(config.cidr)
      && config.gateway != "" && validIp(config.gateway)
      && (forall i | 0 <= i < |config.dnsServers| :: validIp(config.dnsServers[i]))
      && MinMtu <= config.mtu <= MaxMtu
    ensures r == Fail(CidrRequired) <==> config.cidr == ""
    ensures r == Fail(InvalidCidr) <==> config.cidr != "" && !validCidr(config.cidr)
    ensures r == Fail(GatewayRequired) <==> config.cidr != "" && validCidr(config.cidr) && config.gateway == ""
    ensures r == Fail(InvalidGateway) <==>
      config.cidr != "" && validCidr(config.cidr) && config.gateway != "" && !validIp(config.gateway)
    ensures r.Fail? ==> r.error.IsNetworkConfigError()
    ensures r.Fail? && r.error.InvalidDnsServer? <==>
      && config.cidr != "" && validCidr(config.cidr) && config.gateway != "" && validIp(config.gateway)
      && exists i | 0 <= i < |config.dnsServers| :: !validIp(config.dnsServers[i])
    ensures r.Fail? && r.error.InvalidDnsServer? ==>
      exists i | 0 <= i < |config.dnsServers| ::
           && config.dnsServers[i] == r.error.address && !validIp(config.dnsServers[i])
           && forall j | 0 <= j < i :: validIp(config.dnsServers[j])
    ensures r == Fail(InvalidMtu) <==>
      && config.cidr != "" && validCidr(config.cidr) && config.gateway != "" && validIp(config.gateway)
      && (forall i | 0 <= i < |config.dnsServers| :: validIp(config.dnsServers[i]))
      && !(MinMtu <= config.mtu <= MaxMtu)
  {
    if config.cidr == "" then Fail(CidrRequired)
    else if !validCidr(config.cidr) then Fail(InvalidCidr)
    else if config.gateway == "" then Fail(GatewayRequired)
    else if !validIp(config.gateway) then Fail(InvalidGateway)
    else match FirstInvalidAddress(config.dnsServers, validIp)
      case Some(i) => Fail(InvalidDnsServer(config.dnsServers[i]))
      case None => if config.mtu < MinMtu || config.mtu > MaxMtu then Fail(InvalidMtu) else Pass
  }

  /** The verdict of validateCreateRequest: a name, of at most 255 bytes, then a valid network configuration. */
  function CreateRequestVerdict(req: CreateClusterRequest, validCidr: string -> bool, validIp: string -> bool)
    : (r: Outcome<ValidationError>)
    ensures req.name == "" ==> r == Fail(NameRequired)
    ensures req.name != "" && Utf8Length(req.name) > MaxNameBytes ==> r == Fail(NameTooLong)
    ensures req.name != "" && Utf8Length(req.name) <= MaxNameBytes && req.networkConfig.None? ==>
      r == Fail(NetworkConfigRequired)
    ensures req.name != "" && Utf8Length(req.name) <= MaxNameBytes && req.networkConfig.Some? ==>
      r == NetworkConfigVerdict(req.networkConfig.value, validCidr, validIp)
  {
    if req.name == "" then Fail(NameRequired)
    else if Utf8Length(req.name) > MaxNameBytes then Fail(NameTooLong)
    else if req.networkConfig.None? then Fail(NetworkConfigRequired)
    else NetworkConfigVerdict(req.networkConfig.value, validCidr, validIp)
  }

  /** An update request rejected for its new network configuration. */
  predicate RejectsNetworkConfig(req: UpdateClusterRequest, validCidr: string -> bool, validIp: string -> bool) {
    req.networkConfig.Some? && NetworkConfigVerdict(req.networkConfig.value, validCidr, validIp).Fail?
  }

  /**
   * The cluster an accepted update stores: an empty name or description, or
   * an absent network configuration, keeps the old value; updated_at is now.
   */
  function Merged(c: Cluster, req: UpdateClusterRequest, now: Timestamp): (r: Cluster)
    ensures r.id == c.id && r.createdAt == c.createdAt && r.updatedAt == Some(now)
    ensures r.name == if req.name == "" then c.name else req.name
    ensures r.description == if req.description == "" then c.description else req.description
    ensures r.networkConfig == if req.networkConfig.None? then c.networkConfig else req.networkConfig
  {
    var named := if req.name != "" then c.(name := req.name) else c;
    var described := if req.description != "" then named.(description := req.description) else named;
    var configured := if req.networkConfig.Some? then described.(networkConfig := req.networkConfig) else described;
    configured.(updatedAt := Some(now))
  }

  class ClusterService {
    const store: MockStorage.Storage

    constructor (store: MockStorage.Storage)
      ensures this.store == store
    {
      this.store := store;
    }

    /** validateCreateRequest, checked in the source's order. */
    method ValidateCreateRequest(req: CreateClusterRequest, validCidr: string -> bool, validIp: string -> bool)
      returns (r: Outcome<ValidationError>)
      ensures r == CreateRequestVerdict(req, validCidr, validIp)
    {
      if req.name == "" {
        return Fail(NameRequired);
      }
      if Utf8Length(req.name) > MaxNameBytes {
        return Fail(NameTooLong);
      }
      if req.networkConfig.None? {
        return Fail(NetworkConfigRequired);
      }
      r := ValidateNetworkConfig(req.networkConfig.value, validCidr, validIp);
    }

    /** validateNetworkConfig, with its loop over the DNS servers. */
    method ValidateNetworkConfig(config: NetworkConfig, validCidr: string -> bool, validIp: string -> bool)
      returns (r: Outcome<ValidationError>)
      ensures r == NetworkConfigVerdict(config, validCidr, validIp)
    {
      if config.cidr == "" {
        return Fail(CidrRequired);
      }
      if !validCidr(config.cidr) {
        return Fail(InvalidCidr);
      }
      if config.gateway == "" {
        return Fail(GatewayRequired);
      }
      if !validIp(config.gateway) {
        return Fail(InvalidGateway);
      }
      for i := 0 to |config.dnsServers|
        invariant forall j | 0 <= j < i :: validIp(config.dnsServers[j])
      {
        if !validIp(config.dnsServers[i]) {
          return Fail(InvalidDnsServer(config.dnsServers[i]));
        }
      }
      if config.mtu < MinMtu || config.mtu > MaxMtu {
        return Fail(InvalidMtu);
      }
      return Pass;
    }

    /** `id` is the fresh identifier and `now` the clock reading of this call. */
    method CreateCluster(req: CreateClusterRequest, id: string, now: Timestamp,
                         validCidr: string -> bool, validIp: string -> bool)
      returns (r: Result<Cluster, RpcError>)
      requires store.Valid()
      modifies store
      ensures store.Valid() && store.agents == old(store.agents)
      ensures var v := CreateRequestVerdict(req, validCidr, validIp);
        && (v.Fail? ==> r == Failure(InvalidArgument(v.error.Message())) && store.clusters == old(store.clusters))
        && (v.Pass? ==>
              && r == Success(Cluster(id, req.name, req.description, req.networkConfig, Some(now), Some(now)))
              && store.clusters == old(store.clusters)[id := r.value])
    {
      var valid := ValidateCreateRequest(req, validCidr, validIp);
      if valid.Fail? {
        return Failure(InvalidArgument(valid.error.Message()));
      }
      var cluster := Cluster(id, req.name, req.description, req.networkConfig, Some(now), Some(now));
      store.CreateCluster(cluster);
      return Success(cluster);
    }

    method GetCluster(id: string) returns (r: Result<Cluster, RpcError>)
      ensures id == "" ==> r == Failure(InvalidArgument("cluster ID is required"))
      ensures id != "" && id in store.clusters ==> r == Success(store.clusters[id])
      ensures id != "" && id !in store.clusters ==> r == Failure(NotFound("cluster not found: cluster not found"))
    {
      if id == "" {
        return Failure(InvalidArgument("cluster ID is required"));
      }
      var found := store.GetCluster(id);
      if found.Failure? {
        assert "cluster not found: " + found.error.message == "cluster not found: cluster not found";
        return Failure(NotFound("cluster not found: " + found.error.message));
      }
      return Success(found.value);
    }

    method ListClusters() returns (r: seq<Cluster>)
      requires store.Valid()
      ensures IsClusterListing(store.clusters, r)
    {
      r := store.ListClusters();
    }

    method UpdateCluster(req: UpdateClusterRequest, now: Timestamp, validCidr: string -> bool, validIp: string -> bool)
      returns (r: Result<Cluster, RpcError>)
      requires store.Valid()
      modifies store
      ensures store.Valid() && store.agents == old(store.agents)
      ensures req.id == "" ==>
        r == Failure(InvalidArgument("cluster ID is required")) && store.clusters == old(store.clusters)
      ensures req.id != "" && req.id !in old(store.clusters) ==>
        r == Failure(NotFound("cluster not found: cluster not found")) && store.clusters == old(store.clusters)
      ensures req.id != "" && req.id in old(store.clusters) && RejectsNetworkConfig(req, validCidr, validIp) ==>
        && r == Failure(InvalidArgument(NetworkConfigVerdict(req.networkConfig.value, validCidr, validIp).error.Message()))
        && store.clusters == old(store.clusters)
      ensures req.id != "" && req.id in old(store.clusters) && !RejectsNetworkConfig(req, validCidr, validIp) ==>
        && r == Success(Merged(old(store.clusters)[req.id], req, now))
        && store.clusters == old(store.clusters)[req.id := r.value]
    {
      if req.id == "" {
        return Failure(InvalidArgument("cluster ID is required"));
      }
      var found := store.GetCluster(req.id);
      if found.Failure? {
        assert "cluster not found: " + found.error.message == "cluster not found: cluster not found";
        return Failure(NotFound("cluster not found: " + found.error.message));
      }
      var cluster := found.value;
      if req.name != "" {
        cluster := cluster.(name := req.name);
      }
      if req.description != "" {
        cluster := cluster.(description := req.description);
      }
      if req.networkConfig.Some? {
        var valid := ValidateNetworkConfig(req.networkConfig.value, validCidr, validIp);
        if valid.Fail? {
          return Failure(InvalidArgument(valid.error.Message()));
        }
        cluster := cluster.(networkConfig := req.networkConfig);
      }
      cluster := cluster.(updatedAt := Some(now));
      var err := store.UpdateCluster(cluster);
      assert err.None?;  // the cluster was read under this id just before
      return Success(cluster);
    }

    method DeleteCluster(id: string) returns (r: Result<bool, RpcError>)
      requires store.Valid()
      modifies store
      ensures store.Valid()
      ensures id == "" ==>
        r == Failure(InvalidArgument("cluster ID is required"))
        && store.clusters == old(store.clusters) && store.agents == old(store.agents)
      ensures id != "" && id !in old(store.clusters) ==>
        r == Failure(NotFound("cluster not found: cluster not found"))
        && store.clusters == old(store.clusters) && store.agents == old(store.agents)
      ensures id != "" && id in old(store.clusters) ==>
        r == Success(true)
        && store.clusters == old(store.clusters) - {id} && store.agents == WithoutCluster(old(store.agents), id)
    {
      if id == "" {
        return Failure(InvalidArgument("cluster ID is required"));
      }
      var err := store.DeleteCluster(id);
      if err.Some? {
        assert "cluster not found: " + err.value.message == "cluster not found: cluster not found";
        return Failure(NotFound("cluster not found: " + err.value.message));
      }
      return Success(true);
    }
  }
}

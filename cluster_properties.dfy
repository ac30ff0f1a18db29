/** Properties of cluster validation and of the partial-overwrite update. */
module ClusterProperties {
  import opened Wrappers
  import opened Api
  import opened Clusters

  /** A name of ASCII characters weighs one byte per character. */
  predicate Ascii(s: string) {
    forall i | 0 <= i < |s| :: s[i] as int < 0x80
  }

  /** A name of exactly 255 single-byte characters passes the length check. */
  lemma MaxLengthNamePasses(req: CreateClusterRequest, validCidr: string -> bool, validIp: string -> bool)
    requires Ascii(req.name) && |req.name| == MaxNameBytes && req.networkConfig.Some?
    ensures CreateRequestVerdict(req, validCidr, validIp) ==
      NetworkConfigVerdict(req.networkConfig.value, validCidr, validIp)
  {
  }

  /** One single-byte character more is rejected, whatever the network configuration. */
  lemma OverlongNameFails(req: CreateClusterRequest, validCidr: string -> bool, validIp: string -> bool)
    requires Ascii(req.name) && |req.name| == MaxNameBytes + 1
    ensures CreateRequestVerdict(req, validCidr, validIp) == Fail(NameTooLong)
  {
  }

  /** A string of one repeated character weighs that character's bytes times its length. */
  lemma {:induction false} RepeatedCharLength(s: string, c: char)
    requires forall i | 0 <= i < |s| :: s[i] == c
    ensures Utf8Length(s) == |s| * CharBytes(c)
  {
    if s != [] {
      RepeatedCharLength(s[1..], c);
    }
  }

  /**
   * The limit is on bytes, not characters: 128 copies of a two-byte
   * character ('é', U+00E9) make 256 bytes, and the name is rejected.
   */
  lemma TwoByteNameOfHalfLengthFails(req: CreateClusterRequest, validCidr: string -> bool, validIp: string -> bool)
    requires |req.name| == 128 && forall i | 0 <= i < |req.name| :: req.name[i] == 'é'
    ensures Utf8Length(req.name) == 256
    ensures CreateRequestVerdict(req, validCidr, validIp) == Fail(NameTooLong)
  {
    RepeatedCharLength(req.name, 'é');
  }

  /** A create request passes only with a name of at most 255 bytes and a valid network configuration. */
  lemma AcceptedCreateIsWellFormed(req: CreateClusterRequest, validCidr: string -> bool, validIp: string -> bool)
    requires CreateRequestVerdict(req, validCidr, validIp).Pass?
    ensures req.name != "" && Utf8Length(req.name) <= MaxNameBytes
    ensures req.networkConfig.Some?
    ensures var c := req.networkConfig.value;
      c.cidr != "" && validCidr(c.cidr) && c.gateway != "" && validIp(c.gateway) && MinMtu <= c.mtu <= MaxMtu
      && forall i | 0 <= i < |c.dnsServers| :: validIp(c.dnsServers[i])
  {
  }

  /** The MTU bounds are inclusive: 576 and 9000 pass, 575 and 9001 fail. */
  lemma MtuBoundsInclusive(c: NetworkConfig, validCidr: string -> bool, validIp: string -> bool)
    requires c.cidr != "" && validCidr(c.cidr) && c.gateway != "" && validIp(c.gateway)
    requires forall i | 0 <= i < |c.dnsServers| :: validIp(c.dnsServers[i])
    ensures NetworkConfigVerdict(c.(mtu := MinMtu), validCidr, validIp) == Pass
    ensures NetworkConfigVerdict(c.(mtu := MaxMtu), validCidr, validIp) == Pass
    ensures NetworkConfigVerdict(c.(mtu := MinMtu - 1), validCidr, validIp) == Fail(InvalidMtu)
    ensures NetworkConfigVerdict(c.(mtu := MaxMtu + 1), validCidr, validIp) == Fail(InvalidMtu)
  {
  }

  /** The first unparsable DNS server is the one reported, even when later ones are unparsable too. */
  lemma FirstBadDnsServerReported(c: NetworkConfig, k: nat, validCidr: string -> bool, validIp: string -> bool)
    requires c.cidr != "" && validCidr(c.cidr) && c.gateway != "" && validIp(c.gateway)
    requires k < |c.dnsServers| && !validIp(c.dnsServers[k])
    requires forall i | 0 <= i < k :: validIp(c.dnsServers[i])
    ensures NetworkConfigVerdict(c, validCidr, validIp) == Fail(InvalidDnsServer(c.dnsServers[k]))
  {
  }

  /** An update that names no field refreshes only updated_at. */
  lemma EmptyUpdateOnlyTouchesTimestamp(c: Cluster, now: Timestamp)
    ensures Merged(c, UpdateClusterRequest(c.id, "", "", None), now) == c.(updatedAt := Some(now))
  {
  }

  /** Applying the same update twice at the same time is the same as applying it once. */
  lemma UpdateIsIdempotent(c: Cluster, req: UpdateClusterRequest, now: Timestamp)
    ensures Merged(Merged(c, req, now), req, now) == Merged(c, req, now)
  {
  }

  /** A merged cluster with a valid network configuration keeps one after any accepted update. */
  lemma AcceptedUpdateKeepsConfigValid(c: Cluster, req: UpdateClusterRequest, now: Timestamp,
                                       validCidr: string -> bool, validIp: string -> bool)
    requires c.networkConfig.Some? && NetworkConfigVerdict(c.networkConfig.value, validCidr, validIp).Pass?
    requires !RejectsNetworkConfig(req, validCidr, validIp)
    ensures var m := Merged(c, req, now);
      m.networkConfig.Some? && NetworkConfigVerdict(m.networkConfig.value, validCidr, validIp).Pass?
  {
  }
}

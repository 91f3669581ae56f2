/** The rewrites as the source writes them: loops over outbounds and rules that update the
    configuration they are given.  Each is proved to compute its XrayConfig function. */
module XrayRewrites {
  import opened Basics
  import opened XrayConfig
  import opened XrayProofs

  method TransportOutboundIndex(x: Config) returns (r: int)
    ensures r == TransportIndex(x.outbounds)
  {
    for i := 0 to |x.outbounds|
      invariant forall j :: 0 <= j < i ==> x.outbounds[j].vnext == []
    {
      if x.outbounds[i].vnext != [] {
        VnextIndexIs(x.outbounds, i);
        return i;
      }
    }
    r := if x.outbounds == [] then -1 else 0;
  }

  method ReorderOutboundsToDefaultTag(x: Config, tag: string) returns (r: Config)
    ensures r == x.(outbounds := Reorder(x.outbounds, tag))
  {
    r := x;
    if tag == "" { return; }
    var outs := x.outbounds;
    if |outs| < 2 { return; }
    var tagged := -1;
    for i := 0 to |outs|
      invariant tagged == -1 && forall j :: 0 <= j < i ==> outs[j].tag != tag
    {
      if outs[i].tag == tag {
        tagged := i;
        TagIndexIs(outs, tag, i);
        break;
      }
    }
    if tagged == -1 { TagIndexIs(outs, tag, |outs|); }
    if tagged <= 0 { return; }
    var preferred := outs[tagged];
    outs := outs[..tagged] + outs[tagged + 1..];
    outs := [preferred] + outs;
    r := x.(outbounds := outs);
  }

  method AlignManagedRoutingDefaultOutbound(x: Config, mode: RouteMode) returns (r: Config)
    ensures r == Align(x, mode)
  {
    r := x;
    if x.rules == [] { return; }
    var hasDirect, hasProxy := false, false;
    for i := 0 to |x.rules|
      invariant hasDirect == AnyDomainRule(x.rules[..i], "direct")
      invariant hasProxy == AnyDomainRule(x.rules[..i], "proxy")
    {
      var rule := x.rules[i];
      AnyDomainStep(x.rules, i, "direct");
      AnyDomainStep(x.rules, i, "proxy");
      if HasDomains(rule) {
        if rule.outboundTag == "direct" { hasDirect := true; }
        else if rule.outboundTag == "proxy" { hasProxy := true; }
      }
    }
    assert x.rules[..|x.rules|] == x.rules;
    var preferred := "proxy";
    if hasProxy && !hasDirect {
      preferred := "direct";
    } else if hasDirect && !hasProxy {
      preferred := "proxy";
    } else if hasProxy && hasDirect && mode == VpnOnlyForwardSites {
      preferred := "direct";
    }
    r := ReorderOutboundsToDefaultTag(x, preferred);
  }

  lemma AnyDomainStep(rules: seq<Rule>, i: nat, tag: string)
    requires i < |rules|
    ensures AnyDomainRule(rules[..i + 1], tag) <==>
              AnyDomainRule(rules[..i], tag) || (HasDomains(rules[i]) && rules[i].outboundTag == tag)
  {
    assert rules[..i + 1] == rules[..i] + [rules[i]];
    if AnyDomainRule(rules[..i], tag) {
      var r :| r in rules[..i] && HasDomains(r) && r.outboundTag == tag;
      assert r in rules[..i + 1];
    }
    assert rules[i] in rules[..i + 1];
  }

  method ForceResolvedOutboundAddress(x: Config, address: string) returns (r: Config)
    ensures r == ForceAddress(x, address)
  {
    r := x;
    if address == "" { return; }
    for i := 0 to |x.outbounds|
      invariant r == x && forall j :: 0 <= j < i ==> x.outbounds[j].vnext == []
    {
      var outbound := x.outbounds[i];
      if outbound.vnext == [] { continue; }
      VnextIndexIs(x.outbounds, i);
      var firstHop := outbound.vnext[0];
      if SameText(firstHop.address, address) { return; }
      firstHop := firstHop.(address := address);
      outbound := outbound.(vnext := outbound.vnext[0 := firstHop]);
      assert outbound.vnext == [firstHop] + x.outbounds[i].vnext[1..];
      r := x.(outbounds := x.outbounds[i := outbound]);
      return;
    }
  }

  method FallbackOutboundPortTo443(x: Config, address: string, probe: Probe) returns (r: Config, switched: bool)
    ensures r == FallbackPort(x, address, probe)
    ensures var i := VnextIndex(x.outbounds);
            switched <==>
              && address != "" && i < |x.outbounds|
              && var q := x.outbounds[i].vnext[0].port;
                 q > 0 && q != 443 && probe(address, 443) && !(q % 65536 != 0 && probe(address, q % 65536))
    ensures switched <==> r != x
  {
    r, switched := x, false;
    if address == "" { return; }
    var index := TransportOutboundIndex(x);
    if index < 0 || index >= |x.outbounds| { return; }
    var outbound := x.outbounds[index];
    if outbound.vnext == [] { return; }
    var firstHop := outbound.vnext[0];
    if firstHop.port <= 0 { return; }
    if PortReachable(probe, address, firstHop.port) { return; }
    if firstHop.port == 443 { return; }
    if !PortReachable(probe, address, 443) { return; }
    firstHop := firstHop.(port := 443);
    outbound := outbound.(vnext := outbound.vnext[0 := firstHop]);
    assert outbound.vnext == [firstHop] + x.outbounds[index].vnext[1..];
    r, switched := x.(outbounds := x.outbounds[index := outbound]), true;
  }

  method BlockQuic(x: Config) returns (r: Config)
    ensures r == EnsureQuicBlocked(x)
  {
    r := x;
    for i := 0 to |x.rules|
      invariant forall j :: 0 <= j < i ==> !IsUdp443Rule(x.rules[j])
    {
      if IsUdp443Rule(x.rules[i]) { return; }
    }
    var hasBlockOutbound := false;
    for i := 0 to |x.outbounds|
      invariant !hasBlockOutbound && forall j :: 0 <= j < i ==> x.outbounds[j].tag != QUIC_BLOCK_TAG
    {
      if x.outbounds[i].tag == QUIC_BLOCK_TAG {
        hasBlockOutbound := true;
        assert x.outbounds[i] in x.outbounds;
        break;
      }
    }
    if !hasBlockOutbound { r := r.(outbounds := x.outbounds + [BLACKHOLE]); }
    r := r.(rules := [QUIC_BLOCK_RULE] + x.rules);
    if x.domainStrategy.None? { r := r.(domainStrategy := Some("IPIfNonMatch")); }
  }

  method SanitizeDesktopXrayConfig(x: Config, linux: bool) returns (r: Config)
    ensures r == Sanitize(x, linux)
  {
    r := x.(logLevel := "warning");
    if x.inbounds != [] {
      r := r.(inbounds := [x.inbounds[0].(auth := "noauth", udp := true)] + x.inbounds[1..]);
    }
    var outs := x.outbounds;
    for i := 0 to |outs|
      invariant |outs| == |x.outbounds|
      invariant forall j :: 0 <= j < i ==> outs[j] == Tune(x.outbounds[j], linux)
      invariant forall j :: i <= j < |outs| ==> outs[j] == x.outbounds[j]
    {
      var sockopt := outs[i].sockopt;
      if outs[i].protocol == "vless" {
        sockopt := sockopt["tcpFastOpen" := Flag(true)];
        sockopt := sockopt["tcpKeepAliveIdle" := Number(45)];
        sockopt := sockopt["tcpKeepAliveInterval" := Number(45)];
      }
      if linux && (outs[i].protocol == "freedom" || outs[i].tag == "direct") {
        sockopt := sockopt["mark" := Number(LINUX_BYPASS_MARK)];
      }
      if sockopt != map[] { outs := outs[i := outs[i].(sockopt := sockopt)]; }
    }
    assert outs == TuneAll(x.outbounds, linux);
    r := r.(outbounds := outs);
    r := BlockQuic(r);
  }

  /** The constructor's sequence of rewrites. */
  method PrepareConfig(x: Config, address: string, mode: RouteMode, probe: Probe, linux: bool)
    returns (r: Config, switched: bool)
    ensures r == Prepare(x, address, mode, probe, linux)
  {
    r := ForceResolvedOutboundAddress(x, address);
    r := AlignManagedRoutingDefaultOutbound(r, mode);
    r, switched := FallbackOutboundPortTo443(r, address, probe);
    r := SanitizeDesktopXrayConfig(r, linux);
  }
}

/** What the XRay configuration rewrites preserve. */
module XrayProofs {
  import opened Basics
  import opened XrayConfig

  // ---------------------------------------------------------------- reordering

  /** The first outbound with a tag, found at a known place. */
  lemma {:induction false} TagIndexIs(outs: seq<Outbound>, tag: string, i: nat)
    requires i <= |outs| && (i < |outs| ==> outs[i].tag == tag)
    requires forall j :: 0 <= j < i ==> outs[j].tag != tag
    ensures TagIndex(outs, tag) == i
  {
    if outs != [] && outs[0].tag != tag { TagIndexIs(outs[1..], tag, i - 1); }
  }

  /** Where the outbound at position i ends up when position k moves to the front. */
  function NewPosition(k: nat, i: nat): nat { if i == k then 0 else if i < k then i + 1 else i }

  lemma MoveToFrontAt(outs: seq<Outbound>, k: nat, i: nat)
    requires k < |outs| && i < |outs|
    ensures |MoveToFront(outs, k)| == |outs| && NewPosition(k, i) < |outs|
    ensures MoveToFront(outs, k)[NewPosition(k, i)] == outs[i]
  {}

  /** Where the outbound at position j of the result came from. */
  function OldPosition(k: nat, j: nat): nat { if j == 0 then k else if j <= k then j - 1 else j }

  lemma MoveToFrontFrom(outs: seq<Outbound>, k: nat, j: nat)
    requires k < |outs| && j < |outs|
    ensures OldPosition(k, j) < |outs| && MoveToFront(outs, k)[j] == outs[OldPosition(k, j)]
  {}

  lemma MoveToFrontLookup(outs: seq<Outbound>, k: nat, tag: string)
    requires k < |outs| && forall j :: 0 <= j < k ==> outs[j].tag != outs[k].tag
    ensures ByTag(MoveToFront(outs, k), tag) == ByTag(outs, tag)
  {
    hide MoveToFront;
    var r, i := MoveToFront(outs, k), TagIndex(outs, tag);
    MoveToFrontAt(outs, k, k);
    var i' := if i < |outs| then NewPosition(k, i) else |outs|;
    if i < |outs| { MoveToFrontAt(outs, k, i); }
    forall j | 0 <= j < i' ensures r[j].tag != tag { MoveToFrontFrom(outs, k, j); }
    TagIndexIs(r, tag, i');
  }

  /** Reordering is a permutation that changes no lookup by tag; the tag it was asked for, if
      any outbound has it, becomes the default. */
  lemma ReorderKeepsLookups(outs: seq<Outbound>, tag: string, other: string)
    ensures multiset(Reorder(outs, tag)) == multiset(outs)
    ensures ByTag(Reorder(outs, tag), other) == ByTag(outs, other)
    ensures Default(Reorder(outs, tag)) ==
              if tag != "" && ByTag(outs, tag).Via? then ByTag(outs, tag) else Default(outs)
  {
    var k := TagIndex(outs, tag);
    if tag != "" && |outs| >= 2 && k < |outs| {
      assert outs == outs[..k] + [outs[k]] + outs[k + 1..];
      MoveToFrontLookup(outs, k, other);
    }
  }

  /** Aligning the default outbound leaves every packet that some rule matches on its route.
      Unmatched packets go direct when the domain rules only name the proxy, or name both and only
      forwarded sites use the tunnel; otherwise to the proxy; provided such an outbound exists. */
  lemma AlignMovesOnlyUnmatched(x: Config, mode: RouteMode, m: Matcher, p: Packet)
    ensures FirstMatch(x.rules, m, p).Some? ==> Decide(Align(x, mode), m, p) == Decide(x, m, p)
    ensures FirstMatch(x.rules, m, p).None? && x.rules != [] ==>
              var proxied := exists r :: r in x.rules && (r.domain != [] || r.domainSuffix != [])
                                         && r.outboundTag == "proxy";
              var bypassed := exists r :: r in x.rules && (r.domain != [] || r.domainSuffix != [])
                                          && r.outboundTag == "direct";
              var goesDirect := proxied && (bypassed ==> mode == VpnOnlyForwardSites);
              var target := ByTag(x.outbounds, if goesDirect then "direct" else "proxy");
              Decide(Align(x, mode), m, p) == if target.Via? then target else Decide(x, m, p)
    ensures multiset(Align(x, mode).outbounds) == multiset(x.outbounds) && Align(x, mode).rules == x.rules
  {
    var tag := PreferredTag(x.rules, mode);
    if FirstMatch(x.rules, m, p).Some? {
      ReorderKeepsLookups(x.outbounds, tag, FirstMatch(x.rules, m, p).value.outboundTag);
    } else {
      ReorderKeepsLookups(x.outbounds, tag, tag);
    }
  }

  // ---------------------------------------------------------------- QUIC blocking

  lemma {:induction false} AppendedTag(outs: seq<Outbound>, o: Outbound, tag: string)
    ensures ByTag(outs + [o], tag) ==
              if ByTag(outs, tag).Via? then ByTag(outs, tag) else if o.tag == tag then Via(o) else DeadTag(tag)
  {
    var i := TagIndex(outs, tag);
    if i < |outs| { TagIndexIs(outs + [o], tag, i); }
    else if o.tag == tag { TagIndexIs(outs + [o], tag, |outs|); }
    else { TagIndexIs(outs + [o], tag, |outs| + 1); }
  }

  lemma HasTagMeans(outs: seq<Outbound>, tag: string)
    ensures HasTag(outs, tag) <==> ByTag(outs, tag).Via?
  {
    var i := TagIndex(outs, tag);
    if i < |outs| { assert outs[i] in outs; }
  }

  /** After a rewrite that adds the rule, QUIC goes to the first outbound with the block tag,
      which is a blackhole unless the configuration brought its own. */
  lemma QuicIsBlocked(x: Config, m: Matcher, p: Packet)
    requires Sensible(m) && !HasUdp443Rule(x.rules) && IsQuic(p)
    ensures Decide(EnsureQuicBlocked(x), m, p) ==
              if HasTag(x.outbounds, QUIC_BLOCK_TAG) then ByTag(x.outbounds, QUIC_BLOCK_TAG) else Via(BLACKHOLE)
  {
    HasTagMeans(x.outbounds, QUIC_BLOCK_TAG);
    AppendedTag(x.outbounds, BLACKHOLE, QUIC_BLOCK_TAG);
  }

  /** Every other packet keeps its route, except where the added outbound fills a gap: the
      decision changes if and only if there was no outbound tagged quic-block and the packet
      was going to that dead tag or there was no outbound at all. */
  lemma OtherTrafficKeepsItsRoute(x: Config, m: Matcher, p: Packet)
    requires Sensible(m) && !IsQuic(p)
    ensures Decide(EnsureQuicBlocked(x), m, p) == Decide(x, m, p) <==>
              HasUdp443Rule(x.rules) || HasTag(x.outbounds, QUIC_BLOCK_TAG)
              || (Decide(x, m, p) != DeadTag(QUIC_BLOCK_TAG) && Decide(x, m, p) != Nowhere)
    ensures Decide(EnsureQuicBlocked(x), m, p) in {Decide(x, m, p), Via(BLACKHOLE)}
  {
    if !HasUdp443Rule(x.rules) {
      assert ([QUIC_BLOCK_RULE] + x.rules)[1..] == x.rules;
      match FirstMatch(x.rules, m, p)
      case Some(r) => AppendedTag(x.outbounds, BLACKHOLE, r.outboundTag);
      case None =>
    }
  }

  /** The promise: with outbounds present, no rule for UDP/443 yet and the block tag unused,
      exactly the UDP/443 packets change route, into the blackhole. */
  lemma QuicBlockingPreservesMeaning(x: Config, m: Matcher, p: Packet)
    requires Sensible(m) && x.outbounds != [] && !HasUdp443Rule(x.rules) && !HasTag(x.outbounds, QUIC_BLOCK_TAG)
    requires forall r :: r in x.rules ==> r.outboundTag != QUIC_BLOCK_TAG
    ensures Decide(EnsureQuicBlocked(x), m, p) == if IsQuic(p) then Via(BLACKHOLE) else Decide(x, m, p)
  {
    if IsQuic(p) { QuicIsBlocked(x, m, p); }
    else {
      OtherTrafficKeepsItsRoute(x, m, p);
      MatchIsARule(x.rules, m, p);
    }
  }

  lemma {:induction false} MatchIsARule(rules: seq<Rule>, m: Matcher, p: Packet)
    ensures FirstMatch(rules, m, p).Some? ==> FirstMatch(rules, m, p).value in rules
  {
    if rules != [] && !m(rules[0], p) { MatchIsARule(rules[1..], m, p); }
  }

  /** Applying the rewrite twice is applying it once, for every configuration. */
  lemma QuicBlockingIsIdempotent(x: Config)
    ensures HasUdp443Rule(EnsureQuicBlocked(x).rules)
    ensures x.domainStrategy.Some? ==> EnsureQuicBlocked(x).domainStrategy == x.domainStrategy
    ensures EnsureQuicBlocked(EnsureQuicBlocked(x)) == EnsureQuicBlocked(x)
  {
    if !HasUdp443Rule(x.rules) {
      assert QUIC_BLOCK_RULE in EnsureQuicBlocked(x).rules && IsUdp443Rule(QUIC_BLOCK_RULE);
    }
  }

  predicate Blackholed(d: Decision) { d.Via? && d.outbound.protocol == "blackhole" }

  /** QUIC ends in a blackhole exactly when the configuration does not stand in the way: the
      guard only looks at network and port of a rule, not at where it leads, and an outbound
      that already has the block tag is taken for a blackhole. */
  lemma QuicBlockedExactlyWhen(x: Config, m: Matcher, p: Packet)
    requires Sensible(m) && IsQuic(p)
    ensures Blackholed(Decide(EnsureQuicBlocked(x), m, p)) <==>
              if HasUdp443Rule(x.rules) then Blackholed(Decide(x, m, p))
              else HasTag(x.outbounds, QUIC_BLOCK_TAG) ==> Blackholed(ByTag(x.outbounds, QUIC_BLOCK_TAG))
  {
    if !HasUdp443Rule(x.rules) { QuicIsBlocked(x, m, p); }
  }

  const PROXY := Outbound("proxy", "vless", [Hop("198.51.100.7", 8443, "")], "", map[], "")

  const QUIC_PACKET := Packet(true, 443, "example.org")

  /** Rules that name UDP/443 match exactly QUIC; no other rule matches. */
  function ByPort(): Matcher { (r: Rule, p: Packet) => IsUdp443Rule(r) && IsQuic(p) }

  /** A UDP/443 rule that leads to the proxy, and a proxy tagged quic-block: either lets QUIC
      through the rewritten configuration. */
  lemma QuicNotBlockedWitness()
    ensures Sensible(ByPort()) && IsQuic(QUIC_PACKET)
    ensures var x := Config([PROXY], [QUIC_BLOCK_RULE.(outboundTag := "proxy")], None, [], "");
            Decide(EnsureQuicBlocked(x), ByPort(), QUIC_PACKET) == Via(PROXY)
    ensures var o := PROXY.(tag := QUIC_BLOCK_TAG);
            Decide(EnsureQuicBlocked(Config([o], [], None, [], "")), ByPort(), QUIC_PACKET) == Via(o)
    ensures !Blackholed(Via(PROXY)) && !Blackholed(Via(PROXY.(tag := QUIC_BLOCK_TAG)))
  {
    var r := QUIC_BLOCK_RULE.(outboundTag := "proxy");
    assert r in [r] && IsUdp443Rule(r) && HasUdp443Rule([r]);
    assert FirstMatch([r], ByPort(), QUIC_PACKET) == Some(r);
    var o := PROXY.(tag := QUIC_BLOCK_TAG);
    assert o in [o] && HasTag([o], QUIC_BLOCK_TAG);
    QuicIsBlocked(Config([o], [], None, [], ""), ByPort(), QUIC_PACKET);
    assert |PROXY.protocol| == 5;
  }

  // ---------------------------------------------------------------- transport pinning

  lemma {:induction false} VnextIndexIs(outs: seq<Outbound>, i: nat)
    requires i < |outs| && outs[i].vnext != [] && forall j :: 0 <= j < i ==> outs[j].vnext == []
    ensures VnextIndex(outs) == i
  {
    if outs[0].vnext == [] { VnextIndexIs(outs[1..], i - 1); }
  }

  /** t is the position of the only outbound with a non-empty vnext. */
  ghost predicate OnlyTransport(outs: seq<Outbound>, t: nat) {
    && t < |outs| && outs[t].vnext != []
    && forall j :: 0 <= j < |outs| && j != t ==> outs[j].vnext == []
  }

  /** Same tag, protocol and settings; socket options may differ. */
  predicate SameCore(a: Outbound, b: Outbound) {
    && a.tag == b.tag && a.protocol == b.protocol && a.vnext == b.vnext
    && a.otherSettings == b.otherSettings && a.rest == b.rest
  }

  /** b is the transport a with its first hop pinned to an address. */
  predicate Pinned(a: Outbound, b: Outbound, address: string)
    requires a.vnext != []
  {
    && b.vnext != [] && SameCore(a.(vnext := b.vnext), b) && b.vnext[1..] == a.vnext[1..]
    && SameText(b.vnext[0].address, address) && b.vnext[0].rest == a.vnext[0].rest
    && (b.vnext[0].port == a.vnext[0].port || b.vnext[0].port == 443)
  }

  /** The position that alignment moves to the front: none when it is 0. */
  function MovedIndex(x: Config, mode: RouteMode): nat {
    var k := TagIndex(x.outbounds, PreferredTag(x.rules, mode));
    if x.rules == [] || |x.outbounds| < 2 || k == |x.outbounds| then 0 else k
  }

  lemma ForceKeepsTags(x: Config, address: string, mode: RouteMode)
    ensures MovedIndex(ForceAddress(x, address), mode) == MovedIndex(x, mode)
    ensures |ForceAddress(x, address).outbounds| == |x.outbounds| && ForceAddress(x, address).rules == x.rules
  {
    var tag := PreferredTag(x.rules, mode);
    TagIndexIs(ForceAddress(x, address).outbounds, tag, TagIndex(x.outbounds, tag));
  }

  lemma AlignPositions(x: Config, mode: RouteMode, i: nat)
    requires i < |x.outbounds|
    ensures var j := NewPosition(MovedIndex(x, mode), i);
            var outs := Align(x, mode).outbounds;
            |outs| == |x.outbounds| && j < |outs| && outs[j] == x.outbounds[i]
    ensures Align(x, mode).rules == x.rules
  {
    if x.rules != [] {
      var k := TagIndex(x.outbounds, PreferredTag(x.rules, mode));
      if k < |x.outbounds| && |x.outbounds| >= 2 { MoveToFrontAt(x.outbounds, k, i); }
    }
  }

  lemma AlignTransport(x: Config, mode: RouteMode, t: nat)
    requires OnlyTransport(x.outbounds, t)
    ensures OnlyTransport(Align(x, mode).outbounds, NewPosition(MovedIndex(x, mode), t))
  {
    var k, outs := MovedIndex(x, mode), Align(x, mode).outbounds;
    AlignPositions(x, mode, t);
    forall j | 0 <= j < |outs| && j != NewPosition(k, t) ensures outs[j].vnext == [] {
      AlignPositions(x, mode, OldPosition(k, j));
    }
  }

  lemma {:induction false} ForcePins(x: Config, address: string, t: nat)
    requires OnlyTransport(x.outbounds, t) && address != ""
    ensures var outs := ForceAddress(x, address).outbounds;
            && OnlyTransport(outs, t) && Pinned(x.outbounds[t], outs[t], address)
            && outs[t].vnext[0].port == x.outbounds[t].vnext[0].port
            && outs == x.outbounds[t := outs[t]]
  {
    VnextIndexIs(x.outbounds, t);
  }

  lemma FallbackKeeps(x: Config, address: string, probe: Probe, t: nat)
    requires OnlyTransport(x.outbounds, t)
    ensures var outs := FallbackPort(x, address, probe).outbounds;
            && OnlyTransport(outs, t) && outs == x.outbounds[t := outs[t]]
            && SameCore(x.outbounds[t].(vnext := outs[t].vnext), outs[t])
            && outs[t].vnext[1..] == x.outbounds[t].vnext[1..]
            && outs[t].vnext[0] == x.outbounds[t].vnext[0].(port := outs[t].vnext[0].port)
            && outs[t].vnext[0].port ==
                 (if FallsBack(x.outbounds[t], address, probe) then 443 else x.outbounds[t].vnext[0].port)
  {
    VnextIndexIs(x.outbounds, t);
  }

  lemma SanitizeKeeps(x: Config, linux: bool, t: nat)
    requires OnlyTransport(x.outbounds, t)
    ensures var outs := Sanitize(x, linux).outbounds;
            && OnlyTransport(outs, t) && |outs| >= |x.outbounds|
            && (forall i :: 0 <= i < |x.outbounds| ==> outs[i] == Tune(x.outbounds[i], linux))
            && (forall i :: |x.outbounds| <= i < |outs| ==> outs[i] == BLACKHOLE)
  {}

  /** Transport pinning.  With exactly one outbound that has a vnext and a resolved address, after
      all four rewrites: every outbound i sits at its new position with tag, protocol and settings
      untouched, except that the transport's first hop has the resolved address (up to case) and
      its own port or 443; it is still the one the transport lookup finds; and the only outbound
      added is the blackhole, at the end. */
  lemma TransportPinning(x: Config, address: string, mode: RouteMode, probe: Probe, linux: bool, t: nat, i: nat)
    requires OnlyTransport(x.outbounds, t) && address != "" && i < |x.outbounds|
    ensures var outs := Prepare(x, address, mode, probe, linux).outbounds;
            var k := MovedIndex(x, mode);
            && |x.outbounds| <= |outs| && NewPosition(k, i) < |x.outbounds|
            && (if i == t then Pinned(x.outbounds[t], outs[NewPosition(k, t)], address)
                else SameCore(x.outbounds[i], outs[NewPosition(k, i)]))
            && TransportIndex(outs) == NewPosition(k, t) && OnlyTransport(outs, NewPosition(k, t))
            && forall j :: |x.outbounds| <= j < |outs| ==> outs[j] == BLACKHOLE
  {
    var k := MovedIndex(x, mode);
    var f := ForceAddress(x, address);
    ForcePins(x, address, t);
    ForceKeepsTags(x, address, mode);
    AlignTransport(f, mode, t);
    AlignPositions(f, mode, t);
    AlignPositions(f, mode, i);
    var a := Align(f, mode);
    var t' := NewPosition(k, t);
    FallbackKeeps(a, address, probe, t');
    var b := FallbackPort(a, address, probe);
    SanitizeKeeps(b, linux, t');
    var outs := Sanitize(b, linux).outbounds;
    VnextIndexIs(outs, t');
    if i != t { NewPositionInjective(k, i, t); }
  }

  lemma NewPositionInjective(k: nat, i: nat, j: nat)
    requires i != j
    ensures NewPosition(k, i) != NewPosition(k, j)
  {}

  /** The other outbounds keep their relative order if and only if the outbound moved to the
      front is the transport itself or has no other outbound before it. */
  lemma OrderOfOthers(x: Config, mode: RouteMode, t: nat)
    requires OnlyTransport(x.outbounds, t)
    ensures var k := MovedIndex(x, mode);
            (forall i: nat, j: nat :: i < j < |x.outbounds| && i != t && j != t ==>
               NewPosition(k, i) < NewPosition(k, j))
            <==> k == 0 || k == t || (k == 1 && t == 0)
  {
    var k := MovedIndex(x, mode);
    if k != 0 && k != t && !(k == 1 && t == 0) {
      var i := if t == 0 then 1 else 0;
      assert i < k && i != t && NewPosition(k, i) > NewPosition(k, k);
    }
  }

  const BLOCK := Outbound("block", "blackhole", [], "", map[], "")

  const DIRECT := Outbound("direct", "freedom", [], "", map[], "")

  /** Three outbounds of which the last becomes the default: the other two that are not the
      transport swap places. */
  lemma OrderOfOthersWitness(mode: RouteMode)
    ensures var x := Config([PROXY, BLOCK, DIRECT], [Rule("", NoPort, ["example.org"], [], "proxy", "")], None, [], "");
            && OnlyTransport(x.outbounds, 0) && MovedIndex(x, mode) == 2
            && Align(x, mode).outbounds == [DIRECT, PROXY, BLOCK]
  {
    var rule := Rule("", NoPort, ["example.org"], [], "proxy", "");
    var outs := [PROXY, BLOCK, DIRECT];
    assert rule in [rule] && AnyDomainRule([rule], "proxy") && !AnyDomainRule([rule], "direct");
    assert |"proxy"| == 5 && |"block"| == 5 && |"direct"| == 6;
    TagIndexIs(outs, "direct", 2);
  }
}

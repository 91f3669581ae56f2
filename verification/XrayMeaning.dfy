/** What the four rewrites of an XRay configuration together do to the traffic. */
module XrayMeaning {
  import opened Basics
  import opened XrayConfig
  import opened XrayProofs

  /** `b` is the outbound `a`, up to address and port of its first hop. */
  ghost predicate Repinned(a: Outbound, b: Outbound) {
    && b == a.(vnext := b.vnext) && |b.vnext| == |a.vnext|
    && (a.vnext != [] ==> b.vnext[1..] == a.vnext[1..] && b.vnext[0].rest == a.vnext[0].rest)
  }

  ghost predicate AllRepinned(a: seq<Outbound>, b: seq<Outbound>) {
    |a| == |b| && forall i :: 0 <= i < |a| ==> Repinned(a[i], b[i])
  }

  /** The same decision, up to what the rewrites do to an outbound. */
  ghost predicate SameWay(d: Decision, e: Decision, linux: bool) {
    if d.Via? then e.Via? && Repinned(Tune(d.outbound, linux), e.outbound) else e == d
  }

  // ---------------------------------------------------------------- outbounds, one by one

  lemma ForceRepins(x: Config, address: string)
    ensures ForceAddress(x, address).rules == x.rules
    ensures AllRepinned(x.outbounds, ForceAddress(x, address).outbounds)
  {}

  lemma FallbackRepins(x: Config, address: string, probe: Probe)
    ensures FallbackPort(x, address, probe).rules == x.rules
    ensures AllRepinned(x.outbounds, FallbackPort(x, address, probe).outbounds)
  {}

  lemma RepinnedTwice(a: seq<Outbound>, b: seq<Outbound>, c: seq<Outbound>)
    requires AllRepinned(a, b) && AllRepinned(b, c)
    ensures AllRepinned(a, c)
  {
    forall i | 0 <= i < |a| ensures Repinned(a[i], c[i]) { assert Repinned(a[i], b[i]) && Repinned(b[i], c[i]); }
  }

  lemma RepinnedIndex(a: seq<Outbound>, b: seq<Outbound>, tag: string)
    requires AllRepinned(a, b)
    ensures TagIndex(a, tag) == TagIndex(b, tag)
  {
    var i := TagIndex(a, tag);
    forall j | 0 <= j < |a| ensures a[j].tag == b[j].tag { assert Repinned(a[j], b[j]); }
    TagIndexIs(b, tag, i);
  }

  /** Reordering only looks at tags. */
  lemma AlignRepins(x: Config, y: Config, mode: RouteMode)
    requires AllRepinned(x.outbounds, y.outbounds) && x.rules == y.rules
    ensures AllRepinned(Align(x, mode).outbounds, Align(y, mode).outbounds)
    ensures Align(y, mode).rules == x.rules
  {
    hide MoveToFront, PreferredTag;
    var tag := PreferredTag(x.rules, mode);
    RepinnedIndex(x.outbounds, y.outbounds, tag);
    var k := TagIndex(x.outbounds, tag);
    if k < |x.outbounds| {
      MoveToFrontAt(x.outbounds, k, k);
      MoveToFrontAt(y.outbounds, k, k);
      forall j | 0 <= j < |x.outbounds|
        ensures Repinned(MoveToFront(x.outbounds, k)[j], MoveToFront(y.outbounds, k)[j])
      {
        MoveToFrontFrom(x.outbounds, k, j);
        MoveToFrontFrom(y.outbounds, k, j);
      }
    }
  }

  lemma TuneRepins(a: seq<Outbound>, b: seq<Outbound>, linux: bool)
    requires AllRepinned(a, b)
    ensures AllRepinned(TuneAll(a, linux), TuneAll(b, linux))
  {
    forall i | 0 <= i < |a| ensures Repinned(TuneAll(a, linux)[i], TuneAll(b, linux)[i]) {
      assert Repinned(a[i], b[i]);
    }
  }

  /** The configuration on which the QUIC block is put. */
  function Tuned(x: Config, address: string, mode: RouteMode, probe: Probe, linux: bool): Config {
    var y := FallbackPort(Align(ForceAddress(x, address), mode), address, probe);
    y.(logLevel := "warning",
       inbounds := if y.inbounds == [] then [] else [y.inbounds[0].(auth := "noauth", udp := true)] + y.inbounds[1..],
       outbounds := TuneAll(y.outbounds, linux))
  }

  lemma TunedOutbounds(x: Config, address: string, mode: RouteMode, probe: Probe, linux: bool)
    ensures var y := Tuned(x, address, mode, probe, linux);
            && Prepare(x, address, mode, probe, linux) == EnsureQuicBlocked(y) && y.rules == x.rules
            && AllRepinned(TuneAll(Align(x, mode).outbounds, linux), y.outbounds)
  {
    hide ForceAddress, Align, FallbackPort, AllRepinned, TuneAll;
    var f := ForceAddress(x, address);
    ForceRepins(x, address);
    AlignRepins(x, f, mode);
    var a := Align(f, mode);
    FallbackRepins(a, address, probe);
    var y := FallbackPort(a, address, probe);
    RepinnedTwice(Align(x, mode).outbounds, a.outbounds, y.outbounds);
    TuneRepins(Align(x, mode).outbounds, y.outbounds, linux);
  }

  // ---------------------------------------------------------------- decisions

  lemma SameTagSameWay(a: seq<Outbound>, b: seq<Outbound>, tag: string, linux: bool)
    requires AllRepinned(TuneAll(a, linux), b)
    ensures SameWay(ByTag(a, tag), ByTag(b, tag), linux) && SameWay(Default(a), Default(b), linux)
  {
    var i := TagIndex(a, tag);
    forall j | 0 <= j < |a| ensures a[j].tag == b[j].tag && Repinned(Tune(a[j], linux), b[j]) {
      assert Repinned(TuneAll(a, linux)[j], b[j]);
    }
    TagIndexIs(b, tag, i);
  }

  /** Where the packet is meant to go once the default outbound is aligned: matched packets as
      before, unmatched ones to the preferred outbound if there is one. */
  function Aimed(x: Config, mode: RouteMode, m: Matcher, p: Packet): Decision {
    if FirstMatch(x.rules, m, p).Some? || x.rules == [] then Decide(x, m, p)
    else
      var target := ByTag(x.outbounds, PreferredTag(x.rules, mode));
      if target.Via? then target else Decide(x, m, p)
  }

  lemma TunedWay(x: Config, address: string, mode: RouteMode, probe: Probe, linux: bool, m: Matcher, p: Packet)
    ensures var y := Tuned(x, address, mode, probe, linux);
            && SameWay(Aimed(x, mode, m, p), Decide(y, m, p), linux)
            && SameWay(ByTag(x.outbounds, QUIC_BLOCK_TAG), ByTag(y.outbounds, QUIC_BLOCK_TAG), linux)
  {
    hide Tuned, TuneAll, Align, TagIndex, SameWay, AllRepinned;
    var y := Tuned(x, address, mode, probe, linux);
    TunedOutbounds(x, address, mode, probe, linux);
    AlignMovesOnlyUnmatched(x, mode, m, p);
    var tag := match FirstMatch(x.rules, m, p) case Some(r) => r.outboundTag case None => "";
    SameTagSameWay(Align(x, mode).outbounds, y.outbounds, tag, linux);
    SameTagSameWay(Align(x, mode).outbounds, y.outbounds, QUIC_BLOCK_TAG, linux);
    AlignKeepsLookup(x, mode, QUIC_BLOCK_TAG);
    NoRulesNoAlignment(x, mode);
  }

  lemma NoRulesNoAlignment(x: Config, mode: RouteMode)
    ensures x.rules == [] ==> Align(x, mode) == x
  {}

  lemma AlignKeepsLookup(x: Config, mode: RouteMode, tag: string)
    ensures ByTag(Align(x, mode).outbounds, tag) == ByTag(x.outbounds, tag)
  {
    ReorderKeepsLookups(x.outbounds, PreferredTag(x.rules, mode), tag);
  }

  /** The meaning of the whole rewriting.  Unless the configuration brings its own UDP/443 rule,
      QUIC goes to the outbound with the block tag, the blackhole if there was none.  Every other
      packet goes where it was aimed, through the same outbound up to its first hop's address and
      port and the socket options; only where that was nowhere, the blackhole takes it. */
  lemma PrepareMeaning(x: Config, address: string, mode: RouteMode, probe: Probe, linux: bool, m: Matcher, p: Packet)
    requires Sensible(m)
    ensures var d := Decide(Prepare(x, address, mode, probe, linux), m, p);
            var aimed := Aimed(x, mode, m, p);
            if HasUdp443Rule(x.rules) then SameWay(aimed, d, linux)
            else if IsQuic(p) then
              if HasTag(x.outbounds, QUIC_BLOCK_TAG) then SameWay(ByTag(x.outbounds, QUIC_BLOCK_TAG), d, linux)
              else d == Via(BLACKHOLE)
            else if aimed == DeadTag(QUIC_BLOCK_TAG) || aimed == Nowhere then d == Via(BLACKHOLE)
            else SameWay(aimed, d, linux)
  {
    hide Prepare, Tuned, Aimed, EnsureQuicBlocked, HasUdp443Rule, Decide, ByTag, HasTag, AllRepinned;
    var y := Tuned(x, address, mode, probe, linux);
    TunedOutbounds(x, address, mode, probe, linux);
    TunedWay(x, address, mode, probe, linux, m, p);
    HasTagMeans(x.outbounds, QUIC_BLOCK_TAG);
    HasTagMeans(y.outbounds, QUIC_BLOCK_TAG);
    if HasUdp443Rule(x.rules) {
      AlreadyBlocked(y);
    } else if IsQuic(p) {
      QuicIsBlocked(y, m, p);
    } else {
      OtherTrafficKeepsItsRoute(y, m, p);
      GapMeansNoTag(y, m, p);
    }
  }

  lemma AlreadyBlocked(x: Config)
    requires HasUdp443Rule(x.rules)
    ensures EnsureQuicBlocked(x) == x
  {}

  lemma GapMeansNoTag(x: Config, m: Matcher, p: Packet)
    ensures Decide(x, m, p) == DeadTag(QUIC_BLOCK_TAG) || Decide(x, m, p) == Nowhere ==>
              !HasTag(x.outbounds, QUIC_BLOCK_TAG)
  {
    HasTagMeans(x.outbounds, QUIC_BLOCK_TAG);
  }

  /** On Linux whatever leaves the rewritten configuration outside the tunnel, by a freedom
      outbound or one tagged direct, carries the kill switch's bypass mark; and nothing else
      does unless the configuration had put a mark there itself. */
  lemma DirectTrafficIsMarked(x: Config, address: string, mode: RouteMode, probe: Probe, m: Matcher, p: Packet)
    ensures var d := Decide(Prepare(x, address, mode, probe, true), m, p);
            d.Via? ==>
              var o := d.outbound;
              if o.protocol == "freedom" || o.tag == "direct"
              then "mark" in o.sockopt && o.sockopt["mark"] == Number(0x3211)
              else "mark" in o.sockopt ==> exists a :: a in x.outbounds && a.tag == o.tag && "mark" in a.sockopt
  {
    hide Prepare, Tuned, Align, AllRepinned, Decide, HasUdp443Rule;
    var y := Tuned(x, address, mode, probe, true);
    TunedOutbounds(x, address, mode, probe, true);
    var z := EnsureQuicBlocked(y);
    var d := Decide(z, m, p);
    if d.Via? {
      ViaIsListed(z, m, p);
      if d.outbound in y.outbounds { OriginOf(x, mode, y.outbounds, d.outbound, true); }
    }
  }

  lemma ViaIsListed(x: Config, m: Matcher, p: Packet)
    ensures Decide(x, m, p).Via? ==> Decide(x, m, p).outbound in x.outbounds
  {}

  lemma OriginOf(x: Config, mode: RouteMode, outs: seq<Outbound>, o: Outbound, linux: bool)
    requires AllRepinned(TuneAll(Align(x, mode).outbounds, linux), outs) && o in outs
    ensures exists a :: a in x.outbounds && Repinned(Tune(a, linux), o)
  {
    var j :| 0 <= j < |outs| && outs[j] == o;
    var a := Align(x, mode).outbounds[j];
    ReorderKeepsLookups(x.outbounds, PreferredTag(x.rules, mode), "");
    assert a in multiset(Align(x, mode).outbounds);
    assert a in x.outbounds && Repinned(Tune(a, linux), o);
  }
}

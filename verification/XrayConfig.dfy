/** The XRay configuration as typed records, the rewrites the protocol object applies to it, and
    a small routing semantics to say what the rewrites preserve.  Parts of the JSON that no
    rewrite looks at are carried along as opaque text. */
module XrayConfig {
  import opened Basics

  const QUIC_BLOCK_TAG := "quic-block"
  const LINUX_BYPASS_MARK := 0x3211

  datatype Value = Flag(b: bool) | Number(n: int) | Json(text: string)

  datatype Hop = Hop(address: string, port: int, rest: string)

  datatype Outbound = Outbound(
    tag: string, protocol: string, vnext: seq<Hop>, otherSettings: string,
    sockopt: map<string, Value>, rest: string)

  datatype Port = NoPort | PortNumber(n: int) | PortText(text: string)

  datatype Rule = Rule(
    network: string, port: Port, domain: seq<string>, domainSuffix: seq<string>,
    outboundTag: string, rest: string)

  datatype Inbound = Inbound(auth: string, udp: bool, rest: string)

  datatype Config = Config(
    outbounds: seq<Outbound>, rules: seq<Rule>, domainStrategy: Option<string>,
    inbounds: seq<Inbound>, logLevel: string)

  datatype RouteMode = VpnAllSites | VpnOnlyForwardSites | VpnAllExceptSites

  const BLACKHOLE := Outbound(QUIC_BLOCK_TAG, "blackhole", [], "", map[], "")
  const QUIC_BLOCK_RULE := Rule("udp", PortText("443"), [], [], QUIC_BLOCK_TAG, "field")

  // ---------------------------------------------------------------- routing semantics

  datatype Packet = Packet(udp: bool, port: nat, host: string)

  /** How a rule's conditions are evaluated is left open, except for the rule the code writes. */
  type Matcher = (Rule, Packet) -> bool

  predicate IsQuic(p: Packet) { p.udp && p.port == 443 }

  ghost predicate Sensible(m: Matcher) {
    forall p :: m(QUIC_BLOCK_RULE, p) <==> IsQuic(p)
  }

  datatype Decision = Via(outbound: Outbound) | DeadTag(tag: string) | Nowhere

  function FirstMatch(rules: seq<Rule>, m: Matcher, p: Packet): Option<Rule> {
    if rules == [] then None
    else if m(rules[0], p) then Some(rules[0])
    else FirstMatch(rules[1..], m, p)
  }

  /** The index of the first outbound with a tag, or the number of outbounds. */
  function TagIndex(outs: seq<Outbound>, tag: string): (i: nat)
    ensures i <= |outs| && (i < |outs| ==> outs[i].tag == tag)
    ensures forall j :: 0 <= j < i ==> outs[j].tag != tag
  {
    if outs == [] || outs[0].tag == tag then 0 else 1 + TagIndex(outs[1..], tag)
  }

  function ByTag(outs: seq<Outbound>, tag: string): Decision {
    var i := TagIndex(outs, tag);
    if i < |outs| then Via(outs[i]) else DeadTag(tag)
  }

  function Default(outs: seq<Outbound>): Decision {
    if outs == [] then Nowhere else Via(outs[0])
  }

  /** The first matching rule picks the first outbound with its tag; a packet that no rule
      matches goes to the first outbound. */
  function Decide(x: Config, m: Matcher, p: Packet): Decision {
    match FirstMatch(x.rules, m, p)
    case Some(r) => ByTag(x.outbounds, r.outboundTag)
    case None => Default(x.outbounds)
  }

  // ---------------------------------------------------------------- the rewrites

  /** The index of the first outbound with a non-empty vnext, or the number of outbounds. */
  function VnextIndex(outs: seq<Outbound>): (i: nat)
    ensures i <= |outs| && (i < |outs| ==> outs[i].vnext != [])
    ensures forall j :: 0 <= j < i ==> outs[j].vnext == []
  {
    if outs == [] || outs[0].vnext != [] then 0 else 1 + VnextIndex(outs[1..])
  }

  function TransportIndex(outs: seq<Outbound>): int {
    if VnextIndex(outs) < |outs| then VnextIndex(outs) else if outs == [] then -1 else 0
  }

  function MoveToFront(outs: seq<Outbound>, k: nat): seq<Outbound>
    requires k < |outs|
  {
    [outs[k]] + outs[..k] + outs[k + 1..]
  }

  function Reorder(outs: seq<Outbound>, tag: string): seq<Outbound> {
    if tag == "" || |outs| < 2 || TagIndex(outs, tag) == |outs| then outs
    else MoveToFront(outs, TagIndex(outs, tag))
  }

  predicate HasDomains(r: Rule) { r.domain != [] || r.domainSuffix != [] }

  predicate AnyDomainRule(rules: seq<Rule>, tag: string) {
    exists r :: r in rules && HasDomains(r) && r.outboundTag == tag
  }

  /** The tag that should carry unmatched traffic. */
  function PreferredTag(rules: seq<Rule>, mode: RouteMode): string {
    var direct, proxy := AnyDomainRule(rules, "direct"), AnyDomainRule(rules, "proxy");
    if proxy && (!direct || mode == VpnOnlyForwardSites) then "direct" else "proxy"
  }

  function Align(x: Config, mode: RouteMode): Config {
    if x.rules == [] then x else x.(outbounds := Reorder(x.outbounds, PreferredTag(x.rules, mode)))
  }

  function LowerChar(c: char): char { if 'A' <= c <= 'Z' then ((c as int) + 32) as char else c }

  function Lower(s: string): string { if s == [] then [] else [LowerChar(s[0])] + Lower(s[1..]) }

  predicate SameText(a: string, b: string) { Lower(a) == Lower(b) }

  function SetFirstHop(o: Outbound, h: Hop): Outbound
    requires o.vnext != []
  {
    o.(vnext := [h] + o.vnext[1..])
  }

  function ForceAddress(x: Config, address: string): Config {
    var i := VnextIndex(x.outbounds);
    if address == "" || i == |x.outbounds| then x
    else
      var o := x.outbounds[i];
      if SameText(o.vnext[0].address, address) then x
      else x.(outbounds := x.outbounds[i := SetFirstHop(o, o.vnext[0].(address := address))])
  }

  /** Whether a TCP port answers; the probe itself is the environment's. */
  type Probe = (string, int) -> bool

  predicate PortReachable(probe: Probe, address: string, port: int) {
    address != "" && port % 65536 != 0 && probe(address, port % 65536)
  }

  predicate FallsBack(o: Outbound, address: string, probe: Probe) {
    && o.vnext != [] && o.vnext[0].port > 0 && o.vnext[0].port != 443
    && !PortReachable(probe, address, o.vnext[0].port) && PortReachable(probe, address, 443)
  }

  function FallbackPort(x: Config, address: string, probe: Probe): Config {
    var i := TransportIndex(x.outbounds);
    if i < 0 || !FallsBack(x.outbounds[i], address, probe) then x
    else
      var o := x.outbounds[i];
      x.(outbounds := x.outbounds[i := SetFirstHop(o, o.vnext[0].(port := 443))])
  }

  predicate IsUdp443Rule(r: Rule) {
    && r.network == "udp"
    && match r.port
       case PortText(t) => t == "443"
       case PortNumber(n) => n == 443
       case NoPort => false
  }

  predicate HasUdp443Rule(rules: seq<Rule>) { exists r :: r in rules && IsUdp443Rule(r) }

  predicate HasTag(outs: seq<Outbound>, tag: string) { exists o :: o in outs && o.tag == tag }

  function EnsureQuicBlocked(x: Config): Config {
    if HasUdp443Rule(x.rules) then x
    else
      x.(outbounds := if HasTag(x.outbounds, QUIC_BLOCK_TAG) then x.outbounds else x.outbounds + [BLACKHOLE],
         rules := [QUIC_BLOCK_RULE] + x.rules,
         domainStrategy := if x.domainStrategy.None? then Some("IPIfNonMatch") else x.domainStrategy)
  }

  function TuneSockopt(o: Outbound, linux: bool): map<string, Value> {
    var s := if o.protocol != "vless" then o.sockopt
             else o.sockopt["tcpFastOpen" := Flag(true)]["tcpKeepAliveIdle" := Number(45)]
                           ["tcpKeepAliveInterval" := Number(45)];
    if linux && (o.protocol == "freedom" || o.tag == "direct") then s["mark" := Number(LINUX_BYPASS_MARK)] else s
  }

  function Tune(o: Outbound, linux: bool): Outbound { o.(sockopt := TuneSockopt(o, linux)) }

  function TuneAll(outs: seq<Outbound>, linux: bool): (r: seq<Outbound>)
    ensures |r| == |outs| && forall i :: 0 <= i < |outs| ==> r[i] == Tune(outs[i], linux)
  {
    seq(|outs|, i requires 0 <= i < |outs| => Tune(outs[i], linux))
  }

  function Sanitize(x: Config, linux: bool): Config {
    EnsureQuicBlocked(x.(
      logLevel := "warning",
      inbounds := if x.inbounds == [] then [] else [x.inbounds[0].(auth := "noauth", udp := true)] + x.inbounds[1..],
      outbounds := TuneAll(x.outbounds, linux)))
  }

  /** The four rewrites in the order the constructor applies them. */
  function Prepare(x: Config, address: string, mode: RouteMode, probe: Probe, linux: bool): Config {
    Sanitize(FallbackPort(Align(ForceAddress(x, address), mode), address, probe), linux)
  }
}

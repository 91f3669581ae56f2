/** What the rewritten XRay configuration contains, written out: when the port is moved to 443,
    which rule is put in front, which options the outbounds and the inbound get. */
module XrayLaws {
  import opened Basics
  import opened XrayConfig
  import opened XrayProofs
  import opened XrayMeaning

  // ---------------------------------------------------------------- the port fallback

  /** Port q is given up for 443: it is set and another one, 443 answers at the address, and q,
      cut to 16 bits, does not. */
  predicate GivenUp(q: int, address: string, probe: Probe) {
    && q > 0 && q != 443 && probe(address, 443) && !(q % 65536 != 0 && probe(address, q % 65536))
  }

  /** The fallback changes the port of the first hop of the first outbound that has one, exactly
      when that port is given up, and nothing else. */
  lemma FallbackLaw(x: Config, address: string, probe: Probe)
    ensures var r, i := FallbackPort(x, address, probe), VnextIndex(x.outbounds);
            if address != "" && i < |x.outbounds| && GivenUp(x.outbounds[i].vnext[0].port, address, probe) then
              var o := x.outbounds[i];
              && r.outbounds == x.outbounds[i := o.(vnext := [o.vnext[0].(port := 443)] + o.vnext[1..])]
              && r == x.(outbounds := r.outbounds)
            else r == x
  {}

  /** After all rewrites the transport's port is 443 if it was, or if it was given up; otherwise
      it is what it was. */
  lemma PortAfterPrepare(x: Config, address: string, mode: RouteMode, probe: Probe, linux: bool, t: nat)
    requires OnlyTransport(x.outbounds, t) && address != ""
    ensures var outs := Prepare(x, address, mode, probe, linux).outbounds;
            var j, q := NewPosition(MovedIndex(x, mode), t), x.outbounds[t].vnext[0].port;
            && j < |outs| && outs[j].vnext != []
            && outs[j].vnext[0].port == (if GivenUp(q, address, probe) then 443 else q)
            && (outs[j].vnext[0].port == 443 <==> q == 443 || GivenUp(q, address, probe))
  {
    hide ForceAddress, Align, FallbackPort, Sanitize, MovedIndex, NewPosition, SameText;
    var f := ForceAddress(x, address);
    ForcePins(x, address, t);
    ForceKeepsTags(x, address, mode);
    AlignTransport(f, mode, t);
    AlignPositions(f, mode, t);
    var a := Align(f, mode);
    var j := NewPosition(MovedIndex(x, mode), t);
    FallbackKeeps(a, address, probe, j);
    SanitizeKeeps(FallbackPort(a, address, probe), linux, j);
  }

  // ---------------------------------------------------------------- the resolved address

  /** Two characters that differ at most in the case of an ASCII letter. */
  predicate SameLetter(a: char, b: char) {
    a == b || ('A' <= a <= 'Z' && b as int == a as int + 32) || ('A' <= b <= 'Z' && a as int == b as int + 32)
  }

  /** The comparison of addresses ignores case and nothing else. */
  lemma {:induction false} SameTextMeans(a: string, b: string)
    ensures SameText(a, b) <==> |a| == |b| && forall i :: 0 <= i < |a| ==> SameLetter(a[i], b[i])
  {
    LowerLength(a);
    LowerLength(b);
    if a != [] && b != [] {
      SameTextMeans(a[1..], b[1..]);
      assert SameText(a, b) <==> LowerChar(a[0]) == LowerChar(b[0]) && SameText(a[1..], b[1..]) by {
        assert Lower(a)[0] == LowerChar(a[0]) && Lower(a)[1..] == Lower(a[1..]);
        assert Lower(b)[0] == LowerChar(b[0]) && Lower(b)[1..] == Lower(b[1..]);
        assert Lower(a) == [LowerChar(a[0])] + Lower(a[1..]) && Lower(b) == [LowerChar(b[0])] + Lower(b[1..]);
      }
      assert LowerChar(a[0]) == LowerChar(b[0]) <==> SameLetter(a[0], b[0]);
      if |a| == |b| && forall i :: 0 <= i < |a[1..]| ==> SameLetter(a[1..][i], b[1..][i]) {
        forall i | 1 <= i < |a| ensures SameLetter(a[i], b[i]) {
          assert a[1..][i - 1] == a[i] && b[1..][i - 1] == b[i];
        }
      }
    }
  }

  lemma {:induction false} LowerLength(a: string)
    ensures |Lower(a)| == |a|
  {
    if a != [] { LowerLength(a[1..]); }
  }

  /** The resolved address replaces the one of the first hop of the first outbound that has one,
      unless it is the same text, and changes nothing else. */
  lemma AddressLaw(x: Config, address: string)
    ensures var r, i := ForceAddress(x, address), VnextIndex(x.outbounds);
            if address != "" && i < |x.outbounds| && !SameText(x.outbounds[i].vnext[0].address, address) then
              var o := x.outbounds[i];
              && r.outbounds == x.outbounds[i := o.(vnext := [o.vnext[0].(address := address)] + o.vnext[1..])]
              && r == x.(outbounds := r.outbounds)
            else r == x
  {}

  // ---------------------------------------------------------------- rules, log and inbound

  /** A rule for UDP port 443, given as text or as a number. */
  predicate ForUdp443(r: Rule) { r.network == "udp" && (r.port == PortText("443") || r.port == PortNumber(443)) }

  lemma RuleTestMeans(rules: seq<Rule>)
    ensures HasUdp443Rule(rules) <==> exists r :: r in rules && ForUdp443(r)
  {
    if r :| r in rules && IsUdp443Rule(r) { assert ForUdp443(r); }
    if r :| r in rules && ForUdp443(r) { assert IsUdp443Rule(r); }
  }

  /** The first three rewrites touch nothing but the outbounds. */
  lemma OutboundsOnly(x: Config, address: string, mode: RouteMode, probe: Probe)
    ensures var y := FallbackPort(Align(ForceAddress(x, address), mode), address, probe);
            y == x.(outbounds := y.outbounds)
  {
    hide ForceAddress, FallbackPort, Reorder, PreferredTag;
    var f := ForceAddress(x, address);
    AddressLaw(x, address);
    FallbackLaw(Align(f, mode), address, probe);
  }

  lemma SanitizeShape(x: Config, linux: bool)
    ensures var r := Sanitize(x, linux);
            && r.rules == (if HasUdp443Rule(x.rules) then x.rules
                           else [Rule("udp", PortText("443"), [], [], "quic-block", "field")] + x.rules)
            && r.domainStrategy == (if !HasUdp443Rule(x.rules) && x.domainStrategy == None then Some("IPIfNonMatch")
                                    else x.domainStrategy)
            && r.logLevel == "warning" && |r.inbounds| == |x.inbounds|
            && forall i :: 0 <= i < |x.inbounds| ==>
                 r.inbounds[i] == if i == 0 then Inbound("noauth", true, x.inbounds[0].rest) else x.inbounds[i]
  {
    hide HasUdp443Rule, HasTag, TuneAll;
  }

  /** What all rewrites together do besides the outbounds: one rule in front unless there is one
      for UDP/443, a domain strategy if there was none and the rule is new, a quiet log, and a
      first inbound without authentication and with UDP. */
  lemma PreparedShape(x: Config, address: string, mode: RouteMode, probe: Probe, linux: bool)
    ensures var r := Prepare(x, address, mode, probe, linux);
            var blocked := exists rule :: rule in x.rules && ForUdp443(rule);
            && r.rules == (if blocked then x.rules
                           else [Rule("udp", PortText("443"), [], [], "quic-block", "field")] + x.rules)
            && r.domainStrategy == (if !blocked && x.domainStrategy == None then Some("IPIfNonMatch")
                                    else x.domainStrategy)
            && r.logLevel == "warning" && |r.inbounds| == |x.inbounds|
            && forall i :: 0 <= i < |x.inbounds| ==>
                 r.inbounds[i] == if i == 0 then Inbound("noauth", true, x.inbounds[0].rest) else x.inbounds[i]
  {
    hide ForceAddress, Align, FallbackPort, Sanitize, HasUdp443Rule, ForUdp443;
    var y := FallbackPort(Align(ForceAddress(x, address), mode), address, probe);
    OutboundsOnly(x, address, mode, probe);
    RuleTestMeans(x.rules);
    SanitizeShape(y, linux);
  }

  // ---------------------------------------------------------------- options of the outbounds

  /** The options an outbound ends up with, option by option. */
  ghost predicate Tuned(a: Outbound, o: Outbound, linux: bool) {
    var direct := linux && (a.protocol == "freedom" || a.tag == "direct");
    forall k: string ::
      (k in o.sockopt <==>
         || k in a.sockopt || (direct && k == "mark")
         || (a.protocol == "vless" && k in {"tcpFastOpen", "tcpKeepAliveIdle", "tcpKeepAliveInterval"}))
      && (k in o.sockopt ==>
            o.sockopt[k] == (if direct && k == "mark" then Number(0x3211)
                             else if a.protocol == "vless" && k == "tcpFastOpen" then Flag(true)
                             else if a.protocol == "vless" && k in {"tcpKeepAliveIdle", "tcpKeepAliveInterval"}
                             then Number(45)
                             else a.sockopt[k]))
  }

  lemma TuneMeans(a: Outbound, linux: bool)
    ensures Tuned(a, Tune(a, linux), linux)
  {
    assert |"mark"| == 4 && |"tcpFastOpen"| == 11 && |"tcpKeepAliveIdle"| == 16 && |"tcpKeepAliveInterval"| == 20;
  }

  /** After all rewrites every outbound is the blackhole or comes from one of the configuration's,
      with the same name, protocol and settings and exactly these options: fast open and 45 s
      keep-alives for VLESS, the bypass mark for what leaves outside the tunnel on Linux. */
  lemma PreparedOptions(x: Config, address: string, mode: RouteMode, probe: Probe, linux: bool, o: Outbound)
    requires o in Prepare(x, address, mode, probe, linux).outbounds
    ensures o == Outbound("quic-block", "blackhole", [], "", map[], "")
         || exists a :: a in x.outbounds && Repinned(a.(sockopt := o.sockopt), o) && Tuned(a, o, linux)
  {
    hide Prepare, AllRepinned, Align, XrayMeaning.Tuned;
    var y := XrayMeaning.Tuned(x, address, mode, probe, linux);
    TunedOutbounds(x, address, mode, probe, linux);
    if o in y.outbounds {
      OriginOf(x, mode, y.outbounds, o, linux);
      var a :| a in x.outbounds && Repinned(Tune(a, linux), o);
      TuneMeans(a, linux);
      assert Repinned(a.(sockopt := o.sockopt), o) && Tuned(a, o, linux);
    }
  }
}

/** The daemon in its own form: an object that changes its members and the backend step by
    step, with the loops of the source.  Each operation is proved to have the effect its
    Tunnel function describes; the trace records the state after every single step of a
    switch, so that what holds at no intermediate point can be said. */
module DaemonService {
  import opened Tunnel
  import opened TunnelProofs

  class Service {
    var connections: map<Hop, Config>
    var excludedAddrs: map<Address, nat>
    var handshakeTimer: bool
    // the backend
    var interfaceUp: bool
    var installed: set<Address>
    var peers: set<string>
    var routes: set<Range>
    ghost var trace: seq<Daemon>
    ghost var violations: nat      // releases whose assertion did not hold

    ghost function View(): Daemon
      reads this
    {
      Daemon(connections, Exclusions(excludedAddrs, installed), interfaceUp, peers, routes, handshakeTimer)
    }

    constructor ()
      ensures View() == INITIAL && Covered(View()) && trace == [] && violations == 0
    {
      connections, excludedAddrs, handshakeTimer := map[], map[], false;
      interfaceUp, installed, peers, routes, trace, violations := false, {}, {}, {}, [], 0;
    }

    method AddExclusionRoute(a: Address, ok: bool)
      modifies this`excludedAddrs, this`installed
      ensures View() == old(View()).(exclusions := AddOne(old(View()).exclusions, a, ok))
    {
      if a in excludedAddrs { excludedAddrs := excludedAddrs[a := excludedAddrs[a] + 1]; return; }
      if !ok { return; }
      installed := installed + {a};
      excludedAddrs := excludedAddrs[a := 1];
    }

    /** The source asserts that the address is counted.  Where assertions are compiled out the
        lookup of a missing address gives 0 and the backend is asked to delete it. */
    method DelExclusionRoute(a: Address)
      modifies this`excludedAddrs, this`installed, this`violations
      ensures View() == old(View()).(exclusions := DeleteOne(old(View()).exclusions, a))
      ensures violations == old(violations) + if a in old(excludedAddrs) then 0 else 1
    {
      if a !in excludedAddrs { violations := violations + 1; }
      if a in excludedAddrs && excludedAddrs[a] > 1 {
        excludedAddrs := excludedAddrs[a := excludedAddrs[a] - 1];
        return;
      }
      excludedAddrs := excludedAddrs - {a};
      installed := installed - {a};
    }

    method AddExclusions(list: seq<Address>, ok: nat -> bool)
      modifies this`excludedAddrs, this`installed, this`trace
      ensures View() == old(View()).(exclusions := AddFirst(old(View()).exclusions, list, |list|, ok))
      ensures |trace| == |old(trace)| + |list| && old(trace) <= trace
      ensures forall i :: |old(trace)| <= i < |trace| ==>
                trace[i] == old(View()).(exclusions := AddFirst(old(View()).exclusions, list, i - |old(trace)| + 1, ok))
    {
      hide AddOne;
      ghost var d := View();
      for n := 0 to |list|
        invariant View() == d.(exclusions := AddFirst(d.exclusions, list, n, ok))
        invariant |trace| == |old(trace)| + n && old(trace) <= trace
        invariant forall i :: |old(trace)| <= i < |trace| ==>
                    trace[i] == d.(exclusions := AddFirst(d.exclusions, list, i - |old(trace)| + 1, ok))
      {
        AddExclusionRoute(list[n], ok(n));
        trace := trace + [View()];
      }
    }

    method ReleaseExclusions(list: seq<Address>)
      modifies this`excludedAddrs, this`installed, this`trace, this`violations
      ensures View() == old(View()).(exclusions := DeleteFirst(old(View()).exclusions, list, |list|))
      ensures |trace| == |old(trace)| + |list| && old(trace) <= trace
      ensures forall i :: |old(trace)| <= i < |trace| ==>
                trace[i] == old(View()).(exclusions := DeleteFirst(old(View()).exclusions, list, i - |old(trace)| + 1))
      ensures Holds(old(View()).exclusions, list) ==> violations == old(violations)
    {
      hide DeleteOne, Consistent, Mentions, Count;
      ghost var d := View();
      for n := 0 to |list|
        invariant View() == d.(exclusions := DeleteFirst(d.exclusions, list, n))
        invariant |trace| == |old(trace)| + n && old(trace) <= trace
        invariant forall i :: |old(trace)| <= i < |trace| ==>
                    trace[i] == d.(exclusions := DeleteFirst(d.exclusions, list, i - |old(trace)| + 1))
        invariant Holds(d.exclusions, list) ==> violations == old(violations)
      {
        if Holds(d.exclusions, list) { DeleteCounts(d.exclusions, list, n); }
        DelExclusionRoute(list[n]);
        trace := trace + [View()];
      }
    }

    /** Installs ranges until one is refused. */
    method UpdateRoutes(ranges: seq<Range>, ok: nat -> bool) returns (n: nat)
      modifies this`routes, this`trace
      ensures n == Accepted(ranges, ok)
      ensures View() == old(View()).(routes := old(routes) + Elems(ranges[..n]))
      ensures old(trace) <= trace
      ensures forall i :: |old(trace)| <= i < |trace| ==>
                trace[i] == old(View()).(routes := trace[i].routes) && old(routes) <= trace[i].routes
    {
      n := 0;
      while n < |ranges| && ok(n)
        invariant n <= |ranges| && Accepted(ranges, ok, n) == Accepted(ranges, ok)
        invariant View() == old(View()).(routes := old(routes) + Elems(ranges[..n]))
        invariant old(trace) <= trace
        invariant forall i :: |old(trace)| <= i < |trace| ==>
                    trace[i] == old(View()).(routes := trace[i].routes) && old(routes) <= trace[i].routes
      {
        routes := routes + {ranges[n]};
        n := n + 1;
        assert Elems(ranges[..n]) == Elems(ranges[..n - 1]) + {ranges[n - 1]};
        trace := trace + [View()];
      }
    }

    /** Removes the ranges that are not wanted any more. */
    method DeleteRoutes(ranges: seq<Range>, keep: seq<Range>)
      modifies this`routes, this`trace
      ensures View() == old(View()).(routes := old(routes) - (Elems(ranges) - Elems(keep)))
      ensures old(trace) <= trace
      ensures forall i :: |old(trace)| <= i < |trace| ==>
                trace[i] == old(View()).(routes := trace[i].routes)
                && old(routes) - (Elems(ranges) - Elems(keep)) <= trace[i].routes
    {
      for n := 0 to |ranges|
        invariant View() == old(View()).(routes := old(routes) - (Elems(ranges[..n]) - Elems(keep)))
        invariant old(trace) <= trace
        invariant forall i :: |old(trace)| <= i < |trace| ==>
                    trace[i] == old(View()).(routes := trace[i].routes)
                    && old(routes) - (Elems(ranges) - Elems(keep)) <= trace[i].routes
      {
        if ranges[n] !in keep { routes := routes - {ranges[n]}; }
        assert Elems(ranges[..n + 1]) == Elems(ranges[..n]) + {ranges[n]};
        assert Elems(ranges[..n + 1]) <= Elems(ranges);
        trace := trace + [View()];
      }
      assert ranges[..|ranges|] == ranges;
    }

    /** New exclusions first: nothing common to both configurations is lost. */
    method InstallExclusions(c: Config, env: Answers, ghost last: Config)
      requires c.hop in connections && last == connections[c.hop]
      modifies this`excludedAddrs, this`installed, this`trace
      ensures View() == old(View()).(exclusions :=
                          AddFirst(old(View()).exclusions, c.excluded, |c.excluded|, env.addExclusion))
      ensures old(trace) <= trace
      ensures Covered(old(View())) ==>
                KeepsCommon(View().exclusions, last, c) && AllStay(trace, |old(trace)|, old(View()), last, c)
    {
      hide Covered, AddFirst, DeleteFirst, KeepsCommon, KeepsRoutes, Elems;
      ghost var d := View();
      AddExclusions(c.excluded, env.addExclusion);
      RoutesKept(routes, d.routes, last, c);
      if Covered(d) {
        CommonExclusionsStay(d, c, env, |c.excluded|, 0);
        forall i | |old(trace)| <= i < |trace| ensures NoGap(trace[i], d, last, c) {
          CommonExclusionsStay(d, c, env, i - |old(trace)| + 1, 0);
        }
      }
    }

    /** The making half of a switch: new exclusions, new peer, new routes. */
    method InstallNew(c: Config, env: Answers, ghost last: Config)
      requires c.hop in connections && last == connections[c.hop]
      modifies this
      ensures View() == Installed(old(View()), c, env) && violations == old(violations)
      ensures old(trace) <= trace && (Covered(old(View())) ==> AllStay(trace, |old(trace)|, old(View()), last, c))
    {
      hide Covered, AddFirst, KeepsCommon, KeepsRoutes, Elems, Accepted;
      ghost var d := View();
      InstallExclusions(c, env, last);
      if !env.updatePeer { return; }
      peers := peers + {c.serverPublicKey};
      RoutesKept(routes, d.routes, last, c);
      trace := trace + [View()];
      InstallRoutes(c, env, d, last);
    }

    static ghost function Installed(d: Daemon, c: Config, env: Answers): Daemon {
      var d1 := d.(exclusions := AddFirst(d.exclusions, c.excluded, |c.excluded|, env.addExclusion));
      if !env.updatePeer then d1
      else d1.(peers := d.peers + {c.serverPublicKey},
               routes := d.routes + Elems(c.allowed[..Accepted(c.allowed, env.updateRoute)]))
    }

    /** The breaking half: the old exclusions are released, routes not wanted any more removed. */
    method RetireOld(c: Config, env: Answers, last: Config, ghost d: Daemon)
      requires c.hop in d.connections && last == d.connections[c.hop] && env.updatePeer
      requires View() == Installed(d, c, env)
      modifies this`excludedAddrs, this`installed, this`routes, this`trace, this`violations
      ensures View() == SwitchRoutes(d, last, c, env) && old(trace) <= trace
      ensures Covered(d) ==>
                violations == old(violations) && NoGap(View(), d, last, c) && AllStay(trace, |old(trace)|, d, last, c)
    {
      hide Covered, AddFirst, DeleteFirst, KeepsCommon, KeepsRoutes, Elems, Accepted, Mentions, Count;
      if Covered(d) { ReleasesAreCounted(d, c, env); }
      ReleaseExclusions(last.excluded);
      RoutesKept(routes, d.routes, last, c);
      if Covered(d) {
        CommonExclusionsStay(d, c, env, 0, |last.excluded|);
        forall i | |old(trace)| <= i < |trace| ensures NoGap(trace[i], d, last, c) {
          CommonExclusionsStay(d, c, env, 0, i - |old(trace)| + 1);
        }
      }
      RetireRoutes(c, d, last);
      RoutesKept(routes, d.routes, last, c);
    }

    /** Make before break: from safe reference counts no assertion fails, and at every step of a
        switch what the old and the new configuration have in common stays installed. */
    method SwitchServer(c: Config, env: Answers) returns (ok: bool)
      requires c.hop in connections
      modifies this
      ensures (View(), ok) == Tunnel.SwitchServer(old(View()), c, env) && old(trace) <= trace
      ensures Covered(old(View())) ==>
                && violations == old(violations)
                && AllStay(trace, |old(trace)|, old(View()), old(connections)[c.hop], c)
    {
      hide Covered, AddFirst, SwitchRoutes, KeepsCommon, KeepsRoutes, Elems;
      ghost var d := View();
      var last := connections[c.hop];
      InstallNew(c, env, last);
      if !env.updatePeer { return false; }
      RetireOld(c, env, last, d);
      assert connections == d.connections by { SwitchFrame(d, c, env); }
      if c.serverPublicKey != last.serverPublicKey {
        if !env.deletePeer { return false; }
        peers := peers - {last.serverPublicKey};
        trace := trace + [View()];
      }
      connections := connections[c.hop := c];
      return true;
    }

    /** Route additions of a switch that began in state `d`. */
    method InstallRoutes(c: Config, env: Answers, ghost d: Daemon, ghost last: Config)
      requires d.routes == routes
      modifies this`routes, this`trace
      ensures View() == old(View()).(routes := old(routes) + Elems(c.allowed[..Accepted(c.allowed, env.updateRoute)]))
      ensures d.routes <= routes && old(trace) <= trace
      ensures KeepsCommon(old(View()).exclusions, last, c) ==> AllStay(trace, |old(trace)|, d, last, c)
    {
      hide KeepsCommon, KeepsRoutes;
      ghost var x := View().exclusions;
      var _ := UpdateRoutes(c.allowed, env.updateRoute);
      forall i | |old(trace)| <= i < |trace| && KeepsCommon(x, last, c) ensures NoGap(trace[i], d, last, c) {
        RoutesKept(trace[i].routes, d.routes, last, c);
      }
    }

    /** Route removals of a switch that began in state `d`. */
    method RetireRoutes(c: Config, ghost d: Daemon, last: Config)
      requires d.routes <= routes
      modifies this`routes, this`trace
      ensures View() == old(View()).(routes := old(routes) - (Elems(last.allowed) - Elems(c.allowed)))
      ensures d.routes - (Elems(last.allowed) - Elems(c.allowed)) <= routes
      ensures old(trace) <= trace
      ensures KeepsCommon(old(View()).exclusions, last, c) ==> AllStay(trace, |old(trace)|, d, last, c)
    {
      hide KeepsCommon, KeepsRoutes, Elems;
      ghost var x := View().exclusions;
      DeleteRoutes(last.allowed, c.allowed);
      forall i | |old(trace)| <= i < |trace| && KeepsCommon(x, last, c) ensures NoGap(trace[i], d, last, c) {
        RoutesKept(trace[i].routes, d.routes, last, c);
      }
    }

    /** The connection cleanup loop of deactivate: routes and peer of each live connection. */
    method DeleteConnections()
      modifies this`routes, this`peers, this`trace
      ensures View() == old(View()).(routes := old(routes) - RangesOf(connections),
                                     peers := old(peers) - KeysOf(connections))
    {
      var hops := connections.Keys;
      ghost var done: set<Hop> := {};
      while hops != {}
        invariant done + hops == connections.Keys && done !! hops
        invariant View() == old(View()).(routes := old(routes) - RangesOf(Among(connections, done)),
                                         peers := old(peers) - KeysOf(Among(connections, done)))
        decreases hops
      {
        var h :| h in hops;
        DeleteRoutes(connections[h].allowed, []);
        peers := peers - {connections[h].serverPublicKey};
        AmongGrows(connections, done, h);
        hops, done := hops - {h}, done + {h};
      }
      assert Among(connections, done) == connections;
    }

    method DeleteAllExclusions()
      modifies this`installed, this`excludedAddrs
      ensures View() == old(View()).(exclusions := Exclusions(map[], old(installed) - old(excludedAddrs).Keys))
    {
      var keys := excludedAddrs.Keys;
      while keys != {}
        invariant keys <= excludedAddrs.Keys && excludedAddrs == old(excludedAddrs)
        invariant installed == old(installed) - (excludedAddrs.Keys - keys)
        decreases keys
      {
        var a :| a in keys;
        installed := installed - {a};
        keys := keys - {a};
      }
      excludedAddrs := map[];
    }

    method Deactivate(env: Answers) returns (ok: bool)
      modifies this
      ensures (View(), ok) == Tunnel.Deactivate(old(View()), env) && violations == old(violations)
    {
      hide RangesOf, KeysOf;
      if connections != map[] && !env.runDown { return false; }
      DeleteConnections();
      DeleteAllExclusions();
      connections := map[];
      if env.deleteInterface { interfaceUp := false; }
      return env.deleteInterface;
    }

    method BringUp(c: Config, env: Answers) returns (ok: bool)
      modifies this
      ensures (View(), ok) == Tunnel.BringUp(old(View()), c, env) && violations == old(violations)
    {
      hide AddFirst, Accepted, Elems;
      if !interfaceUp {
        if !env.addInterface { return false; }
        interfaceUp := true;
      }
      if !env.configureInterface { return false; }
      AddExclusions(c.excluded, env.addExclusion);
      if !env.updatePeer { return false; }
      peers := peers + {c.serverPublicKey};
      if UsesResolvers(c.hop) && !env.updateResolvers { return false; }
      var n := UpdateRoutes(c.allowed, env.updateRoute);
      if n < |c.allowed| || !env.runUp { return false; }
      connections := connections[c.hop := c];
      handshakeTimer := true;
      return true;
    }

    /** Whatever path is taken and whatever fails on it, the reference counts stay safe unless a
        first exclusion or the deletion of a peer is refused. */
    method Activate(c: Config, env: Answers) returns (ok: bool)
      modifies this
      ensures (View(), ok) == Tunnel.Activate(old(View()), c, env)
      ensures Covered(old(View())) ==> violations == old(violations)
      ensures Covered(old(View())) && Dependable(old(View()), Activation(c, env)) ==> Covered(View())
      decreases c.hop in connections
    {
      hide Covered, AddsAccepted, Tunnel.BringUp, Tunnel.SwitchServer;
      ghost var d := View();
      if Covered(d) && Dependable(d, Activation(c, env)) { PerformCovered(d, Activation(c, env)); }
      if c.hop !in connections {
        ok := BringUp(c, env);
        return;
      }
      if connections[c.hop].identity == c.identity {
        ok := SwitchServer(c, env);
        if !ok || !env.restoreResolvers { return false; }
        if UsesResolvers(c.hop) && !env.updateResolvers { return false; }
        if !env.runSwitch { return false; }
        connections := connections[c.hop := c];
        handshakeTimer := true;
        return;
      }
      if Covered(d) { DeactivateCovered(d, env); }
      ok := Deactivate(env);
      if !ok { return; }
      ok := Activate(c, env);
    }

    static ghost function Among(m: map<Hop, Config>, hs: set<Hop>): map<Hop, Config> {
      map h | h in m && h in hs :: m[h]
    }

    static lemma AmongGrows(m: map<Hop, Config>, hs: set<Hop>, h: Hop)
      requires h in m
      ensures RangesOf(Among(m, hs + {h})) == RangesOf(Among(m, hs)) + Elems(m[h].allowed)
      ensures KeysOf(Among(m, hs + {h})) == KeysOf(Among(m, hs)) + {m[h].serverPublicKey}
    {
      var a, b := Among(m, hs), Among(m, hs + {h});
      forall r ensures r in RangesOf(b) <==> r in RangesOf(a) || r in m[h].allowed {
        if r in RangesOf(a) { var k :| k in a && r in a[k].allowed; assert k in b && r in b[k].allowed; }
        if r in m[h].allowed { assert h in b && r in b[h].allowed; }
        if r in RangesOf(b) {
          var k :| k in b && r in b[k].allowed;
          if k != h { assert k in a && r in a[k].allowed; }
        }
      }
      forall key ensures key in KeysOf(b) <==> key in KeysOf(a) || key == m[h].serverPublicKey {
        if key in KeysOf(a) { var k :| k in a && key == a[k].serverPublicKey; assert k in b; }
        assert h in b;
        if key in KeysOf(b) {
          var k :| k in b && key == b[k].serverPublicKey;
          if k != h { assert k in a; }
        }
      }
    }

    /** The list can be released: each mention finds a reference of its own. */
    static ghost predicate Holds(x: Exclusions, list: seq<Address>) {
      Consistent(x) && forall a :: Count(x, a) >= Mentions(list, |list|, a)
    }

    static ghost predicate AllStay(t: seq<Daemon>, from: nat, d: Daemon, last: Config, c: Config) {
      forall i :: from <= i < |t| ==> NoGap(t[i], d, last, c)
    }
  }
}

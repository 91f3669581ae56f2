/** Reference-count safety and make-before-break switching of the daemon's tunnel. */
module TunnelProofs {
  import opened Tunnel

  // ---------------------------------------------------------------- reference counts

  function Uses(m: map<Hop, Config>, h: Hop, a: Address): nat {
    if h in m then multiset(m[h].excluded)[a] else 0
  }

  /** How often the live connections list an address as excluded. */
  function Demand(m: map<Hop, Config>, a: Address): nat {
    Uses(m, SingleHop, a) + Uses(m, MultiHopEntry, a) + Uses(m, MultiHopExit, a)
  }

  /** Counted addresses are exactly the installed ones, each at least once. */
  ghost predicate Consistent(x: Exclusions) {
    && x.counts.Keys == x.installed
    && forall a :: a in x.counts ==> x.counts[a] >= 1
  }

  /** The reference counts cover what the live connections hold. */
  ghost predicate Covered(d: Daemon) {
    && Consistent(d.exclusions)
    && (forall a :: Count(d.exclusions, a) >= Demand(d.connections, a))
    && (forall h :: h in d.connections ==> d.connections[h].hop == h)
  }

  /** No addExclusionRoute call that reaches the backend is refused: those are the first
      mentions of addresses that are not installed yet. */
  ghost predicate AddsAccepted(x: Exclusions, list: seq<Address>, ok: nat -> bool) {
    forall i: nat :: i < |list| && list[i] !in x.counts && list[i] !in list[..i] ==> ok(i)
  }

  /** The mentions of `a` among the first n entries. */
  function Mentions(list: seq<Address>, n: nat, a: Address): nat
    requires n <= |list|
  {
    multiset(list[..n])[a]
  }

  lemma MentionsStep(list: seq<Address>, n: nat, a: Address)
    requires 0 < n <= |list|
    ensures Mentions(list, n, a) == Mentions(list, n - 1, a) + if a == list[n - 1] then 1 else 0
  {
    assert list[..n] == list[..n - 1] + [list[n - 1]];
  }

  lemma MentionsWhole(list: seq<Address>, a: Address)
    ensures Mentions(list, |list|, a) == multiset(list)[a]
  {
    assert list[..|list|] == list;
  }

  lemma {:induction false} MentionsGrow(list: seq<Address>, n: nat, m: nat, a: Address)
    requires n <= m <= |list|
    ensures Mentions(list, n, a) <= Mentions(list, m, a)
    decreases m
  {
    if n < m {
      MentionsStep(list, m, a);
      MentionsGrow(list, n, m - 1, a);
    }
  }

  lemma AddOneCounts(x: Exclusions, a: Address, ok: bool)
    requires Consistent(x)
    ensures Consistent(AddOne(x, a, ok))
    ensures forall b :: Count(AddOne(x, a, ok), b) ==
              Count(x, b) + if b == a && (Count(x, a) > 0 || ok) then 1 else 0
  {}

  lemma DeleteOneCounts(x: Exclusions, a: Address)
    requires Consistent(x) && Count(x, a) > 0
    ensures a in x.counts && Consistent(DeleteOne(x, a))
    ensures forall b :: Count(DeleteOne(x, a), b) == Count(x, b) - if b == a then 1 else 0
  {}

  /** Adding never counts too much and keeps what is there. */
  lemma {:induction false} AddBounds(x: Exclusions, list: seq<Address>, n: nat, ok: nat -> bool)
    requires Consistent(x) && n <= |list|
    ensures Consistent(AddFirst(x, list, n, ok))
    ensures forall a :: Count(x, a) <= Count(AddFirst(x, list, n, ok), a) <= Count(x, a) + Mentions(list, n, a)
  {
    hide Consistent, Count, AddOne, Mentions;
    if n > 0 {
      AddBounds(x, list, n - 1, ok);
      AddOneCounts(AddFirst(x, list, n - 1, ok), list[n - 1], ok(n - 1));
      forall a { MentionsStep(list, n, a); }
    }
  }

  /** With its backend calls accepted, adding a list counts every mention in it. */
  lemma {:induction false} AddCounts(x: Exclusions, list: seq<Address>, n: nat, ok: nat -> bool)
    requires Consistent(x) && n <= |list| && AddsAccepted(x, list, ok)
    ensures forall a :: Count(AddFirst(x, list, n, ok), a) == Count(x, a) + Mentions(list, n, a)
  {
    hide Consistent, Count, AddOne, Mentions, AddsAccepted;
    if n > 0 {
      var y := AddFirst(x, list, n - 1, ok);
      AddBounds(x, list, n - 1, ok);
      AddCounts(x, list, n - 1, ok);
      AddOneCounts(y, list[n - 1], ok(n - 1));
      if Count(y, list[n - 1]) == 0 { FirstMention(x, list, n - 1, ok); }
      forall a { MentionsStep(list, n, a); }
    } else {
      forall a { MentionsNone(list, a); }
    }
  }

  lemma FirstMention(x: Exclusions, list: seq<Address>, i: nat, ok: nat -> bool)
    requires i < |list| && AddsAccepted(x, list, ok) && Consistent(x)
    requires Count(x, list[i]) == 0 && Mentions(list, i, list[i]) == 0
    ensures ok(i)
  {
    assert list[i] !in list[..i];
  }

  /** A refused first mention is missing from the count for good. */
  lemma {:induction false} RefusedAddIsMissed(x: Exclusions, list: seq<Address>, n: nat, ok: nat -> bool, i: nat)
    requires Consistent(x) && i < n <= |list| && list[i] !in x.counts && list[i] !in list[..i] && !ok(i)
    ensures Count(AddFirst(x, list, n, ok), list[i]) < Count(x, list[i]) + Mentions(list, n, list[i])
  {
    MentionsStep(list, n, list[i]);
    if i < n - 1 {
      RefusedAddIsMissed(x, list, n - 1, ok, i);
    } else {
      AddBounds(x, list, n - 1, ok);
    }
  }

  /** An address that is counted already gains every mention, whatever the backend refuses. */
  lemma {:induction false} KnownAddsCount(x: Exclusions, list: seq<Address>, n: nat, ok: nat -> bool, a: Address)
    requires Consistent(x) && n <= |list| && a in x.counts
    ensures Count(AddFirst(x, list, n, ok), a) == Count(x, a) + Mentions(list, n, a)
  {
    hide AddOne, Mentions;
    if n > 0 {
      KnownAddsCount(x, list, n - 1, ok, a);
      AddBounds(x, list, n - 1, ok);
      AddOneCounts(AddFirst(x, list, n - 1, ok), list[n - 1], ok(n - 1));
      MentionsStep(list, n, a);
    } else {
      MentionsNone(list, a);
    }
  }

  /** Releasing a list: every delExclusionRoute call finds its address counted (the
      assertion in the source), and each mention takes one reference. */
  lemma {:induction false} DeleteCounts(x: Exclusions, list: seq<Address>, n: nat)
    requires Consistent(x) && n <= |list| && forall a :: Count(x, a) >= Mentions(list, |list|, a)
    ensures Consistent(DeleteFirst(x, list, n))
    ensures forall a :: Count(DeleteFirst(x, list, n), a) == Count(x, a) - Mentions(list, n, a)
    ensures n < |list| ==> list[n] in DeleteFirst(x, list, n).counts
  {
    hide Consistent, Count, DeleteOne, Mentions;
    if n > 0 {
      DeleteCounts(x, list, n - 1);
      var y := DeleteFirst(x, list, n - 1);
      MentionsStep(list, n, list[n - 1]);
      MentionsGrow(list, n, |list|, list[n - 1]);
      DeleteOneCounts(y, list[n - 1]);
      forall a { MentionsStep(list, n, a); }
    } else {
      forall a { MentionsNone(list, a); }
    }
    if n < |list| {
      MentionsStep(list, n + 1, list[n]);
      MentionsGrow(list, n + 1, |list|, list[n]);
      CountedIsPresent(DeleteFirst(x, list, n), list[n]);
    }
  }

  lemma MentionsNone(list: seq<Address>, a: Address)
    ensures Mentions(list, 0, a) == 0
  {}

  lemma CountedIsPresent(x: Exclusions, a: Address)
    ensures Count(x, a) > 0 ==> a in x.counts
  {}

  lemma DemandReplace(m: map<Hop, Config>, h: Hop, c: Config, a: Address)
    ensures Demand(m[h := c], a) == Demand(m, a) - Uses(m, h, a) + multiset(c.excluded)[a]
  {}

  // ---------------------------------------------------------------- every operation keeps the counts

  /** The state of the exclusions after a switch's additions and releases, refused or not. */
  lemma SwitchReleases(d: Daemon, c: Config, env: Answers)
    requires Covered(d) && c.hop in d.connections
    ensures var last := d.connections[c.hop];
            var added := AddFirst(d.exclusions, c.excluded, |c.excluded|, env.addExclusion);
            var x := SwitchRoutes(d, last, c, env).exclusions;
            && Consistent(x)
            && forall a :: Count(x, a) == Count(added, a) - multiset(last.excluded)[a]
  {
    var last := d.connections[c.hop];
    ReleasesAreCounted(d, c, env);
    var added := AddFirst(d.exclusions, c.excluded, |c.excluded|, env.addExclusion);
    forall a { MentionsWhole(last.excluded, a); }
    DeleteCounts(added, last.excluded, |last.excluded|);
  }

  lemma SwitchCounts(d: Daemon, c: Config, env: Answers)
    requires Covered(d) && c.hop in d.connections && AddsAccepted(d.exclusions, c.excluded, env.addExclusion)
    ensures var last := d.connections[c.hop];
            var x := SwitchRoutes(d, last, c, env).exclusions;
            && Consistent(x)
            && forall a :: Count(x, a) ==
                 Count(d.exclusions, a) + multiset(c.excluded)[a] - multiset(last.excluded)[a]
  {
    hide AddFirst, SwitchRoutes;
    SwitchReleases(d, c, env);
    AddCounts(d.exclusions, c.excluded, |c.excluded|, env.addExclusion);
    forall a { MentionsWhole(c.excluded, a); }
  }

  lemma SwitchFrame(d: Daemon, c: Config, env: Answers)
    requires c.hop in d.connections
    ensures SwitchRoutes(d, d.connections[c.hop], c, env).connections == d.connections
  {}

  /** Recording a configuration whose exclusions were added leaves the counts right if and only
      if no backend add was refused. */
  lemma RecordedCounts(x: Exclusions, m: map<Hop, Config>, c: Config, ok: nat -> bool)
    requires Consistent(x) && forall a :: Count(x, a) >= Demand(m, a)
    ensures var added := AddFirst(x, c.excluded, |c.excluded|, ok);
            (forall a :: Count(added, a) >= Demand(m, a) + multiset(c.excluded)[a]) <==> AddsAccepted(x, c.excluded, ok)
  {
    hide AddFirst, Demand;
    if AddsAccepted(x, c.excluded, ok) {
      AddCounts(x, c.excluded, |c.excluded|, ok);
      forall a { MentionsWhole(c.excluded, a); }
    } else {
      var i: nat :| i < |c.excluded| && c.excluded[i] !in x.counts && c.excluded[i] !in c.excluded[..i] && !ok(i);
      RefusedAddIsMissed(x, c.excluded, |c.excluded|, ok, i);
      MentionsWhole(c.excluded, c.excluded[i]);
    }
  }

  lemma BringUpCounts(d: Daemon, c: Config, env: Answers)
    requires Covered(d) && c.hop !in d.connections
    ensures BringUp(d, c, env).1 ==>
              (Covered(BringUp(d, c, env).0) <==> AddsAccepted(d.exclusions, c.excluded, env.addExclusion))
    ensures !BringUp(d, c, env).1 ==> Covered(BringUp(d, c, env).0)
  {
    hide Consistent, Count, Demand, AddFirst, AddsAccepted, Mentions;
    AddBounds(d.exclusions, c.excluded, |c.excluded|, env.addExclusion);
    RecordedCounts(d.exclusions, d.connections, c, env.addExclusion);
    forall a { DemandReplace(d.connections, c.hop, c, a); }
  }

  lemma SwitchRecords(d: Daemon, c: Config, env: Answers)
    requires Covered(d) && c.hop in d.connections
    ensures SwitchServer(d, c, env).1 ==>
              (Covered(SwitchServer(d, c, env).0) <==> AddsAccepted(d.exclusions, c.excluded, env.addExclusion))
    ensures !env.updatePeer ==> Covered(SwitchServer(d, c, env).0)
  {
    hide Consistent, Count, Demand, AddFirst, AddsAccepted, SwitchRoutes;
    AddBounds(d.exclusions, c.excluded, |c.excluded|, env.addExclusion);
    SwitchReleases(d, c, env);
    SwitchFrame(d, c, env);
    RecordedCounts(d.exclusions, d.connections, c, env.addExclusion);
    forall a { DemandReplace(d.connections, c.hop, c, a); }
  }

  /** Recording the configuration again after a successful switch changes nothing that counts. */
  lemma RecordsOnce(d: Daemon, c: Config, env: Answers)
    requires c.hop in d.connections && SwitchServer(d, c, env).1
    ensures var t := SwitchServer(d, c, env).0;
            Covered(t.(connections := t.connections[c.hop := c], handshakeTimer := true)) <==> Covered(t)
  {
    hide SwitchRoutes, Consistent, Demand, Count;
    var t := SwitchServer(d, c, env).0;
    assert t.connections[c.hop := c] == t.connections;
  }

  /** The exclusions an activation starts from: none after the deactivation that precedes a
      change of identity. */
  function Base(d: Daemon, c: Config): Exclusions {
    if c.hop in d.connections && d.connections[c.hop].identity != c.identity then Exclusions(map[], {})
    else d.exclusions
  }

  /** What the daemon relies on: installing an exclusion that is not there yet and deleting
      a peer succeed.  Everything else may fail. */
  ghost predicate Dependable(d: Daemon, k: Call) {
    k.Activation? ==>
      && k.env.deletePeer
      && AddsAccepted(Base(d, k.config), k.config.excluded, k.env.addExclusion)
  }

  lemma DeactivateCovered(d: Daemon, env: Answers)
    requires Covered(d)
    ensures Covered(Deactivate(d, env).0)
    ensures Deactivate(d, env).1 ==> Deactivate(d, env).0.exclusions == Exclusions(map[], {})
  {
    assert d.exclusions.installed - d.exclusions.counts.Keys == {};
  }

  /** One call, successful or not, keeps the reference counts. */
  lemma PerformCovered(d: Daemon, k: Call)
    requires Covered(d) && Dependable(d, k)
    ensures Covered(Perform(d, k))
  {
    hide Covered, AddsAccepted, BringUp;
    match k
    case Deactivation(env) => DeactivateCovered(d, env);
    case Activation(c, env) =>
      if c.hop !in d.connections {
        BringUpCounts(d, c, env);
      } else if d.connections[c.hop].identity == c.identity {
        SwitchRecords(d, c, env);
        if SwitchServer(d, c, env).1 { RecordsOnce(d, c, env); }
      } else {
        DeactivateCovered(d, env);
        var (d1, ok) := Deactivate(d, env);
        if ok {
          BringUpCounts(d1, c, env);
          assert Activate(d1, c, env) == BringUp(d1, c, env);
        }
      }
  }

  ghost predicate AllDependable(d: Daemon, ks: seq<Call>)
    decreases |ks|
  {
    ks == [] || (Dependable(d, ks[0]) && AllDependable(Perform(d, ks[0]), ks[1..]))
  }

  /** In every run of activations, switches and deactivations, failed ones included, the
      counted addresses are exactly the installed exclusion routes, each counted at least
      once and at least as often as the live connections list it. */
  lemma {:induction false} ReferenceCountsAreSafe(d: Daemon, ks: seq<Call>)
    requires Covered(d) && AllDependable(d, ks)
    ensures Covered(PerformAll(d, ks))
    decreases |ks|
  {
    if ks != [] {
      PerformCovered(d, ks[0]);
      ReferenceCountsAreSafe(Perform(d, ks[0]), ks[1..]);
    }
  }

  /** From a fresh daemon, the assertion in delExclusionRoute holds at every call a switch makes,
      whatever the backend refuses during that switch. */
  lemma ReleaseAssertionHolds(ks: seq<Call>, c: Config, env: Answers, n: nat)
    requires AllDependable(INITIAL, ks)
    requires var d := PerformAll(INITIAL, ks); c.hop in d.connections && n < |d.connections[c.hop].excluded|
    ensures var d := PerformAll(INITIAL, ks);
            var last := d.connections[c.hop];
            var added := AddFirst(d.exclusions, c.excluded, |c.excluded|, env.addExclusion);
            last.excluded[n] in DeleteFirst(added, last.excluded, n).counts
  {
    ReferenceCountsAreSafe(INITIAL, ks);
    var d := PerformAll(INITIAL, ks);
    var last := d.connections[c.hop];
    ReleasesAreCounted(d, c, env);
    var added := AddFirst(d.exclusions, c.excluded, |c.excluded|, env.addExclusion);
    DeleteCounts(added, last.excluded, n);
  }

  // ---------------------------------------------------------------- why the two assumptions are needed

  predicate Switches(d: Daemon, c: Config) { c.hop in d.connections && d.connections[c.hop].identity == c.identity }

  /** A switch that gives up because the old peer cannot be deleted. */
  predicate KeepsOldPeer(d: Daemon, c: Config, env: Answers) {
    && Switches(d, c) && env.updatePeer && !env.deletePeer
    && d.connections[c.hop].serverPublicKey != c.serverPublicKey
  }

  /** A refused exclusion breaks the counts.  After any activation that records the configuration,
      by whichever of the three paths, and also when a switch fails later on, at the resolvers or
      in the platform hook, they cover the connections if and only if no backend add was refused.
      A bring-up that fails, and a switch that fails at the new peer, keep them whatever was
      refused.  What is left is the switch that keeps the old peer. */
  lemma RefusedExclusionBreaksCounts(d: Daemon, c: Config, env: Answers)
    requires Covered(d)
    ensures Activate(d, c, env).1 ==>
              (Covered(Activate(d, c, env).0) <==> AddsAccepted(Base(d, c), c.excluded, env.addExclusion))
    ensures Switches(d, c) && env.updatePeer && !KeepsOldPeer(d, c, env) ==>
              (Covered(Activate(d, c, env).0) <==> AddsAccepted(Base(d, c), c.excluded, env.addExclusion))
    ensures !Activate(d, c, env).1 && !(Switches(d, c) && env.updatePeer) ==> Covered(Activate(d, c, env).0)
  {
    hide Covered, AddsAccepted, BringUp, SwitchServer;
    if c.hop !in d.connections {
      BringUpCounts(d, c, env);
    } else if Switches(d, c) {
      SwitchRecords(d, c, env);
      SwitchSucceeds(d, c, env);
      if SwitchServer(d, c, env).1 { RecordsOnce(d, c, env); }
    } else {
      DeactivateCovered(d, env);
      var (d1, ok) := Deactivate(d, env);
      if ok {
        BringUpCounts(d1, c, env);
        assert Activate(d1, c, env) == BringUp(d1, c, env);
      }
    }
  }

  lemma SwitchSucceeds(d: Daemon, c: Config, env: Answers)
    requires Switches(d, c)
    ensures SwitchServer(d, c, env).1 <==> env.updatePeer && !KeepsOldPeer(d, c, env)
  {}

  /** A peer that cannot be deleted makes a switch give up after the old exclusions were
      released but before the new configuration is recorded.  The counts then still cover the
      connections if and only if no address loses more references than it had to spare, counting
      those the new configuration has just added; with no add refused these are its mentions. */
  lemma RefusedPeerDeletionBreaksCounts(d: Daemon, c: Config, env: Answers)
    requires Covered(d) && c.hop in d.connections && env.updatePeer && !env.deletePeer
    requires d.connections[c.hop].serverPublicKey != c.serverPublicKey
    ensures !SwitchServer(d, c, env).1
    ensures var added := AddFirst(d.exclusions, c.excluded, |c.excluded|, env.addExclusion);
            Covered(SwitchServer(d, c, env).0) <==>
              forall a :: multiset(d.connections[c.hop].excluded)[a] <= Count(added, a) - Demand(d.connections, a)
    ensures AddsAccepted(d.exclusions, c.excluded, env.addExclusion) ==>
              (Covered(SwitchServer(d, c, env).0) <==>
                 forall a :: multiset(d.connections[c.hop].excluded)[a] - multiset(c.excluded)[a]
                               <= Count(d.exclusions, a) - Demand(d.connections, a))
  {
    hide AddFirst, SwitchRoutes;
    SwitchReleases(d, c, env);
    SwitchFrame(d, c, env);
    if AddsAccepted(d.exclusions, c.excluded, env.addExclusion) { SwitchCounts(d, c, env); }
  }

  // ---------------------------------------------------------------- make before break

  /** Single hop: what is installed is exactly what the current configuration asks for. */
  ghost predicate Exact(d: Daemon) {
    && Consistent(d.exclusions)
    && (d.connections == map[] || d.connections.Keys == {SingleHop})
    && if d.connections == map[] then
         !d.up && d.peers == {} && d.routes == {} && d.exclusions.counts == map[]
       else
         var c := d.connections[SingleHop];
         && d.up && c.hop == SingleHop && d.peers == {c.serverPublicKey} && d.routes == Elems(c.allowed)
         && forall a :: Count(d.exclusions, a) == multiset(c.excluded)[a]
  }

  ghost predicate BackendSucceeds(env: Answers) {
    && env.addInterface && env.configureInterface && env.updatePeer && env.deletePeer
    && env.updateResolvers && env.restoreResolvers && env.runUp && env.runSwitch && env.runDown
    && env.deleteInterface && (forall i: nat :: env.addExclusion(i)) && (forall i: nat :: env.updateRoute(i))
  }

  lemma ExactIsCovered(d: Daemon)
    requires Exact(d)
    ensures Covered(d)
  {}

  lemma BringUpExact(d: Daemon, c: Config, env: Answers)
    requires Exact(d) && d.connections == map[] && c.hop == SingleHop && BackendSucceeds(env)
    ensures var (t, ok) := BringUp(d, c, env);
            ok && Exact(t) && t.connections == map[SingleHop := c] && t.handshakeTimer
  {
    hide Consistent, AddFirst, Mentions;
    AddBounds(d.exclusions, c.excluded, |c.excluded|, env.addExclusion);
    AddCounts(d.exclusions, c.excluded, |c.excluded|, env.addExclusion);
    forall a { MentionsWhole(c.excluded, a); }
    assert c.allowed[..|c.allowed|] == c.allowed;
    assert Accepted(c.allowed, env.updateRoute) == |c.allowed|;
    var t := BringUp(d, c, env).0;
    assert t.connections == map[SingleHop := c] && SingleHop in t.connections;
  }

  lemma SwitchExact(d: Daemon, c: Config, env: Answers)
    requires Exact(d) && d.connections != map[] && c.hop == SingleHop && BackendSucceeds(env)
    ensures var (t, ok) := SwitchServer(d, c, env); ok && Exact(t) && t.connections == map[SingleHop := c]
  {
    hide Covered, Consistent, AddFirst, DeleteFirst, Accepted;
    ExactIsCovered(d);
    SwitchCounts(d, c, env);
    assert c.allowed[..|c.allowed|] == c.allowed;
    var last := d.connections[SingleHop];
    assert Elems(last.allowed) + Elems(c.allowed) - (Elems(last.allowed) - Elems(c.allowed)) == Elems(c.allowed);
  }

  lemma DeactivateExact(d: Daemon, env: Answers)
    requires Exact(d) && BackendSucceeds(env)
    ensures var (t, ok) := Deactivate(d, env); ok && Exact(t) && t.connections == map[]
    ensures Deactivate(d, env).0 == INITIAL.(handshakeTimer := d.handshakeTimer)
  {
    if d.connections != map[] {
      var c := d.connections[SingleHop];
      assert RangesOf(d.connections) == Elems(c.allowed) by {
        forall r | r in Elems(c.allowed) ensures r in RangesOf(d.connections) {
          assert SingleHop in d.connections && r in d.connections[SingleHop].allowed;
        }
      }
      assert KeysOf(d.connections) == {c.serverPublicKey} by { assert SingleHop in d.connections; }
    }
  }

  /** With a backend that succeeds and a single hop: after an activation, by whichever of the
      three paths, peers, routes and exclusions are exactly those of the new configuration and
      the handshake is being polled; after a deactivation nothing is left. */
  lemma InstalledIsConfigured(d: Daemon, c: Config, env: Answers)
    requires Exact(d) && c.hop == SingleHop && BackendSucceeds(env)
    ensures var (t, ok) := Activate(d, c, env);
            && ok && Exact(t) && t.connections == map[SingleHop := c] && t.handshakeTimer
            && t.routes == Elems(c.allowed) && t.peers == {c.serverPublicKey}
            && t.exclusions.installed == Elems(c.excluded)
    ensures Deactivate(d, env).1 && Deactivate(d, env).0 == INITIAL.(handshakeTimer := d.handshakeTimer)
  {
    hide Consistent, Count, Activate, Elems;
    DeactivateExact(d, env);
    ActivateExact(d, c, env);
    assert SingleHop in Activate(d, c, env).0.connections;
    InstalledSet(Activate(d, c, env).0.exclusions, c.excluded);
  }

  lemma ActivateExact(d: Daemon, c: Config, env: Answers)
    requires Exact(d) && c.hop == SingleHop && BackendSucceeds(env)
    ensures var (t, ok) := Activate(d, c, env);
            ok && Exact(t) && t.connections == map[SingleHop := c] && t.handshakeTimer
  {
    hide Consistent, Count, BringUp, SwitchServer, Deactivate, Elems;
    if d.connections == map[] {
      BringUpExact(d, c, env);
    } else if d.connections[SingleHop].identity == c.identity {
      SwitchExact(d, c, env);
      var t := SwitchServer(d, c, env).0;
      assert t.connections[SingleHop := c] == t.connections;
    } else {
      DeactivateExact(d, env);
      var t := Deactivate(d, env).0;
      BringUpExact(t, c, env);
      assert Activate(t, c, env) == BringUp(t, c, env);
    }
  }

  lemma InstalledSet(x: Exclusions, list: seq<Address>)
    requires Consistent(x) && forall a :: Count(x, a) == multiset(list)[a]
    ensures x.installed == Elems(list)
  {
    forall a ensures a in x.installed <==> a in list {
      assert Count(x, a) == multiset(list)[a];
    }
  }

  /** Everything the old and the new configuration both ask for, and that is installed when
      the switch begins, is still installed. */
  ghost predicate NoGap(v: Daemon, before: Daemon, last: Config, c: Config) {
    KeepsCommon(v.exclusions, last, c) && KeepsRoutes(v.routes, before.routes, last, c)
  }

  ghost predicate KeepsCommon(x: Exclusions, last: Config, c: Config) {
    forall a :: a in last.excluded && a in c.excluded ==> a in x.installed
  }

  ghost predicate KeepsRoutes(now: set<Range>, before: set<Range>, last: Config, c: Config) {
    forall r :: r in last.allowed && r in c.allowed && r in before ==> r in now
  }

  lemma RoutesKept(now: set<Range>, before: set<Range>, last: Config, c: Config)
    requires before - (Elems(last.allowed) - Elems(c.allowed)) <= now
    ensures KeepsRoutes(now, before, last, c)
  {
    forall r | r in last.allowed && r in c.allowed && r in before ensures r in now {
      assert r in before - (Elems(last.allowed) - Elems(c.allowed));
    }
  }

  /** While a switch adds the new exclusions and releases the old ones, an address listed by
      both is installed at every point in between, whatever the backend refuses. */
  lemma CommonExclusionStays(d: Daemon, c: Config, env: Answers, a: Address, n: nat, m: nat)
    requires Covered(d) && c.hop in d.connections
    requires a in d.connections[c.hop].excluded && a in c.excluded
    requires n <= |c.excluded| && m <= |d.connections[c.hop].excluded|
    ensures a in AddFirst(d.exclusions, c.excluded, n, env.addExclusion).installed
    ensures var added := AddFirst(d.exclusions, c.excluded, |c.excluded|, env.addExclusion);
            a in DeleteFirst(added, d.connections[c.hop].excluded, m).installed
  {
    var last := d.connections[c.hop];
    assert Uses(d.connections, c.hop, a) >= 1 && Demand(d.connections, a) >= Uses(d.connections, c.hop, a);
    AddBounds(d.exclusions, c.excluded, n, env.addExclusion);
    ReleasesAreCounted(d, c, env);
    var added := AddFirst(d.exclusions, c.excluded, |c.excluded|, env.addExclusion);
    DeleteCounts(added, last.excluded, m);
    KnownAddsCount(d.exclusions, c.excluded, |c.excluded|, env.addExclusion, a);
    MentionsWhole(c.excluded, a);
    MentionsWhole(last.excluded, a);
    MentionsGrow(last.excluded, m, |last.excluded|, a);
  }

  lemma CommonExclusionsStay(d: Daemon, c: Config, env: Answers, n: nat, m: nat)
    requires Covered(d) && c.hop in d.connections
    requires n <= |c.excluded| && m <= |d.connections[c.hop].excluded|
    ensures KeepsCommon(AddFirst(d.exclusions, c.excluded, n, env.addExclusion), d.connections[c.hop], c)
    ensures var added := AddFirst(d.exclusions, c.excluded, |c.excluded|, env.addExclusion);
            KeepsCommon(DeleteFirst(added, d.connections[c.hop].excluded, m), d.connections[c.hop], c)
  {
    forall a | a in d.connections[c.hop].excluded && a in c.excluded { CommonExclusionStays(d, c, env, a, n, m); }
  }

  /** What a switch holds after its additions covers all it is about to release. */
  lemma ReleasesAreCounted(d: Daemon, c: Config, env: Answers)
    requires Covered(d) && c.hop in d.connections
    ensures var added := AddFirst(d.exclusions, c.excluded, |c.excluded|, env.addExclusion);
            var last := d.connections[c.hop];
            Consistent(added) && forall a :: Count(added, a) >= Mentions(last.excluded, |last.excluded|, a)
  {
    hide AddFirst, Mentions, Count;
    var last := d.connections[c.hop];
    AddBounds(d.exclusions, c.excluded, |c.excluded|, env.addExclusion);
    var added := AddFirst(d.exclusions, c.excluded, |c.excluded|, env.addExclusion);
    forall a ensures Count(added, a) >= Mentions(last.excluded, |last.excluded|, a) {
      MentionsWhole(last.excluded, a);
      assert Demand(d.connections, a) >= Uses(d.connections, c.hop, a);
    }
  }

  // ---------------------------------------------------------------- inputs at which the counts break

  const IDENTITY := Identity("private", "10.8.1.2", "fd00::2", "10.8.1.1", "fd00::1")

  const EXCLUDED := "203.0.113.1"

  const WITH_EXCLUSION := Config(SingleHop, IDENTITY, "server", [], [EXCLUDED])

  const WITHOUT_EXCLUSION := Config(SingleHop, IDENTITY, "other", [], [])

  /** Everything succeeds, except that exclusions or the deletion of a peer may be refused. */
  function Refusing(addExclusion: bool, deletePeer: bool): Answers {
    Answers(true, true, (_: nat) => addExclusion, true, deletePeer, (_: nat) => true,
            true, true, true, true, true, true)
  }

  /** The first activation succeeds although its one exclusion is refused; the counts do not
      cover it, and the release of the next switch meets the assertion with nothing counted. */
  lemma RefusedExclusionWitness()
    ensures var env := Refusing(false, true);
            var (t, ok) := Activate(INITIAL, WITH_EXCLUSION, env);
            && ok && !Covered(t) && t.connections == map[SingleHop := WITH_EXCLUSION]
            && var added := AddFirst(t.exclusions, WITHOUT_EXCLUSION.excluded, 0, env.addExclusion);
               EXCLUDED !in DeleteFirst(added, WITH_EXCLUSION.excluded, 0).counts
  {
    var env := Refusing(false, true);
    var t := Activate(INITIAL, WITH_EXCLUSION, env).0;
    assert AddFirst(INITIAL.exclusions, [EXCLUDED], 1, env.addExclusion) == INITIAL.exclusions;
    assert Count(t.exclusions, EXCLUDED) == 0 && Demand(t.connections, EXCLUDED) == 1;
  }

  /** A switch that cannot delete the old peer leaves the old configuration recorded without
      a reference to its exclusion. */
  lemma RefusedPeerDeletionWitness()
    ensures var d := Activate(INITIAL, WITH_EXCLUSION, Refusing(true, true)).0;
            var (t, ok) := Activate(d, WITHOUT_EXCLUSION, Refusing(true, false));
            Covered(d) && !ok && !Covered(t) && t.connections == map[SingleHop := WITH_EXCLUSION]
  {
    var env := Refusing(true, true);
    var x := AddFirst(INITIAL.exclusions, [EXCLUDED], 1, env.addExclusion);
    assert env.addExclusion(0) && AddFirst(INITIAL.exclusions, [EXCLUDED], 0, env.addExclusion) == INITIAL.exclusions;
    assert x == Exclusions(map[EXCLUDED := 1], {EXCLUDED});
    var d := Activate(INITIAL, WITH_EXCLUSION, env).0;
    assert d.exclusions == x && d.connections == map[SingleHop := WITH_EXCLUSION];
    RefusedExclusionBreaksCounts(INITIAL, WITH_EXCLUSION, env);
    var off := Refusing(true, false);
    assert AddFirst(x, [], 0, off.addExclusion) == x;
    assert DeleteFirst(x, [EXCLUDED], 1) == Exclusions(map[], {});
    var t := Activate(d, WITHOUT_EXCLUSION, off).0;
    assert Count(t.exclusions, EXCLUDED) == 0 && Demand(t.connections, EXCLUDED) == 1;
  }
}

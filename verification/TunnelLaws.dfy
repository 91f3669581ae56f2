/** What the daemon answers, and what it has done, under every behaviour of the backend. */
module TunnelLaws {
  import opened Tunnel
  import opened TunnelProofs

  /** Ranges are installed in order up to the first refusal. */
  lemma {:induction false} AcceptedMeans(ranges: seq<Range>, ok: nat -> bool, from: nat)
    requires from <= |ranges|
    ensures var n := Accepted(ranges, ok, from);
            && from <= n <= |ranges| && (forall i: nat :: from <= i < n ==> ok(i))
            && (n < |ranges| ==> !ok(n))
    decreases |ranges| - from
  {
    if from < |ranges| && ok(from) { AcceptedMeans(ranges, ok, from + 1); }
  }

  /** Name servers are set for the hops that carry the user's traffic. */
  predicate ResolversSet(c: Config, env: Answers) { c.hop in {SingleHop, MultiHopExit} ==> env.updateResolvers }

  ghost predicate AllRouted(c: Config, env: Answers) { forall i: nat :: i < |c.allowed| ==> env.updateRoute(i) }

  /** Everything a first activation asks of the backend, in an interface that may exist already. */
  ghost predicate BroughtUp(up: bool, c: Config, env: Answers) {
    && (up || env.addInterface) && env.configureInterface && env.updatePeer && ResolversSet(c, env)
    && AllRouted(c, env) && env.runUp
  }

  /** A first activation succeeds exactly when every backend call does.  Then the connection is
      recorded with all its ranges routed; otherwise nothing is recorded, and what had been done
      before the refusal stays. */
  lemma BringUpAnswer(d: Daemon, c: Config, env: Answers)
    requires c.hop !in d.connections
    ensures var (t, ok) := Activate(d, c, env);
            && (ok <==> BroughtUp(d.up, c, env))
            && (ok ==> && t.connections == d.connections[c.hop := c] && t.handshakeTimer && t.up
                       && Elems(c.allowed) <= t.routes && c.serverPublicKey in t.peers)
            && (!ok ==> t.connections == d.connections && t.handshakeTimer == d.handshakeTimer)
            && t.up == (d.up || env.addInterface)
            && t.peers == (if t.up && env.configureInterface && env.updatePeer then d.peers + {c.serverPublicKey}
                           else d.peers)
            && t.exclusions == (if t.up && env.configureInterface
                                then AddFirst(d.exclusions, c.excluded, |c.excluded|, env.addExclusion)
                                else d.exclusions)
  {
    AcceptedMeans(c.allowed, env.updateRoute, 0);
    assert c.allowed[..|c.allowed|] == c.allowed;
  }

  ghost predicate RoutedUpTo(env: Answers, i: nat) { forall j: nat :: j <= i ==> env.updateRoute(j) }

  /** The backend takes some mention of the range and every range before it. */
  ghost predicate Routed(c: Config, env: Answers, r: Range) {
    exists i: nat :: i < |c.allowed| && c.allowed[i] == r && RoutedUpTo(env, i)
  }

  lemma RoutedMeans(c: Config, env: Answers, r: Range)
    ensures r in c.allowed[..Accepted(c.allowed, env.updateRoute)] <==> Routed(c, env, r)
  {
    AcceptedMeans(c.allowed, env.updateRoute, 0);
    var n := Accepted(c.allowed, env.updateRoute);
    if i: nat :| i < |c.allowed| && c.allowed[i] == r && RoutedUpTo(env, i) {
      assert i < n;
      assert c.allowed[..n][i] == r;
    }
    if r in c.allowed[..n] {
      var i: nat :| i < n && c.allowed[..n][i] == r;
      assert c.allowed[i] == r && RoutedUpTo(env, i);
    }
  }

  /** The routes a first activation leaves: those there before, and the new ranges before the
      first refused one, if it got that far. */
  lemma BringUpRoutes(d: Daemon, c: Config, env: Answers, r: Range)
    requires c.hop !in d.connections
    ensures var t := Activate(d, c, env).0;
            var reached := (d.up || env.addInterface) && env.configureInterface && env.updatePeer
                           && ResolversSet(c, env);
            r in t.routes <==> r in d.routes || (reached && Routed(c, env, r))
  {
    hide AddFirst, DeleteFirst, Accepted, Routed;
    RoutedMeans(c, env, r);
  }

  /** A switch succeeds exactly when the new peer is accepted, the old one deleted if it is
      another, the resolvers restored and set, and the hook run; refused routes do not matter.
      The configuration is recorded as soon as the peers are changed. */
  lemma SwitchAnswer(d: Daemon, c: Config, env: Answers)
    requires c.hop in d.connections && d.connections[c.hop].identity == c.identity
    ensures var (t, ok) := Activate(d, c, env);
            var last := d.connections[c.hop].serverPublicKey;
            var changed := env.updatePeer && (last == c.serverPublicKey || env.deletePeer);
            && (ok <==> changed && env.restoreResolvers && ResolversSet(c, env) && env.runSwitch)
            && t.connections == (if changed then d.connections[c.hop := c] else d.connections)
            && t.handshakeTimer == (d.handshakeTimer || ok) && t.up == d.up
            && t.peers == (if !env.updatePeer then d.peers
                           else if last != c.serverPublicKey && env.deletePeer
                           then d.peers + {c.serverPublicKey} - {last}
                           else d.peers + {c.serverPublicKey})
            && var added := AddFirst(d.exclusions, c.excluded, |c.excluded|, env.addExclusion);
               var given := d.connections[c.hop].excluded;
               t.exclusions == if env.updatePeer then DeleteFirst(added, given, |given|) else added
  {
    hide AddFirst, DeleteFirst, Accepted, Elems;
  }

  /** The routes a switch leaves: old ranges that are not wanted any more are gone, the others
      stay, and the new ones are there up to the first refused one. */
  lemma SwitchRoutesAnswer(d: Daemon, c: Config, env: Answers, r: Range)
    requires c.hop in d.connections && d.connections[c.hop].identity == c.identity
    ensures var t := Activate(d, c, env).0;
            var retired := r in d.connections[c.hop].allowed && r !in c.allowed;
            r in t.routes <==>
              if env.updatePeer then !retired && (r in d.routes || Routed(c, env, r)) else r in d.routes
  {
    hide AddFirst, DeleteFirst, Accepted, Routed;
    RoutedMeans(c, env, r);
  }

  /** A deactivation that the platform hook refuses changes nothing; any other one takes down
      exactly what the live connections and the counts held. */
  lemma DeactivateAnswer(d: Daemon, env: Answers, r: Range, key: string)
    ensures var (t, ok) := Deactivate(d, env);
            if d.connections != map[] && !env.runDown then t == d && !ok
            else
              && ok == env.deleteInterface && t.up == (d.up && !env.deleteInterface) && t.connections == map[]
              && t.exclusions == Exclusions(map[], d.exclusions.installed - d.exclusions.counts.Keys)
              && t.handshakeTimer == d.handshakeTimer
              && (r in t.routes <==> r in d.routes && forall h :: h in d.connections ==> r !in d.connections[h].allowed)
              && (key in t.peers <==>
                    key in d.peers && forall h :: h in d.connections ==> key != d.connections[h].serverPublicKey)
  {}

  /** A change of identity takes everything down and starts afresh: it succeeds exactly when both
      halves do, and a failure in the second half leaves no connection. */
  lemma ReplaceAnswer(d: Daemon, c: Config, env: Answers)
    requires c.hop in d.connections && d.connections[c.hop].identity != c.identity
    ensures var (t, ok) := Activate(d, c, env);
            && (ok <==> env.runDown && env.deleteInterface && BroughtUp(false, c, env))
            && t.connections == (if ok then map[c.hop := c] else if env.runDown then map[] else d.connections)
            && t.handshakeTimer == (d.handshakeTimer || ok)
  {
    hide BringUp, BroughtUp;
    var (d1, down) := Deactivate(d, env);
    if down { BringUpAnswer(d1, c, env); }
  }
}

/** The daemon's tunnel bookkeeping as values: the connection map, the reference-counted
    exclusion routes and the backend they are installed in.  Backend calls may fail; an
    Answers value fixes what each call made by one daemon operation returns. */
module Tunnel {
  type Range = string     // an allowed IP range
  type Address = string   // a plain host address to keep outside the tunnel

  datatype Hop = SingleHop | MultiHopEntry | MultiHopExit

  /** The identity of the local end: a new configuration with the same identity can be
      switched to without taking the interface down. */
  datatype Identity = Identity(privateKey: string, deviceIpv4: string, deviceIpv6: string,
                               gatewayIpv4: string, gatewayIpv6: string)

  datatype Config = Config(hop: Hop, identity: Identity, serverPublicKey: string,
                           allowed: seq<Range>, excluded: seq<Address>)

  /** The exclusion routes: the reference counts and what is installed. */
  datatype Exclusions = Exclusions(counts: map<Address, nat>, installed: set<Address>)

  datatype Daemon = Daemon(
    connections: map<Hop, Config>,
    exclusions: Exclusions,
    up: bool,               // the interface exists
    peers: set<string>,
    routes: set<Range>,
    handshakeTimer: bool)

  const INITIAL := Daemon(map[], Exclusions(map[], {}), false, {}, {}, false)

  datatype Answers = Answers(
    addInterface: bool, configureInterface: bool, addExclusion: nat -> bool, updatePeer: bool,
    deletePeer: bool, updateRoute: nat -> bool, updateResolvers: bool, restoreResolvers: bool,
    runUp: bool, runSwitch: bool, runDown: bool, deleteInterface: bool)

  // ---------------------------------------------------------------- exclusion routes

  function Count(x: Exclusions, a: Address): nat { if a in x.counts then x.counts[a] else 0 }

  /** addExclusionRoute: only the first reference reaches the backend. */
  function AddOne(x: Exclusions, a: Address, ok: bool): Exclusions {
    if a in x.counts then x.(counts := x.counts[a := x.counts[a] + 1])
    else if !ok then x
    else Exclusions(x.counts[a := 1], x.installed + {a})
  }

  /** delExclusionRoute: only the last reference reaches the backend. */
  function DeleteOne(x: Exclusions, a: Address): Exclusions {
    if Count(x, a) > 1 then x.(counts := x.counts[a := x.counts[a] - 1])
    else Exclusions(x.counts - {a}, x.installed - {a})
  }

  /** The first n entries of a list added in order, or deleted in order. */
  function AddFirst(x: Exclusions, list: seq<Address>, n: nat, ok: nat -> bool): Exclusions
    requires n <= |list|
  {
    if n == 0 then x else AddOne(AddFirst(x, list, n - 1, ok), list[n - 1], ok(n - 1))
  }

  function DeleteFirst(x: Exclusions, list: seq<Address>, n: nat): Exclusions
    requires n <= |list|
  {
    if n == 0 then x else DeleteOne(DeleteFirst(x, list, n - 1), list[n - 1])
  }

  // ---------------------------------------------------------------- operations

  /** How many of the ranges are installed before the first refusal. */
  function Accepted(ranges: seq<Range>, ok: nat -> bool, from: nat := 0): nat
    requires from <= |ranges|
    ensures from <= Accepted(ranges, ok, from) <= |ranges|
    ensures (forall i: nat :: ok(i)) ==> Accepted(ranges, ok, from) == |ranges|
    decreases |ranges| - from
  {
    if from < |ranges| && ok(from) then Accepted(ranges, ok, from + 1) else from
  }

  function Elems<T>(xs: seq<T>): set<T> { set x | x in xs }

  predicate UsesResolvers(h: Hop) { h != MultiHopEntry }

  predicate ResolversFail(c: Config, env: Answers) { UsesResolvers(c.hop) && !env.updateResolvers }

  /** activate when the hop is not connected yet. */
  function BringUp(d: Daemon, c: Config, env: Answers): (Daemon, bool) {
    if !d.up && !env.addInterface then (d, false)
    else
      var d1 := d.(up := true);
      if !env.configureInterface then (d1, false)
      else
        var d2 := d1.(exclusions := AddFirst(d1.exclusions, c.excluded, |c.excluded|, env.addExclusion));
        if !env.updatePeer then (d2, false)
        else
          var d3 := d2.(peers := d2.peers + {c.serverPublicKey});
          if ResolversFail(c, env) then (d3, false)
          else
            var n := Accepted(c.allowed, env.updateRoute);
            var d4 := d3.(routes := d3.routes + Elems(c.allowed[..n]));
            if n < |c.allowed| || !env.runUp then (d4, false)
            else (d4.(connections := d4.connections[c.hop := c], handshakeTimer := true), true)
  }

  /** switchServer up to the point where the old peer may have to go. */
  function SwitchRoutes(d: Daemon, last: Config, c: Config, env: Answers): Daemon {
    var added := AddFirst(d.exclusions, c.excluded, |c.excluded|, env.addExclusion);
    var n := Accepted(c.allowed, env.updateRoute);
    d.(exclusions := DeleteFirst(added, last.excluded, |last.excluded|),
       peers := d.peers + {c.serverPublicKey},
       routes := d.routes + Elems(c.allowed[..n]) - (Elems(last.allowed) - Elems(c.allowed)))
  }

  function SwitchServer(d: Daemon, c: Config, env: Answers): (Daemon, bool)
    requires c.hop in d.connections
  {
    var last := d.connections[c.hop];
    if !env.updatePeer then
      (d.(exclusions := AddFirst(d.exclusions, c.excluded, |c.excluded|, env.addExclusion)), false)
    else
      var d1 := SwitchRoutes(d, last, c, env);
      if c.serverPublicKey != last.serverPublicKey && !env.deletePeer then (d1, false)
      else
        var d2 := if c.serverPublicKey == last.serverPublicKey then d1
                  else d1.(peers := d1.peers - {last.serverPublicKey});
        (d2.(connections := d2.connections[c.hop := c]), true)
  }

  function RangesOf(m: map<Hop, Config>): set<Range> {
    set h, r | h in m && r in m[h].allowed :: r
  }

  function KeysOf(m: map<Hop, Config>): set<string> {
    set h | h in m :: m[h].serverPublicKey
  }

  function Deactivate(d: Daemon, env: Answers): (Daemon, bool) {
    if d.connections != map[] && !env.runDown then (d, false)
    else
      (Daemon(map[], Exclusions(map[], d.exclusions.installed - d.exclusions.counts.Keys),
              d.up && !env.deleteInterface, d.peers - KeysOf(d.connections),
              d.routes - RangesOf(d.connections), d.handshakeTimer),
       env.deleteInterface)
  }

  function Activate(d: Daemon, c: Config, env: Answers): (Daemon, bool)
    decreases c.hop in d.connections
  {
    if c.hop !in d.connections then BringUp(d, c, env)
    else if d.connections[c.hop].identity == c.identity then
      var (d1, ok) := SwitchServer(d, c, env);
      if !ok || !env.restoreResolvers || ResolversFail(c, env) || !env.runSwitch then (d1, false)
      else (d1.(connections := d1.connections[c.hop := c], handshakeTimer := true), true)
    else
      var (d1, ok) := Deactivate(d, env);
      if !ok then (d1, false) else Activate(d1, c, env)
  }

  // ---------------------------------------------------------------- runs

  datatype Call = Activation(config: Config, env: Answers) | Deactivation(env: Answers)

  function Perform(d: Daemon, k: Call): Daemon {
    match k
    case Activation(c, env) => Activate(d, c, env).0
    case Deactivation(env) => Deactivate(d, env).0
  }

  function PerformAll(d: Daemon, ks: seq<Call>): Daemon
    decreases |ks|
  {
    if ks == [] then d else PerformAll(Perform(d, ks[0]), ks[1..])
  }
}

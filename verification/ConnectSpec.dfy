/** The connect flow as a function of the world: pinned ranks, sticky reconnect with
    backoff, the pool pass, and fresh discovery. Each function returns the trace it
    extends, the store it leaves and the peer it reached. */
module ConnectSpec {
  import opened Wrappers
  import opened Selection
  import opened Sticky
  import opened Config
  import opened Environments
  import opened Backoffs

  const FINDNODES_DISCOVERY_LIMIT: nat := 25
  const MAX_DISCOVERY_ATTEMPTS: nat := 20
  const MAX_PINNED_PASSES: nat := 20
  const STICKY_RECONNECT_ATTEMPTS: nat := 3

  datatype ConnectError =
    | PinnedExhausted(port: Port, count: nat)
    | DiscoveryExhausted(port: Port, attempts: nat)

  datatype ConnectedDestination = ConnectedDestination(peer: PeerId, source: DestinationSource)

  /** The world and the relay address that circuits are synthesized through. */
  datatype World = World(net: Net, relay: Multiaddr)

  datatype Reach = Reach(trace: Trace, peer: Option<PeerId>)

  datatype Outcome = Outcome(store: Store, trace: Trace, result: Result<ConnectedDestination, ConnectError>)

  // ---------- dialling ----------

  /** `.ok().flatten()` of a dial reply. */
  function Reached(reply: Result<Option<PeerId>, DialError>): Option<PeerId> {
    if reply.Ok? then reply.value else None
  }

  function DialSet(w: World, t: Trace, addresses: set<Multiaddr>): (r: Reach)
    ensures t <= r.trace
  {
    if addresses == {} then Reach(t, None)
    else
      var reply := w.net.dial(t, addresses);
      Reach(t + [Dialling(addresses, reply)], Reached(reply))
  }

  function DialRoutes(w: World, t: Trace, routes: set<Multiaddr>): (r: Reach)
    ensures t <= r.trace
  {
    var direct := DialSet(w, t + [Racing(routes)], Direct(routes));
    if direct.peer.Some? then direct else DialSet(w, direct.trace, Relayed(routes))
  }

  function Circuits(relay: Multiaddr, peers: seq<PeerId>): Routes {
    map p | p in peers && SynthesizeCircuit(relay, p).Some? :: [SynthesizeCircuit(relay, p).value]
  }

  function UsableRoutes(relay: Multiaddr, peers: seq<PeerId>, reply: Result<Routes, DirectoryError>): Routes {
    match reply
    case Ok(routes) => routes
    case Err(Unsupported) => Circuits(relay, peers)
    case Err(_) => map[]
  }

  function AllRoutes(routes: Routes): set<Multiaddr> {
    set p, a | p in routes && a in routes[p] :: a
  }

  /** Everything one attempt at a known peer dials: its remembered direct address,
      the hub's routes, and a relay circuit when there is neither. */
  function ReachRoutes(relay: Multiaddr, s: Store, port: Port, peer: PeerId, routes: Routes): set<Multiaddr> {
    var known := DirectAddress(s, port, peer);
    var tagged := if known.Some? then WithP2p(known.value, peer) else None;
    var found := (if tagged.Some? then {tagged.value} else {}) + AllRoutes(routes);
    var circuit := SynthesizeCircuit(relay, peer);
    if found == {} && circuit.Some? then {circuit.value} else found
  }

  function TryReach(w: World, s: Store, t: Trace, port: Port, peer: PeerId): (r: Reach)
    ensures t <= r.trace
  {
    var reply := w.net.resolve(t, [peer]);
    DialRoutes(w, t + [Resolving([peer], reply)],
      ReachRoutes(w.relay, s, port, peer, UsableRoutes(w.relay, [peer], reply)))
  }

  // ---------- sticky reuse ----------

  /** The delays between reconnect attempts: 1 s, doubling, capped at 8 s. */
  function ReconnectDelay(attempt: nat): Duration {
    if attempt == 0 then SECOND else Min(8 * SECOND, 2 * ReconnectDelay(attempt - 1))
  }

  /** The trace once an attempt has failed: another one is preceded by a sleep. */
  function AfterAttempt(t: Trace, attempt: nat): (u: Trace)
    ensures t <= u
  {
    if attempt + 1 < STICKY_RECONNECT_ATTEMPTS then t + [Sleeping(ReconnectDelay(attempt))] else t
  }

  function Reconnect(w: World, s: Store, t: Trace, port: Port, peer: PeerId, attempt: nat): (r: Reach)
    ensures t <= r.trace
    decreases STICKY_RECONNECT_ATTEMPTS - attempt
  {
    if attempt >= STICKY_RECONNECT_ATTEMPTS then Reach(t, None)
    else
      var r := TryReach(w, s, t, port, peer);
      if r.peer.Some? then r
      else Reconnect(w, s, AfterAttempt(r.trace, attempt), port, peer, attempt + 1)
  }

  /** The delays are those of the backoff schedule. */
  lemma {:induction false} ReconnectDelayIsBackoff(attempt: nat)
    ensures ReconnectDelay(attempt) == DelayAt(SECOND, 2, 8 * SECOND, attempt)
  {
    if attempt == 0 {
      assert Pow(2, 0) == 1;
    } else {
      ReconnectDelayIsBackoff(attempt - 1);
      NextPower(SECOND, 2, 8 * SECOND, attempt - 1, ReconnectDelay(attempt - 1));
    }
  }

  datatype PoolPass = PoolPass(store: Store, trace: Trace, peer: Option<PeerId>)

  /** Members are tried most-recent first and pruned when they cannot be reached;
      the peer that just dropped is passed over. */
  function WalkPool(w: World, s: Store, t: Trace, port: Port, peers: seq<PeerId>, skip: Option<PeerId>): (r: PoolPass)
    ensures t <= r.trace
    decreases |peers|
  {
    if peers == [] then PoolPass(s, t, None)
    else if Some(peers[0]) == skip then WalkPool(w, s, t, port, peers[1..], skip)
    else
      var r := TryReach(w, s, t, port, peers[0]);
      if r.peer.Some? then PoolPass(s, r.trace, r.peer)
      else WalkPool(w, Forget(s, port, peers[0]), r.trace, port, peers[1..], skip)
  }

  function ConnectPool(w: World, s: Store, t: Trace, server: Server, skip: Option<PeerId>): (r: PoolPass)
    ensures t <= r.trace
  {
    if !server.sticky then PoolPass(s, t, None)
    else
      var fp := server.Fingerprint();
      WalkPool(w, Invalidate(s, server.port, fp), t, server.port, PoolIds(s, server.port, fp), skip)
  }

  function RememberFor(s: Store, server: Server, peer: PeerId): Store {
    if server.sticky then Remember(s, server.port, server.Fingerprint(), peer, server.maxTotal) else s
  }

  // ---------- fresh discovery ----------

  function AddressesOf(relay: Multiaddr, candidate: PoolPeer): set<Multiaddr> {
    if candidate.addresses != [] then set a | a in candidate.addresses
    else
      var circuit := SynthesizeCircuit(relay, candidate.peerId);
      if circuit.Some? then {circuit.value} else {}
  }

  function CandidateAddresses(relay: Multiaddr, candidates: seq<PoolPeer>): set<Multiaddr> {
    set c, a | c in candidates && a in AddressesOf(relay, c) :: a
  }

  /** One query of the hub, and one race over every candidate's routes. */
  function DiscoverOnce(w: World, t: Trace, server: Server): (r: Reach)
    ensures t <= r.trace
  {
    var found := w.net.findNodes(t, server, FINDNODES_DISCOVERY_LIMIT);
    var t1 := t + [FindingNodes(server.port, FINDNODES_DISCOVERY_LIMIT, found)];
    if found.Err? then Reach(t1 + [Sleeping(SECOND)], None)
    else
      var t2 := t1 + [Emitting(ServerPool(server.port, found.value))];
      if found.value == [] then Reach(t2 + [Sleeping(SECOND)], None)
      else DialRoutes(w, t2, CandidateAddresses(w.relay, found.value))
  }

  function Discover(w: World, s: Store, t: Trace, server: Server, attempt: nat): (r: Outcome)
    ensures t <= r.trace
    decreases MAX_DISCOVERY_ATTEMPTS - attempt
  {
    if attempt >= MAX_DISCOVERY_ATTEMPTS then
      Outcome(s, t + [Emitting(ErrorShown)], Err(DiscoveryExhausted(server.port, MAX_DISCOVERY_ATTEMPTS)))
    else
      var r := DiscoverOnce(w, t, server);
      if r.peer.Some? then
        Outcome(RememberFor(s, server, r.peer.value), r.trace, Ok(ConnectedDestination(r.peer.value, Discovered)))
      else Discover(w, s, r.trace, server, attempt + 1)
  }

  predicate Fights(server: Server, avoid: Option<PeerId>) {
    avoid.Some? && server.sticky && server.stickyReconnect == WithBackoff
  }

  function Reuse(s: Store, t: Trace, server: Server, peer: PeerId): Outcome {
    Outcome(RememberFor(s, server, peer), t, Ok(ConnectedDestination(peer, StickyReuse)))
  }

  /** Pool pass, then discovery. */
  function ConnectFresh(w: World, s: Store, t: Trace, server: Server, skip: Option<PeerId>): (r: Outcome)
    ensures t <= r.trace
  {
    var pass := ConnectPool(w, s, t, server, skip);
    if pass.peer.Some? then Reuse(pass.store, pass.trace, server, pass.peer.value)
    else Discover(w, pass.store, pass.trace, server, 0)
  }

  function ConnectDiscovered(w: World, s: Store, t: Trace, server: Server, avoid: Option<PeerId>): (r: Outcome)
    ensures t <= r.trace
  {
    if Fights(server, avoid) then
      var r := Reconnect(w, s, t, server.port, avoid.value, 0);
      if r.peer.Some? then Reuse(s, r.trace, server, r.peer.value)
      else ConnectFresh(w, Forget(s, server.port, avoid.value), r.trace, server, avoid)
    else ConnectFresh(w, s, t, server, avoid)
  }

  // ---------- pinned ranks ----------

  function Statuses(pinned: seq<DestinationPeerEntry>, routes: Routes): seq<PinnedPeerStatus> {
    seq(|pinned|, i requires 0 <= i < |pinned| =>
      PinnedPeerStatus(pinned[i].peerId, i, CandidateRoutes(pinned[i], routes) != {}))
  }

  datatype Ranked = Ranked(trace: Trace, rank: nat, peer: Option<PeerId>)

  /** Ranks in preference order; the first one with a route that connects. */
  function TryRanks(w: World, t: Trace, pinned: seq<DestinationPeerEntry>, routes: Routes, rank: nat): (r: Ranked)
    ensures t <= r.trace && (r.peer.Some? ==> rank <= r.rank < |pinned|)
    decreases |pinned| - rank
  {
    if rank >= |pinned| then Ranked(t, rank, None)
    else
      var candidate := CandidateRoutes(pinned[rank], routes);
      if candidate == {} then TryRanks(w, t, pinned, routes, rank + 1)
      else
        var r := DialRoutes(w, t, candidate);
        if r.peer.Some? then Ranked(r.trace, rank, r.peer)
        else TryRanks(w, r.trace, pinned, routes, rank + 1)
  }

  /** Settles on the first better rank that has a link by now, or else on the dialled one. */
  function AdoptBest(w: World, t: Trace, pinned: seq<DestinationPeerEntry>, better: nat, rank: nat,
                     peer: PeerId): (r: Ranked)
    requires rank <= |pinned|
    ensures t <= r.trace && r.peer.Some?
    decreases rank - better
  {
    if better >= rank then Ranked(t, rank, Some(peer))
    else
      var connected := w.net.isConnected(t, pinned[better].peerId);
      var t1 := t + [AskingConnected(pinned[better].peerId, connected)];
      if connected then Ranked(t1, better, Some(pinned[better].peerId))
      else AdoptBest(w, t1, pinned, better + 1, rank, peer)
  }

  function PinnedIdSeq(pinned: seq<DestinationPeerEntry>): seq<PeerId> {
    seq(|pinned|, i requires 0 <= i < |pinned| => pinned[i].peerId)
  }

  function PinnedRoutes(w: World, t: Trace, pinned: seq<DestinationPeerEntry>): Routes {
    UsableRoutes(w.relay, PinnedIdSeq(pinned), w.net.resolve(t, PinnedIdSeq(pinned)))
  }

  function PinnedPrelude(w: World, t: Trace, port: Port, pinned: seq<DestinationPeerEntry>): Trace {
    t + [Resolving(PinnedIdSeq(pinned), w.net.resolve(t, PinnedIdSeq(pinned)))]
      + [Emitting(PinnedPeerStatuses(port, Statuses(pinned, PinnedRoutes(w, t, pinned))))]
  }

  /** One pass: resolve, surface the statuses, then try the ranks. */
  function PinnedPass(w: World, t: Trace, server: Server): (r: Ranked)
    ensures t <= r.trace && (r.peer.Some? ==> r.rank < |server.Pinned()|)
  {
    TryRanks(w, PinnedPrelude(w, t, server.port, server.Pinned()), server.Pinned(),
      PinnedRoutes(w, t, server.Pinned()), 0)
  }

  function ConnectPinned(w: World, s: Store, t: Trace, server: Server, pass: nat): (r: Outcome)
    ensures t <= r.trace
    decreases MAX_PINNED_PASSES - pass
  {
    var pinned := server.Pinned();
    if pass >= MAX_PINNED_PASSES then
      Outcome(s, t + [Emitting(ErrorShown)], Err(PinnedExhausted(server.port, |pinned|)))
    else
      var tried := PinnedPass(w, t, server);
      if tried.peer.Some? then
        var best := AdoptBest(w, tried.trace, pinned, 0, tried.rank, tried.peer.value);
        Outcome(s, best.trace, Ok(ConnectedDestination(best.peer.value, Pinned(best.rank))))
      else if server.fallbackToDiscovery then ConnectDiscovered(w, s, tried.trace, server, None)
      else ConnectPinned(w, s, tried.trace + [Sleeping(SECOND)], server, pass + 1)
  }

  function Connect(w: World, s: Store, t: Trace, server: Server, avoid: Option<PeerId>): (r: Outcome)
    ensures t <= r.trace
  {
    if server.Pinned() == [] then ConnectDiscovered(w, s, t, server, avoid)
    else ConnectPinned(w, s, t, server, 0)
  }
}

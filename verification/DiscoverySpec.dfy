/** The discovery actor as a function of its state, the world and the event. */
module DiscoverySpec {
  import opened Wrappers
  import opened Selection
  import opened Sticky
  import opened Config
  import opened NetworkActors
  import opened Backoffs
  import opened Environments
  import opened ConnectSpec

  const REDISCOVERY_COOLDOWN: nat := 30 * SECOND

  datatype DiscoveryEvent =
    | DiscoverFor(port: Port)
    | RequestNewPeer(port: Port)
    | PeerClosed(peer: PeerId)
    | PeerUnusable(peer: PeerId)
    | PeerConnected(peer: PeerId, address: Multiaddr, relayed: bool)
    | SelectPeer(port: Port, peer: PeerId)

  type Destinations = map<Port, Option<PeerId>>

  datatype Actor = Actor(store: Store, destinations: Destinations, lastRediscovery: map<Port, Instant>,
                         pending: set<Port>, direct: set<PeerId>, timers: multiset<Timer>, trace: Trace)
  {
    function Noting(act: Act): Actor {
      this.(trace := trace + [act])
    }
  }

  /** The world, the relay address and the configured servers. */
  datatype Setting = Setting(net: Net, relay: Multiaddr, servers: seq<Server>)
  {
    function W(): World {
      World(net, relay)
    }
  }

  function FindServer(servers: seq<Server>, port: Port): (r: Option<Server>)
    ensures r.Some? ==> r.value in servers && r.value.port == port
    ensures r.None? ==> forall s :: s in servers ==> s.port != port
  {
    if servers == [] then None
    else if servers[0].port == port then Some(servers[0])
    else FindServer(servers[1..], port)
  }

  function ServedBy(destinations: Destinations, peer: PeerId): set<Port> {
    set port | port in destinations && destinations[port] == Some(peer)
  }

  function PointTo(a: Actor, port: Port, peer: Option<PeerId>, source: Option<DestinationSource>): (r: Actor)
    ensures a.trace <= r.trace && r.destinations.Keys == a.destinations.Keys
  {
    a.(destinations := if port in a.destinations then a.destinations[port := peer] else a.destinations)
     .Noting(Emitting(ActiveDestination(port, peer, source)))
  }

  function ShowPool(a: Actor, server: Server): Actor {
    a.Noting(Emitting(StickyPoolShown(server.port, Snapshot(a.store, server.port, server.Fingerprint()))))
  }

  datatype Selected = Selected(actor: Actor, peer: Option<PeerId>)

  /** The actor once `server` has been connected, before the destination is set. */
  function AfterConnect(a: Actor, server: Server, o: Outcome): Actor {
    ShowPool(a.(store := o.store, trace := o.trace), server)
  }

  function ConnectFor(g: Setting, a: Actor, server: Server, avoid: Option<PeerId>): Outcome {
    Connect(g.W(), a.store, a.trace + [Selecting(server.port)], server, avoid)
  }

  function Select(g: Setting, a: Actor, server: Server, avoid: Option<PeerId>): (r: Selected)
    ensures a.trace <= r.actor.trace && r.actor.destinations.Keys == a.destinations.Keys
  {
    var o := ConnectFor(g, a, server, avoid);
    var b := AfterConnect(a, server, o);
    match o.result
    case Ok(d) => Selected(PointTo(b, server.port, Some(d.peer), Some(d.source)), Some(d.peer))
    case Err(_) => Selected(PointTo(b, server.port, None, None), None)
  }

  function DiscoverPort(g: Setting, a: Actor, port: Port, avoid: Option<PeerId>): (r: Selected)
    ensures a.trace <= r.actor.trace && r.actor.destinations.Keys == a.destinations.Keys
  {
    var b := a.(pending := a.pending - {port});
    match FindServer(g.servers, port)
    case None => Selected(b, None)
    case Some(server) => Select(g, b, server, avoid)
  }

  // ---------- a closed peer ----------

  function Elapsed(a: Actor, port: Port, now: Instant): nat
    requires port in a.lastRediscovery
  {
    if now >= a.lastRediscovery[port] then now - a.lastRediscovery[port] else 0
  }

  function Throttle(g: Setting, a: Actor, port: Port, remaining: nat): (r: Actor)
    ensures a.trace <= r.trace && r.destinations.Keys == a.destinations.Keys
  {
    var b := PointTo(a.Noting(Throttling(port)), port, None, None);
    if port in b.pending then b
    else
      var timer := Timer(port, g.net.now(b.trace), remaining);
      b.(pending := b.pending + {port}, timers := b.timers + multiset{timer}).Noting(Spawning(timer))
  }

  function Rediscover(g: Setting, a: Actor, port: Port, peer: PeerId): Actor {
    var now := g.net.now(a.trace);
    var b := a.(lastRediscovery := a.lastRediscovery[port := now])
             .Noting(ReadingClock(now)).Noting(Rediscovering(port, now));
    DiscoverPort(g, b, port, Some(peer)).actor
  }

  /** The cooldown check, with the clock read at `now`. */
  function CloseAt(g: Setting, a: Actor, peer: PeerId, port: Port, now: Instant): Actor
    requires port in a.lastRediscovery
  {
    if Elapsed(a, port, now) < REDISCOVERY_COOLDOWN
      then Throttle(g, a, port, REDISCOVERY_COOLDOWN - Elapsed(a, port, now))
    else Rediscover(g, a, port, peer)
  }

  function ClosePort(g: Setting, a: Actor, peer: PeerId, port: Port): Actor {
    if port !in a.lastRediscovery then Rediscover(g, a, port, peer)
    else
      var now := g.net.now(a.trace);
      CloseAt(g, a.Noting(ReadingClock(now)), peer, port, now)
  }

  function ClosePorts(g: Setting, a: Actor, peer: PeerId, ports: seq<Port>): Actor
    decreases |ports|
  {
    if ports == [] then a else ClosePorts(g, ClosePort(g, a, peer, ports[0]), peer, ports[1..])
  }

  function PeerGone(g: Setting, a: Actor, peer: PeerId): Actor {
    ClosePorts(g, a.(direct := a.direct - {peer}), peer, g.net.iterate(a.trace, ServedBy(a.destinations, peer)))
  }

  // ---------- a direct connection ----------

  function Adopt(a: Actor, server: Server, peer: PeerId, source: DestinationSource): Actor {
    var b := a.(store := Remember(a.store, server.port, server.Fingerprint(), peer, server.maxTotal));
    ShowPool(PointTo(b, server.port, Some(peer), Some(source)), server)
  }

  function RelayStuck(a: Actor, candidate: PeerId): set<Port> {
    set port | port in a.destinations && a.destinations[port].Some?
               && a.destinations[port].value != candidate && a.destinations[port].value !in a.direct
  }

  function RotatePort(g: Setting, a: Actor, candidate: PeerId, port: Port): Actor {
    match FindServer(g.servers, port)
    case None => a
    case Some(server) =>
      var fp := server.Fingerprint();
      var b := a.(store := Invalidate(a.store, port, fp));
      if candidate !in PoolIds(a.store, port, fp) then b else Adopt(b, server, candidate, StickyReuse)
  }

  function RotatePorts(g: Setting, a: Actor, candidate: PeerId, ports: seq<Port>): Actor
    decreases |ports|
  {
    if ports == [] then a else RotatePorts(g, RotatePort(g, a, candidate, ports[0]), candidate, ports[1..])
  }

  function Connected(g: Setting, a: Actor, peer: PeerId, address: Multiaddr, relayed: bool): Actor {
    if relayed then a.(direct := a.direct - {peer})
    else
      var b := a.(direct := a.direct + {peer}, store := Note(a.store, peer, address));
      RotatePorts(g, b, peer, g.net.iterate(b.trace, RelayStuck(b, peer)))
  }

  // ---------- an unusable peer ----------

  function ForgetEverywhere(s: Store, servers: seq<Server>, peer: PeerId): Store {
    if servers == [] then s else ForgetEverywhere(Forget(s, servers[0].port, peer), servers[1..], peer)
  }

  function DiscoverPorts(g: Setting, a: Actor, ports: seq<Port>): Actor
    decreases |ports|
  {
    if ports == [] then a else DiscoverPorts(g, DiscoverPort(g, a, ports[0], None).actor, ports[1..])
  }

  function ShowPools(a: Actor, servers: seq<Server>): Actor
    decreases |servers|
  {
    if servers == [] then a else ShowPools(ShowPool(a, servers[0]), servers[1..])
  }

  function Unusable(g: Setting, a: Actor, peer: PeerId): Actor {
    var b := a.(store := ForgetEverywhere(a.store, g.servers, peer));
    ShowPools(DiscoverPorts(g, b, g.net.iterate(b.trace, ServedBy(b.destinations, peer))), g.servers)
  }

  // ---------- a manual pick ----------

  function Pick(g: Setting, a: Actor, port: Port, peer: PeerId): Actor {
    match FindServer(g.servers, port)
    case None => a
    case Some(server) =>
      var r := TryReach(g.W(), a.store, a.trace, port, peer);
      var b := a.(trace := r.trace);
      if r.peer.Some? then Adopt(b, server, r.peer.value, Manual) else b.Noting(Emitting(ErrorShown))
  }

  // ---------- one event ----------

  function Handle(g: Setting, a: Actor, e: DiscoveryEvent): Actor {
    match e
    case DiscoverFor(port) => DiscoverPort(g, a, port, None).actor
    case RequestNewPeer(port) =>
      var r := DiscoverPort(g, a, port, None);
      r.actor.Noting(Replying(port, r.peer))
    case PeerClosed(peer) => PeerGone(g, a, peer)
    case PeerUnusable(peer) => Unusable(g, a, peer)
    case PeerConnected(peer, address, relayed) => Connected(g, a, peer, address, relayed)
    case SelectPeer(port, peer) => Pick(g, a, port, peer)
  }
}

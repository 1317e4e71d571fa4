/** The discovery actor as it runs: `&mut self` handlers over the sticky store, the
    destination handles, the cooldown table, the pending set and the direct peers. */
module DiscoveryActors {
  import opened Wrappers
  import opened Selection
  import opened Sticky
  import opened Config
  import opened Environments
  import opened ConnectSpec
  import opened Connects
  import opened DiscoverySpec

  class DiscoveryActor {
    const env: Environment
    const sticky: StickyState
    const servers: seq<Server>
    const relayAddress: Multiaddr
    var destinations: Destinations
    var lastRediscovery: map<Port, nat>
    var pendingRediscovery: set<Port>
    var directPeers: set<PeerId>

    ghost function G(): Setting {
      Setting(env.net, relayAddress, servers)
    }

    ghost function View(): Actor
      reads this, env, sticky
    {
      Actor(sticky.pools, destinations, lastRediscovery, pendingRediscovery, directPeers, env.timers, env.trace)
    }

    constructor (env: Environment, sticky: StickyState, servers: seq<Server>, relayAddress: Multiaddr,
      destinations: Destinations)
      ensures this.env == env && this.sticky == sticky && this.servers == servers && this.relayAddress == relayAddress
      ensures View() == Actor(sticky.pools, destinations, map[], {}, {}, env.timers, env.trace)
    {
      this.env := env;
      this.sticky := sticky;
      this.servers := servers;
      this.relayAddress := relayAddress;
      this.destinations := destinations;
      this.lastRediscovery := map[];
      this.pendingRediscovery := {};
      this.directPeers := {};
    }

    method SetDestination(port: Port, destination: ConnectedDestination)
      modifies `destinations, env`trace
      ensures View() == PointTo(old(View()), port, Some(destination.peer), Some(destination.source))
    {
      if port in destinations {
        destinations := destinations[port := Some(destination.peer)];
      }
      env.Record(Emitting(ActiveDestination(port, Some(destination.peer), Some(destination.source))));
    }

    method ClearDestination(port: Port)
      modifies `destinations, env`trace
      ensures View() == PointTo(old(View()), port, None, None)
    {
      if port in destinations {
        destinations := destinations[port := None];
      }
      env.Record(Emitting(ActiveDestination(port, None, None)));
    }

    method EmitStickyPool(server: Server)
      modifies env`trace
      ensures View() == ShowPool(old(View()), server)
    {
      var peers := sticky.SnapshotOf(server.port, server.Fingerprint());
      env.Record(Emitting(StickyPoolShown(server.port, peers)));
    }

    method Discover(port: Port, avoid: Option<PeerId>) returns (peer: Option<PeerId>)
      modifies this, env`trace, sticky
      ensures Selected(View(), peer) == DiscoverPort(G(), old(View()), port, avoid)
    {
      pendingRediscovery := pendingRediscovery - {port};
      var found := FindServer(servers, port);
      if found.None? {
        return None;
      }
      var server := found.value;
      env.Record(Selecting(port));
      var connect := new ConnectCtx(env, sticky, relayAddress);
      var result := connect.ConnectTo(server, avoid);
      EmitStickyPool(server);
      match result
      case Ok(destination) =>
        SetDestination(port, destination);
        peer := Some(destination.peer);
      case Err(_) =>
        ClearDestination(port);
        peer := None;
    }

    /** Runs discovery for a port whose exit just dropped, or schedules one when the
        port is still cooling down. */
    method ClosePortOf(peer: PeerId, port: Port)
      modifies this, env, sticky
      ensures View() == ClosePort(G(), old(View()), peer, port)
    {
      if port in lastRediscovery {
        var now := env.Now();
        var last := lastRediscovery[port];
        var elapsed := if now >= last then now - last else 0;
        if elapsed < REDISCOVERY_COOLDOWN {
          HoldPort(port, REDISCOVERY_COOLDOWN - elapsed);
          return;
        }
      }
      RediscoverNow(port, peer);
    }

    method HoldPort(port: Port, remaining: nat)
      modifies `destinations, `pendingRediscovery, env
      ensures View() == Throttle(G(), old(View()), port, remaining)
    {
      env.Record(Throttling(port));
      ClearDestination(port);
      if port !in pendingRediscovery {
        pendingRediscovery := pendingRediscovery + {port};
        env.Spawn(port, remaining);
      }
    }

    method RediscoverNow(port: Port, peer: PeerId)
      modifies this, env`trace, sticky
      ensures View() == Rediscover(G(), old(View()), port, peer)
    {
      var at := env.Now();
      lastRediscovery := lastRediscovery[port := at];
      env.Record(Rediscovering(port, at));
      var _ := Discover(port, Some(peer));
    }

    method HandlePeerClosed(peer: PeerId)
      modifies this, env, sticky
      ensures View() == PeerGone(G(), old(View()), peer)
    {
      directPeers := directPeers - {peer};
      var stale := env.net.iterate(env.trace, ServedBy(destinations, peer));
      ghost var start := View();
      var i := 0;
      while i < |stale|
        invariant 0 <= i <= |stale|
        invariant ClosePorts(G(), start, peer, stale) == ClosePorts(G(), View(), peer, stale[i..])
      {
        assert stale[i..][0] == stale[i] && stale[i..][1..] == stale[i + 1..];
        ClosePortOf(peer, stale[i]);
        i := i + 1;
      }
    }

    method AdoptSpecific(server: Server, peer: PeerId, source: DestinationSource)
      modifies `destinations, env`trace, sticky
      ensures View() == Adopt(old(View()), server, peer, source)
    {
      var _ := sticky.RememberPeer(server.port, server.Fingerprint(), peer, server.maxTotal);
      SetDestination(server.port, ConnectedDestination(peer, source));
      EmitStickyPool(server);
    }

    method RotateOffRelayIfBetter(candidate: PeerId)
      modifies `destinations, env`trace, sticky
      ensures View() == RotatePorts(G(), old(View()), candidate,
              env.net.iterate(old(env.trace), RelayStuck(old(View()), candidate)))
    {
      var relayStuck := set port | port in destinations && destinations[port].Some?
                                   && destinations[port].value != candidate && destinations[port].value !in directPeers;
      ghost var start := View();
      assert relayStuck == RelayStuck(start, candidate);
      var ports := env.net.iterate(env.trace, relayStuck);
      var i := 0;
      while i < |ports|
        invariant 0 <= i <= |ports|
        invariant RotatePorts(G(), start, candidate, ports) == RotatePorts(G(), View(), candidate, ports[i..])
      {
        assert ports[i..][0] == ports[i] && ports[i..][1..] == ports[i + 1..];
        var port := ports[i];
        i := i + 1;
        var found := FindServer(servers, port);
        if found.None? {
          continue;
        }
        var pool := sticky.Pool(port, found.value.Fingerprint());
        if candidate !in pool {
          continue;
        }
        AdoptSpecific(found.value, candidate, StickyReuse);
      }
    }

    method HandlePeerUnusable(peer: PeerId)
      modifies this, env`trace, sticky
      ensures View() == Unusable(G(), old(View()), peer)
    {
      var i := 0;
      ghost var pools := sticky.pools;
      while i < |servers|
        invariant 0 <= i <= |servers|
        invariant View() == old(View()).(store := sticky.pools)
        invariant ForgetEverywhere(pools, servers, peer) == ForgetEverywhere(sticky.pools, servers[i..], peer)
      {
        assert servers[i..][0] == servers[i] && servers[i..][1..] == servers[i + 1..];
        sticky.ForgetPeer(servers[i].port, peer);
        i := i + 1;
      }
      var stale := env.net.iterate(env.trace, ServedBy(destinations, peer));
      DiscoverEach(stale);
      EmitEachPool();
    }

    method DiscoverEach(ports: seq<Port>)
      modifies this, env`trace, sticky
      ensures View() == DiscoverPorts(G(), old(View()), ports)
    {
      var i := 0;
      while i < |ports|
        invariant 0 <= i <= |ports|
        invariant DiscoverPorts(G(), old(View()), ports) == DiscoverPorts(G(), View(), ports[i..])
      {
        assert ports[i..][0] == ports[i] && ports[i..][1..] == ports[i + 1..];
        var _ := Discover(ports[i], None);
        i := i + 1;
      }
    }

    method EmitEachPool()
      modifies env`trace
      ensures View() == ShowPools(old(View()), servers)
    {
      var i := 0;
      while i < |servers|
        invariant 0 <= i <= |servers|
        invariant ShowPools(old(View()), servers) == ShowPools(View(), servers[i..])
      {
        assert servers[i..][0] == servers[i] && servers[i..][1..] == servers[i + 1..];
        EmitStickyPool(servers[i]);
        i := i + 1;
      }
    }

    method SelectExit(port: Port, peer: PeerId)
      modifies `destinations, env`trace, sticky
      ensures View() == Pick(G(), old(View()), port, peer)
    {
      var found := FindServer(servers, port);
      if found.None? {
        return;
      }
      var connect := new ConnectCtx(env, sticky, relayAddress);
      var reached := connect.TryReachPeer(found.value, peer);
      match reached
      case Some(q) => AdoptSpecific(found.value, q, Manual);
      case None => env.Record(Emitting(ErrorShown));
    }

    method HandleEvent(e: DiscoveryEvent)
      modifies this, env, sticky
      ensures View() == Handle(G(), old(View()), e)
    {
      match e
      case DiscoverFor(port) =>
        var _ := Discover(port, None);
      case RequestNewPeer(port) =>
        var peer := Discover(port, None);
        env.Record(Replying(port, peer));
      case PeerClosed(peer) =>
        HandlePeerClosed(peer);
      case PeerUnusable(peer) =>
        HandlePeerUnusable(peer);
      case PeerConnected(peer, address, relayed) =>
        if relayed {
          directPeers := directPeers - {peer};
        } else {
          directPeers := directPeers + {peer};
          sticky.NoteDirectAddress(peer, address);
          RotateOffRelayIfBetter(peer);
        }
      case SelectPeer(port, peer) =>
        SelectExit(port, peer);
    }
  }
}

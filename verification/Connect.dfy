/** The connect flow as it runs: bounded retry loops that mutate the borrowed sticky
    store and leave their mark on the world. */
module Connects {
  import opened Wrappers
  import opened Selection
  import opened Sticky
  import opened Config
  import opened Environments
  import opened Backoffs
  import opened ConnectSpec

  class ConnectCtx {
    const env: Environment
    const sticky: StickyState
    const relayAddress: Multiaddr

    ghost function W(): World {
      World(env.net, relayAddress)
    }

    constructor (env: Environment, sticky: StickyState, relayAddress: Multiaddr)
      ensures this.env == env && this.sticky == sticky && this.relayAddress == relayAddress
    {
      this.env := env;
      this.sticky := sticky;
      this.relayAddress := relayAddress;
    }

    method DialAddresses(addresses: set<Multiaddr>) returns (peer: Option<PeerId>)
      modifies env`trace
      ensures Reach(env.trace, peer) == DialSet(W(), old(env.trace), addresses)
    {
      if addresses == {} {
        return None;
      }
      var reply := env.DialAndWait(addresses);
      peer := if reply.Ok? then reply.value else None;
    }

    method DialAll(routes: set<Multiaddr>) returns (peer: Option<PeerId>)
      modifies env`trace
      ensures Reach(env.trace, peer) == DialRoutes(W(), old(env.trace), routes)
    {
      env.Record(Racing(routes));
      peer := DialAddresses(Direct(routes));
      if peer.Some? {
        return;
      }
      peer := DialAddresses(Relayed(routes));
    }

    method ResolveRoutes(peers: seq<PeerId>) returns (routes: Routes)
      modifies env`trace
      ensures var reply := env.net.resolve(old(env.trace), peers);
              && routes == UsableRoutes(relayAddress, peers, reply)
              && env.trace == old(env.trace) + [Resolving(peers, reply)]
    {
      var reply := env.ResolvePeers(peers);
      match reply
      case Ok(resolved) => routes := resolved;
      case Err(Unsupported) => routes := Circuits(relayAddress, peers);
      case Err(_) => routes := map[];
    }

    method TryReachPeer(server: Server, peer: PeerId) returns (reached: Option<PeerId>)
      modifies env`trace
      ensures Reach(env.trace, reached) == TryReach(W(), sticky.pools, old(env.trace), server.port, peer)
    {
      var found: set<Multiaddr> := {};
      var known := sticky.DirectAddressOf(server.port, peer);
      if known.Some? {
        var tagged := WithP2p(known.value, peer);
        if tagged.Some? {
          found := found + {tagged.value};
        }
      }
      var resolved := ResolveRoutes([peer]);
      found := found + AllRoutes(resolved);
      if found == {} {
        var circuit := SynthesizeCircuit(relayAddress, peer);
        if circuit.Some? {
          found := found + {circuit.value};
        }
      }
      assert found == ReachRoutes(relayAddress, sticky.pools, server.port, peer, resolved);
      reached := DialAll(found);
    }

    method ReconnectStickyPeer(server: Server, peer: PeerId) returns (reached: Option<PeerId>)
      modifies env`trace
      ensures Reach(env.trace, reached) == Reconnect(W(), sticky.pools, old(env.trace), server.port, peer, 0)
    {
      var backoff := new Backoff(SECOND, 2, 8 * SECOND);
      var attempt := 0;
      while attempt < STICKY_RECONNECT_ATTEMPTS
        modifies env`trace, backoff
        invariant attempt <= STICKY_RECONNECT_ATTEMPTS
        invariant backoff.Valid()
        invariant attempt < STICKY_RECONNECT_ATTEMPTS ==> backoff.taken == attempt
        invariant Reconnect(W(), sticky.pools, old(env.trace), server.port, peer, 0)
                  == Reconnect(W(), sticky.pools, env.trace, server.port, peer, attempt)
      {
        reached := TryReachPeer(server, peer);
        if reached.Some? {
          return;
        }
        if attempt + 1 < STICKY_RECONNECT_ATTEMPTS {
          var delay := backoff.NextDelay();
          ReconnectDelayIsBackoff(attempt);
          env.Record(Sleeping(delay));
        }
        attempt := attempt + 1;
      }
      reached := None;
    }

    method RememberPeer(server: Server, fingerprint: string, peer: PeerId)
      modifies sticky
      ensures sticky.pools == if server.sticky
              then Remember(old(sticky.pools), server.port, fingerprint, peer, server.maxTotal)
                              else old(sticky.pools)
    {
      if server.sticky {
        var _ := sticky.RememberPeer(server.port, fingerprint, peer, server.maxTotal);
      }
    }

    method ConnectStickyPool(server: Server, fingerprint: string, skip: Option<PeerId>)
      returns (reached: Option<PeerId>)
      requires fingerprint == server.Fingerprint()
      modifies env`trace, sticky
      ensures PoolPass(sticky.pools, env.trace, reached)
              == ConnectPool(W(), old(sticky.pools), old(env.trace), server, skip)
    {
      if !server.sticky {
        return None;
      }
      var peers := sticky.Pool(server.port, fingerprint);
      var i := 0;
      while i < |peers|
        invariant 0 <= i <= |peers|
        invariant ConnectPool(W(), old(sticky.pools), old(env.trace), server, skip)
                  == WalkPool(W(), sticky.pools, env.trace, server.port, peers[i..], skip)
      {
        var peer := peers[i];
        assert peers[i..][0] == peer && peers[i..][1..] == peers[i + 1..];
        if Some(peer) != skip {
          reached := TryReachPeer(server, peer);
          if reached.Some? {
            return;
          }
          sticky.ForgetPeer(server.port, peer);
        }
        i := i + 1;
      }
      reached := None;
    }

    /** One attempt of the discovery loop. */
    method DiscoveryAttempt(server: Server) returns (peer: Option<PeerId>)
      modifies env`trace
      ensures Reach(env.trace, peer) == DiscoverOnce(W(), old(env.trace), server)
    {
      var found := env.FindNodes(server, FINDNODES_DISCOVERY_LIMIT);
      if found.Err? {
        env.Record(Sleeping(SECOND));
        return None;
      }
      var candidates := found.value;
      env.Record(Emitting(ServerPool(server.port, candidates)));
      if candidates == [] {
        env.Record(Sleeping(SECOND));
        return None;
      }
      peer := DialAll(CandidateAddresses(relayAddress, candidates));
    }

    method RunDiscovery(server: Server, fingerprint: string)
      returns (result: Result<ConnectedDestination, ConnectError>)
      requires fingerprint == server.Fingerprint()
      modifies env`trace, sticky
      ensures Outcome(sticky.pools, env.trace, result) == Discover(W(), old(sticky.pools), old(env.trace), server, 0)
    {
      var attempt := 0;
      while attempt < MAX_DISCOVERY_ATTEMPTS
        invariant attempt <= MAX_DISCOVERY_ATTEMPTS
        invariant sticky.pools == old(sticky.pools)
        invariant Discover(W(), old(sticky.pools), old(env.trace), server, 0)
                  == Discover(W(), sticky.pools, env.trace, server, attempt)
      {
        var peer := DiscoveryAttempt(server);
        if peer.Some? {
          RememberPeer(server, fingerprint, peer.value);
          return Ok(ConnectedDestination(peer.value, Discovered));
        }
        attempt := attempt + 1;
      }
      env.Record(Emitting(ErrorShown));
      result := Err(DiscoveryExhausted(server.port, MAX_DISCOVERY_ATTEMPTS));
    }

    method ConnectByDiscovery(server: Server, avoid: Option<PeerId>)
      returns (result: Result<ConnectedDestination, ConnectError>)
      modifies env`trace, sticky
      ensures Outcome(sticky.pools, env.trace, result)
              == ConnectDiscovered(W(), old(sticky.pools), old(env.trace), server, avoid)
    {
      var fingerprint := server.Fingerprint();
      if avoid.Some? && server.sticky && server.stickyReconnect == WithBackoff {
        var back := ReconnectStickyPeer(server, avoid.value);
        if back.Some? {
          RememberPeer(server, fingerprint, back.value);
          return Ok(ConnectedDestination(back.value, StickyReuse));
        }
        sticky.ForgetPeer(server.port, avoid.value);
      }
      var pooled := ConnectStickyPool(server, fingerprint, avoid);
      if pooled.Some? {
        RememberPeer(server, fingerprint, pooled.value);
        return Ok(ConnectedDestination(pooled.value, StickyReuse));
      }
      result := RunDiscovery(server, fingerprint);
    }

    method AdoptBestPinnedRank(pinned: seq<DestinationPeerEntry>, rank: nat, peer: PeerId)
      returns (bestRank: nat, bestPeer: PeerId)
      requires rank <= |pinned|
      modifies env`trace
      ensures Ranked(env.trace, bestRank, Some(bestPeer)) == AdoptBest(W(), old(env.trace), pinned, 0, rank, peer)
    {
      var better := 0;
      while better < rank
        invariant better <= rank
        invariant AdoptBest(W(), old(env.trace), pinned, 0, rank, peer)
                  == AdoptBest(W(), env.trace, pinned, better, rank, peer)
      {
        var connected := env.IsConnected(pinned[better].peerId);
        if connected {
          return better, pinned[better].peerId;
        }
        better := better + 1;
      }
      return rank, peer;
    }

    /** One resolve-and-try pass over the pinned ranks. */
    method TryPinned(server: Server, pinned: seq<DestinationPeerEntry>) returns (tried: Ranked)
      requires pinned == server.Pinned()
      modifies env`trace
      ensures tried == PinnedPass(W(), old(env.trace), server)
      ensures env.trace == tried.trace
    {
      var routes := ResolveRoutes(PinnedIdSeq(pinned));
      env.Record(Emitting(PinnedPeerStatuses(server.port, Statuses(pinned, routes))));
      ghost var start := env.trace;
      var rank := 0;
      while rank < |pinned|
        invariant 0 <= rank <= |pinned|
        invariant TryRanks(W(), start, pinned, routes, 0) == TryRanks(W(), env.trace, pinned, routes, rank)
      {
        var candidate := CandidateRoutes(pinned[rank], routes);
        if candidate != {} {
          var peer := DialAll(candidate);
          if peer.Some? {
            return Ranked(env.trace, rank, peer);
          }
        }
        rank := rank + 1;
      }
      tried := Ranked(env.trace, rank, None);
    }

    method ConnectByPins(server: Server, pinned: seq<DestinationPeerEntry>)
      returns (result: Result<ConnectedDestination, ConnectError>)
      requires pinned == server.Pinned()
      modifies env`trace, sticky
      ensures Outcome(sticky.pools, env.trace, result)
              == ConnectPinned(W(), old(sticky.pools), old(env.trace), server, 0)
    {
      var pass := 0;
      while pass < MAX_PINNED_PASSES
        invariant pass <= MAX_PINNED_PASSES
        invariant sticky.pools == old(sticky.pools)
        invariant ConnectPinned(W(), old(sticky.pools), old(env.trace), server, 0)
                  == ConnectPinned(W(), sticky.pools, env.trace, server, pass)
      {
        var tried := TryPinned(server, pinned);
        if tried.peer.Some? {
          var rank, peer := AdoptBestPinnedRank(pinned, tried.rank, tried.peer.value);
          return Ok(ConnectedDestination(peer, Pinned(rank)));
        }
        if server.fallbackToDiscovery {
          result := ConnectByDiscovery(server, None);
          return;
        }
        env.Record(Sleeping(SECOND));
        pass := pass + 1;
      }
      env.Record(Emitting(ErrorShown));
      result := Err(PinnedExhausted(server.port, |pinned|));
    }

    method ConnectTo(server: Server, avoid: Option<PeerId>) returns (result: Result<ConnectedDestination, ConnectError>)
      modifies env`trace, sticky
      ensures Outcome(sticky.pools, env.trace, result) == Connect(W(), old(sticky.pools), old(env.trace), server, avoid)
    {
      var pinned := server.Pinned();
      if pinned == [] {
        result := ConnectByDiscovery(server, avoid);
      } else {
        result := ConnectByPins(server, pinned);
      }
    }
  }
}

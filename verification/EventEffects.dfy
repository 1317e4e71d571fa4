/** The exact effect of a direct connection, and of an unusable peer. */
module EventEffects {
  import opened Wrappers
  import opened Selection
  import opened Sequences
  import opened Sticky
  import opened Config
  import opened Environments
  import opened ConnectPools
  import opened ConnectSummaries
  import opened DiscoverySpec
  import opened Moves
  import opened PoolInvariants
  import opened Histories

  // ---------- rotation off a relay ----------

  /** The port's history once it has been rotated onto `peer`, shown as a reused exit. */
  function Rotated(h: History, peer: PeerId): History {
    h.(shown := Some(Some(peer)), source := Some(StickyReuse), shows := h.shows + 1, dark := false)
  }

  /** Adopting a peer as a reused exit, seen from each port. */
  lemma AdoptShows(a: Actor, mine: Server, peer: PeerId, server: Server)
    requires Distinct(a.store) && (mine.port == server.port ==> mine == server)
    ensures var b := Adopt(a, mine, peer, StickyReuse);
            && Distinct(b.store) && b.destinations.Keys == a.destinations.Keys && b.direct == a.direct
            && var pool, h := PoolOf(a.store, server), HistoryOf(a.trace, server.port);
            if mine == server then
              && (server.port in b.destinations ==> b.destinations[server.port] == Some(peer))
              && PoolOf(b.store, server) == MoveToFront(pool, peer, server.maxTotal)
              && HistoryOf(b.trace, server.port) == Rotated(h, peer)
            else
              && (server.port in b.destinations ==> b.destinations[server.port] == a.destinations[server.port])
              && PoolOf(b.store, server) == pool
              && HistoryOf(b.trace, server.port) == h
  {
    var fp := mine.Fingerprint();
    RememberView(a.store, mine.port, fp, peer, mine.maxTotal);
    hide HistoryOf, Snapshot, Promote;
    var b := a.(store := Remember(a.store, mine.port, fp, peer, mine.maxTotal));
    PointHistory(b, mine.port, Some(peer), Some(StickyReuse), server.port);
    ShownPoolHistory(PointTo(b, mine.port, Some(peer), Some(StickyReuse)), mine, server.port);
  }

  lemma RereadPool(s: Store, mine: Server, server: Server)
    requires Distinct(s) && (mine.port == server.port ==> mine == server)
    ensures var s' := Invalidate(s, mine.port, mine.Fingerprint());
            Distinct(s') && PoolOf(s', server) == PoolOf(s, server)
  {
    InvalidateView(s, mine.port, mine.Fingerprint());
  }

  lemma RotatePortEffect(g: Setting, a: Actor, candidate: PeerId, port: Port, server: Server)
    requires WellSet(g) && Distinct(a.store) && server in g.servers && server.port in a.destinations
    ensures var b := RotatePort(g, a, candidate, port);
            && Distinct(b.store) && b.destinations.Keys == a.destinations.Keys && b.direct == a.direct
            && var pool, h := PoolOf(a.store, server), HistoryOf(a.trace, server.port);
            if port == server.port && candidate in pool then
              && b.destinations[server.port] == Some(candidate)
              && PoolOf(b.store, server) == MoveToFront(pool, candidate, server.maxTotal)
              && HistoryOf(b.trace, server.port) == Rotated(h, candidate)
            else
              && b.destinations[server.port] == a.destinations[server.port]
              && PoolOf(b.store, server) == pool
              && HistoryOf(b.trace, server.port) == h
  {
    var found := FindServer(g.servers, port);
    if found.Some? {
      var fp := found.value.Fingerprint();
      var b := a.(store := Invalidate(a.store, port, fp));
      assert port == server.port <==> found.value == server;
      hide HistoryOf, Adopt, PoolIds, MoveToFront, Invalidate, WellSet, Distinct;
      RereadPool(a.store, found.value, server);
      AdoptShows(b, found.value, candidate, server);
    }
  }

  lemma {:induction false} RotatePortsEffect(g: Setting, a: Actor, candidate: PeerId, ports: seq<Port>, server: Server)
    requires WellSet(g) && Distinct(a.store) && server in g.servers && server.port in a.destinations
             && NoDuplicates(ports)
    ensures var b := RotatePorts(g, a, candidate, ports);
            && b.direct == a.direct && b.destinations.Keys == a.destinations.Keys && Distinct(b.store)
            && var pool, h := PoolOf(a.store, server), HistoryOf(a.trace, server.port);
            if server.port in ports && candidate in pool then
              && b.destinations[server.port] == Some(candidate)
              && PoolOf(b.store, server) == MoveToFront(pool, candidate, server.maxTotal)
              && HistoryOf(b.trace, server.port) == Rotated(h, candidate)
            else
              && b.destinations[server.port] == a.destinations[server.port]
              && PoolOf(b.store, server) == pool
              && HistoryOf(b.trace, server.port) == h
    decreases |ports|
  {
    hide RotatePort, HistoryOf, PoolOf, MoveToFront;
    if ports != [] {
      assert ports == [ports[0]] + ports[1..];
      RotatePortEffect(g, a, candidate, ports[0], server);
      RotatePortsEffect(g, RotatePort(g, a, candidate, ports[0]), candidate, ports[1..], server);
      assert ports[0] !in ports[1..];
    }
  }

  /** After a direct connection of `peer`, exactly the exits that were neither `peer` nor
      directly connected, on ports whose valid pool holds `peer`, have become `peer`. There it
      is the front of the pool and is shown as reused; elsewhere pool and history stay. */
  lemma DirectConnectEffect(g: Setting, a: Actor, peer: PeerId, address: Multiaddr, server: Server)
    requires Sound(g) && WellSet(g) && HandlesMatch(g, a) && Distinct(a.store) && server in g.servers
    ensures var b := Handle(g, a, PeerConnected(peer, address, false));
            && b.direct == a.direct + {peer}
            && server.port in a.destinations && server.port in b.destinations
            && var was := a.destinations[server.port];
            && b.destinations[server.port]
               == (if was.Some? && was.value != peer && was.value !in a.direct && peer in PoolOf(a.store, server)
                 then Some(peer) else was)
            && (peer in PoolOf(a.store, server) ==>
              b.destinations[server.port].None? || b.destinations[server.port].value in b.direct)
            && var pool, h := PoolOf(a.store, server), HistoryOf(a.trace, server.port);
            if b.destinations[server.port] == was then
              PoolOf(b.store, server) == pool && HistoryOf(b.trace, server.port) == h
            else
              && PoolOf(b.store, server) == MoveToFront(pool, peer, server.maxTotal)
              && HistoryOf(b.trace, server.port) == Rotated(h, peer)
  {
    hide HistoryOf, MoveToFront, RotatePorts;
    var b := a.(direct := a.direct + {peer}, store := Note(a.store, peer, address));
    NoteView(a.store, peer, address);
    var ports := g.net.iterate(b.trace, RelayStuck(b, peer));
    assert Lists(ports, RelayStuck(b, peer));
    assert server.port in a.destinations;
    RotatePortsEffect(g, b, peer, ports, server);
  }

  // ---------- an unusable peer ----------

  lemma SelectNotReused(g: Setting, a: Actor, server: Server, peer: PeerId)
    requires Honest(g.net) && Distinct(a.store) && server.Valid() && peer !in PoolOf(a.store, server)
    ensures var b := Select(g, a, server, None).actor;
            var h := HistoryOf(b.trace, server.port);
            h.shown == Some(Some(peer)) ==> h.source != Some(StickyReuse)
  {
    SelectHistory(g, a, server, None, server.port);
    ConnectSummary(g.W(), a.store, a.trace + [Selecting(server.port)], server, None);
  }

  lemma OtherPortUntouched(g: Setting, a: Actor, port: Port, avoid: Option<PeerId>, server: Server)
    requires Honest(g.net) && WellSet(g) && Distinct(a.store) && port != server.port
    ensures var b := DiscoverPort(g, a, port, avoid).actor;
            && Distinct(b.store) && PoolOf(b.store, server) == PoolOf(a.store, server)
            && HistoryOf(b.trace, server.port) == HistoryOf(a.trace, server.port)
  {
    hide Select, PoolOf, HistoryOf;
    var found := FindServer(g.servers, port);
    if found.Some? {
      var b := a.(pending := a.pending - {port});
      SelectHistory(g, b, found.value, avoid, server.port);
      SelectEffect(g, b, found.value, avoid);
      OtherPool(a.store, Select(g, b, found.value, avoid).actor.store, port, server);
    }
  }

  lemma {:induction false} OtherPortsUntouched(g: Setting, a: Actor, ports: seq<Port>, server: Server)
    requires Honest(g.net) && WellSet(g) && Distinct(a.store) && server.port !in ports
    ensures HistoryOf(DiscoverPorts(g, a, ports).trace, server.port) == HistoryOf(a.trace, server.port)
    decreases |ports|
  {
    if ports != [] {
      OtherPortUntouched(g, a, ports[0], None, server);
      OtherPortsUntouched(g, DiscoverPort(g, a, ports[0], None).actor, ports[1..], server);
    }
  }

  lemma {:induction false} DiscoverPortsNotReused(g: Setting, a: Actor, ports: seq<Port>, server: Server, peer: PeerId)
    requires Honest(g.net) && WellSet(g) && Distinct(a.store) && NoDuplicates(ports)
    requires server in g.servers && server.port in ports && peer !in PoolOf(a.store, server)
    ensures var h := HistoryOf(DiscoverPorts(g, a, ports).trace, server.port);
            h.shown == Some(Some(peer)) ==> h.source != Some(StickyReuse)
    decreases |ports|
  {
    var b := DiscoverPort(g, a, ports[0], None).actor;
    assert ports == [ports[0]] + ports[1..];
    if ports[0] == server.port {
      var c := a.(pending := a.pending - {ports[0]});
      assert FindServer(g.servers, ports[0]) == Some(server);
      SelectNotReused(g, c, server, peer);
      SelectEffect(g, c, server, None);
      assert server.port !in ports[1..];
      OtherPortsUntouched(g, b, ports[1..], server);
    } else {
      OtherPortUntouched(g, a, ports[0], None, server);
      DiscoverPortsNotReused(g, b, ports[1..], server, peer);
    }
  }

  lemma {:induction false} ShowPoolsHistory(a: Actor, servers: seq<Server>, port: Port)
    ensures HistoryOf(ShowPools(a, servers).trace, port) == HistoryOf(a.trace, port)
    ensures ShowPools(a, servers).destinations == a.destinations
    decreases |servers|
  {
    if servers != [] {
      var b := ShowPool(a, servers[0]);
      Snoc(a.trace, b.trace[|a.trace|], port);
      ShowPoolsHistory(b, servers[1..], port);
    }
  }

  lemma UnusableHistory(g: Setting, a: Actor, peer: PeerId, server: Server)
    requires Sound(g) && WellSet(g) && Distinct(a.store)
    requires server in g.servers && server.port in a.destinations && a.destinations[server.port] == Some(peer)
    ensures var h := HistoryOf(Unusable(g, a, peer).trace, server.port);
            h.shown == Some(Some(peer)) ==> h.source != Some(StickyReuse)
  {
    var b := a.(store := ForgetEverywhere(a.store, g.servers, peer));
    var stale := ServedBy(b.destinations, peer);
    var ports := g.net.iterate(b.trace, stale);
    assert Lists(ports, stale);
    ForgetEverywhereEffect(a.store, g.servers, peer, server);
    WithoutMembers(PoolOf(a.store, server), peer);
    DiscoverPortsNotReused(g, b, ports, server, peer);
    ShowPoolsHistory(DiscoverPorts(g, b, ports), g.servers, server.port);
  }

  /** After `PeerUnusable(peer)`, a port that `peer` was serving may get it back from a
      pinned rank or from the hub, but never from its sticky pool. */
  lemma UnusableNeverReused(g: Setting, a: Actor, peer: PeerId, server: Server)
    requires Sound(g) && WellSet(g) && HandlesMatch(g, a) && Distinct(a.store) && PortInv(g, a, server.port)
    requires server in g.servers && server.port in a.destinations && a.destinations[server.port] == Some(peer)
    ensures var b := Handle(g, a, PeerUnusable(peer));
            server.port in b.destinations && (b.destinations[server.port] == Some(peer) ==>
              HistoryOf(b.trace, server.port).source != Some(StickyReuse))
  {
    UnusableHistory(g, a, peer, server);
    HandleKeepsPort(g, a, PeerUnusable(peer), server.port);
  }
}

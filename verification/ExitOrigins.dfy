/** Where an exit comes from: a pin, the pool, or an offer the hub made in that very
    connect. */
module ExitOrigins {
  import opened Wrappers
  import opened Selection
  import opened Sequences
  import opened Sticky
  import opened Config
  import opened Environments
  import opened ConnectSpec
  import opened ConnectPools
  import opened ConnectPins
  import opened ConnectSummaries
  import opened DiscoverySpec
  import opened Moves
  import opened PoolInvariants
  import opened Histories
  import opened EventEffects
  import opened CloseEffects
  import opened Runs
  import Backoffs

  /** The peers that a race over these candidates can reach. */
  function Targets(relay: Multiaddr, candidates: seq<PoolPeer>): set<PeerId> {
    DestinationPeerIds(CandidateAddresses(relay, candidates))
  }

  /** They are the candidates that list no address, reached by circuit, and whoever the
      listed addresses lead to. */
  lemma TargetsExactly(relay: Multiaddr, candidates: seq<PoolPeer>, peer: PeerId)
    ensures peer in Targets(relay, candidates) <==>
              exists c :: c in candidates
                && if c.addresses == [] then c.peerId == peer
                   else exists a :: a in c.addresses && LastP2p(a) == Some(peer)
  {
    forall c | c in candidates
      ensures (if c.addresses == [] then c.peerId == peer
               else exists a :: a in c.addresses && LastP2p(a) == Some(peer))
              <==> exists a :: a in AddressesOf(relay, c) && LastP2p(a) == Some(peer)
    {
      CircuitLeadsThere(relay, c.peerId);
    }
    if a :| a in CandidateAddresses(relay, candidates) && LastP2p(a) == Some(peer) {
      var c :| c in candidates && a in AddressesOf(relay, c);
      assert LastP2p(a) == Some(peer);
    }
  }

  lemma CircuitLeadsThere(relay: Multiaddr, peer: PeerId)
    ensures var circuit := SynthesizeCircuit(relay, peer);
            circuit.Some? && LastP2p(circuit.value) == Some(peer)
  {
    SynthesizedCircuitTargetsPeer(relay, peer);
    WithP2pLeadsToPeer(relay + [P2pCircuit], peer);
  }

  /** Act i is a query for this server, answered by the hub with candidates that lead to
      the peer. */
  predicate OffersAt(w: World, server: Server, t: Trace, i: nat, peer: PeerId) {
    && i < |t| && t[i].FindingNodes? && t[i].port == server.port
    && t[i].found == w.net.findNodes(t[..i], server, t[i].limit)
    && t[i].found.Ok? && peer in Targets(w.relay, t[i].found.value)
  }

  ghost predicate Offered(w: World, server: Server, t: Trace, from: nat, peer: PeerId) {
    exists i: nat :: from <= i && OffersAt(w, server, t, i, peer)
  }

  lemma OfferStays(w: World, server: Server, t: Trace, u: Trace, from: nat, since: nat, peer: PeerId)
    requires Offered(w, server, t, from, peer) && t <= u && since <= from
    ensures Offered(w, server, u, since, peer)
  {
    var i: nat :| from <= i && OffersAt(w, server, t, i, peer);
    assert u[..i] == t[..i];
    assert OffersAt(w, server, u, i, peer);
  }

  lemma AttemptOffers(w: World, t: Trace, server: Server)
    requires HonestDialer(w.net)
    ensures var r := DiscoverOnce(w, t, server); r.peer.Some? ==> Offered(w, server, r.trace, |t|, r.peer.value)
  {
    var r := DiscoverOnce(w, t, server);
    if r.peer.Some? {
      var found := w.net.findNodes(t, server, FINDNODES_DISCOVERY_LIMIT);
      var t1 := t + [FindingNodes(server.port, FINDNODES_DISCOVERY_LIMIT, found)];
      RaceReachesTarget(w, t1 + [Emitting(ServerPool(server.port, found.value))],
        CandidateAddresses(w.relay, found.value));
      assert r.trace[..|t|] == t && r.trace[|t|] == t1[|t|];
      assert OffersAt(w, server, r.trace, |t|, r.peer.value);
    }
  }

  lemma {:induction false} DiscoverOffers(w: World, s: Store, t: Trace, server: Server, attempt: nat)
    requires HonestDialer(w.net)
    ensures var r := Discover(w, s, t, server, attempt);
            r.result.Ok? ==>
              r.result.value.source == Discovered && Offered(w, server, r.trace, |t|, r.result.value.peer)
    decreases MAX_DISCOVERY_ATTEMPTS - attempt
  {
    hide DiscoverOnce, Offered;
    if attempt < MAX_DISCOVERY_ATTEMPTS {
      var once := DiscoverOnce(w, t, server);
      AttemptOffers(w, t, server);
      if once.peer.None? {
        DiscoverOffers(w, s, once.trace, server, attempt + 1);
        var r := Discover(w, s, once.trace, server, attempt + 1);
        if r.result.Ok? { OfferStays(w, server, r.trace, r.trace, |once.trace|, |t|, r.result.value.peer); }
      }
    }
  }

  /** The origin of a connect's exit is what its source says. */
  ghost predicate Accounted(w: World, s: Store, from: nat, server: Server, avoid: Option<PeerId>, r: Outcome) {
    r.result.Ok? ==>
      var peer := r.result.value.peer;
      match r.result.value.source
      case Pinned(rank) => rank < |server.Pinned()| && server.Pinned()[rank].peerId == peer
      case StickyReuse => peer in PoolOf(s, server) || Some(peer) == avoid
      case Discovered => Discovers(server) && Offered(w, server, r.trace, from, peer)
      case Manual => false
  }

  /** A connect for this server may ask the hub for strangers. */
  predicate Discovers(server: Server) {
    server.Pinned() == [] || server.fallbackToDiscovery
  }

  lemma FreshOrigin(w: World, s: Store, t: Trace, server: Server, skip: Option<PeerId>)
    requires Honest(w.net)
    ensures var r := ConnectFresh(w, s, t, server, skip);
            r.result.Ok? ==> r.result.value.source == StickyReuse
                             || (r.result.value.source == Discovered
                               && Offered(w, server, r.trace, |t|, r.result.value.peer))
  {
    hide Discover, ConnectPool, Offered;
    var pass := ConnectPool(w, s, t, server, skip);
    if pass.peer.None? {
      DiscoverOffers(w, pass.store, pass.trace, server, 0);
      var r := Discover(w, pass.store, pass.trace, server, 0);
      if r.result.Ok? { OfferStays(w, server, r.trace, r.trace, |pass.trace|, |t|, r.result.value.peer); }
    }
  }

  lemma DiscoveredOrigin(w: World, s: Store, t: Trace, server: Server, avoid: Option<PeerId>)
    requires Honest(w.net) && Distinct(s) && Discovers(server)
    ensures Accounted(w, s, |t|, server, avoid, ConnectDiscovered(w, s, t, server, avoid))
  {
    hide ConnectFresh, Reconnect, PoolOf, Offered, Honest, PoolKept;
    DiscoveredSummary(w, s, t, server, avoid);
    var s1, t1 := s, t;
    if Fights(server, avoid) {
      s1, t1 := Forget(s, server.port, avoid.value), Reconnect(w, s, t, server.port, avoid.value, 0).trace;
    }
    FreshOrigin(w, s1, t1, server, avoid);
    var r := ConnectFresh(w, s1, t1, server, avoid);
    if r.result.Ok? && r.result.value.source == Discovered {
      OfferStays(w, server, r.trace, r.trace, |t1|, |t|, r.result.value.peer);
    }
  }

  lemma {:induction false} PinnedOrigin(w: World, s: Store, t: Trace, server: Server, pass: nat)
    requires Honest(w.net) && Distinct(s) && server.Valid()
    ensures Accounted(w, s, |t|, server, None, ConnectPinned(w, s, t, server, pass))
    decreases MAX_PINNED_PASSES - pass
  {
    hide PinnedPass, ConnectDiscovered, Accounted;
    var tried := PinnedPass(w, t, server);
    var r := ConnectPinned(w, s, t, server, pass);
    if pass >= MAX_PINNED_PASSES {
      NothingToAccount(w, s, |t|, server, r);
    } else if tried.peer.Some? {
      PassWins(w, s, t, server, pass);
      RankAccounts(w, s, |t|, server, r);
    } else if server.fallbackToDiscovery {
      DiscoveredOrigin(w, s, tried.trace, server, None);
      AccountedSince(w, s, |tried.trace|, |t|, server, r);
    } else {
      PinnedOrigin(w, s, tried.trace + [Sleeping(Backoffs.SECOND)], server, pass + 1);
      AccountedSince(w, s, |tried.trace| + 1, |t|, server, r);
    }
  }

  lemma NothingToAccount(w: World, s: Store, from: nat, server: Server, r: Outcome)
    requires r.result.Err?
    ensures Accounted(w, s, from, server, None, r)
  {
  }

  lemma RankAccounts(w: World, s: Store, from: nat, server: Server, r: Outcome)
    requires r.result.Ok? && r.result.value.source.Pinned?
    requires var rank := r.result.value.source.rank;
             rank < |server.Pinned()| && server.Pinned()[rank].peerId == r.result.value.peer
    ensures Accounted(w, s, from, server, None, r)
  {
  }

  lemma AccountedSince(w: World, s: Store, from: nat, since: nat, server: Server, r: Outcome)
    requires Accounted(w, s, from, server, None, r) && since <= from
    ensures Accounted(w, s, since, server, None, r)
  {
    if r.result.Ok? && r.result.value.source == Discovered {
      OfferStays(w, server, r.trace, r.trace, from, since, r.result.value.peer);
    }
  }

  /** Of any connect: a ranked exit is the peer of that rank, a reused one was in the
      pool or is the dropped peer won back, and a discovered one, which a hard pin never
      has, leads from an offer the hub made for this server in this very connect. There
      is no fourth origin. */
  lemma ConnectOrigin(w: World, s: Store, t: Trace, server: Server, avoid: Option<PeerId>)
    requires Honest(w.net) && Distinct(s) && server.Valid()
    ensures Accounted(w, s, |t|, server, avoid, Connect(w, s, t, server, avoid))
  {
    if server.Pinned() == [] {
      DiscoveredOrigin(w, s, t, server, avoid);
    } else {
      PinnedOrigin(w, s, t, server, 0);
    }
  }

  // ---------- an unusable peer ----------

  /** A pin of the server, or, unless that is a hard pin, offered by the hub since. */
  ghost predicate Justified(g: Setting, server: Server, t: Trace, from: nat, peer: PeerId) {
    peer in server.PinnedIds() || (Discovers(server) && Offered(g.W(), server, t, from, peer))
  }

  lemma JustifiedStays(g: Setting, server: Server, t: Trace, u: Trace, from: nat, since: nat, peer: PeerId)
    requires Justified(g, server, t, from, peer) && t <= u && since <= from
    ensures Justified(g, server, u, since, peer)
  {
    if peer !in server.PinnedIds() { OfferStays(g.W(), server, t, u, from, since, peer); }
  }

  lemma SelectJustified(g: Setting, a: Actor, server: Server, peer: PeerId)
    requires Honest(g.net) && Distinct(a.store) && server.Valid() && peer !in PoolOf(a.store, server)
    ensures var r := Select(g, a, server, None);
            r.peer == Some(peer) ==> Justified(g, server, r.actor.trace, |a.trace|, peer)
  {
    hide Connect, PoolOf, Offered, Honest;
    var t := a.trace + [Selecting(server.port)];
    var o := ConnectFor(g, a, server, None);
    ConnectOrigin(g.W(), a.store, t, server, None);
    if o.result.Ok? && o.result.value.peer == peer {
      if o.result.value.source.Pinned? {
        assert server.Pinned()[o.result.value.source.rank] in server.Pinned();
      } else {
        OfferStays(g.W(), server, o.trace, Select(g, a, server, None).actor.trace, |t|, |a.trace|, peer);
      }
    }
  }

  lemma {:induction false} DiscoverElsewhere(g: Setting, a: Actor, ports: seq<Port>, port: Port)
    requires port !in ports && port in a.destinations
    ensures DiscoverPorts(g, a, ports).destinations.Keys == a.destinations.Keys
    ensures DiscoverPorts(g, a, ports).destinations[port] == a.destinations[port]
    ensures a.trace <= DiscoverPorts(g, a, ports).trace
    decreases |ports|
  {
    hide DiscoverPort;
    if ports != [] {
      DiscoverFrame(g, a, ports[0], None);
      DiscoverElsewhere(g, DiscoverPort(g, a, ports[0], None).actor, ports[1..], port);
    }
  }

  lemma {:induction false} DiscoverPortsJustified(g: Setting, a: Actor, ports: seq<Port>, server: Server, peer: PeerId)
    requires Honest(g.net) && WellSet(g) && Distinct(a.store) && NoDuplicates(ports)
    requires server in g.servers && server.port in ports && server.port in a.destinations
             && peer !in PoolOf(a.store, server)
    ensures var b := DiscoverPorts(g, a, ports);
            && a.trace <= b.trace && server.port in b.destinations
            && (b.destinations[server.port] == Some(peer) ==> Justified(g, server, b.trace, |a.trace|, peer))
    decreases |ports|
  {
    hide Select, PoolOf, Justified, Honest;
    var b := DiscoverPort(g, a, ports[0], None).actor;
    var end := DiscoverPorts(g, a, ports);
    assert ports == [ports[0]] + ports[1..];
    DiscoverFrame(g, a, ports[0], None);
    if ports[0] == server.port {
      var c := a.(pending := a.pending - {ports[0]});
      assert FindServer(g.servers, ports[0]) == Some(server);
      SelectJustified(g, c, server, peer);
      SelectFrame(g, c, server, None);
      assert server.port !in ports[1..];
      DiscoverElsewhere(g, b, ports[1..], server.port);
      if end.destinations[server.port] == Some(peer) {
        JustifiedStays(g, server, b.trace, end.trace, |a.trace|, |a.trace|, peer);
      }
    } else {
      OtherPortUntouched(g, a, ports[0], None, server);
      DiscoverPortsJustified(g, b, ports[1..], server, peer);
      if end.destinations[server.port] == Some(peer) {
        JustifiedStays(g, server, end.trace, end.trace, |b.trace|, |a.trace|, peer);
      }
    }
  }

  lemma {:induction false} ShowPoolsExtend(a: Actor, servers: seq<Server>)
    ensures var b := ShowPools(a, servers);
            a.trace <= b.trace && b.destinations == a.destinations && b.store == a.store
    decreases |servers|
  {
    if servers != [] { ShowPoolsExtend(ShowPool(a, servers[0]), servers[1..]); }
  }

  /** After `PeerUnusable(peer)` a port is served by that peer only if it is one of the
      port's pins, or the port is not hard-pinned and the hub offered the peer for it
      while the event was handled. */
  lemma UnusableJustified(g: Setting, a: Actor, peer: PeerId, server: Server)
    requires Sound(g) && WellSet(g) && HandlesMatch(g, a) && Distinct(a.store) && server in g.servers
    ensures var b := Handle(g, a, PeerUnusable(peer));
            server.port in b.destinations && (b.destinations[server.port] == Some(peer) ==>
              Justified(g, server, b.trace, |a.trace|, peer))
  {
    var port := server.port;
    var b := a.(store := ForgetEverywhere(a.store, g.servers, peer));
    var stale := ServedBy(b.destinations, peer);
    var ports := g.net.iterate(b.trace, stale);
    assert Lists(ports, stale);
    assert port in a.destinations;
    ForgetEverywhereEffect(a.store, g.servers, peer, server);
    WithoutMembers(PoolOf(a.store, server), peer);
    hide PoolOf, Justified, DiscoverPorts, ShowPools, ForgetEverywhere;
    var c := DiscoverPorts(g, b, ports);
    ShowPoolsExtend(c, g.servers);
    if port in ports {
      DiscoverPortsJustified(g, b, ports, server, peer);
      if c.destinations[port] == Some(peer) {
        JustifiedStays(g, server, c.trace, ShowPools(c, g.servers).trace, |a.trace|, |a.trace|, peer);
      }
    } else {
      DiscoverElsewhere(g, b, ports, port);
    }
  }

  lemma {:induction false} DiscoverPortsOnce(g: Setting, a: Actor, ports: seq<Port>, server: Server)
    requires Honest(g.net) && WellSet(g) && Distinct(a.store) && NoDuplicates(ports) && server in g.servers
    ensures var b := DiscoverPorts(g, a, ports);
            var h, h' := HistoryOf(a.trace, server.port), HistoryOf(b.trace, server.port);
            && Distinct(b.store)
            && if server.port in ports then h'.selected == h.selected + 1
               else h' == h && PoolOf(b.store, server) == PoolOf(a.store, server)
    decreases |ports|
  {
    hide Select, HistoryOf, PoolOf, Honest;
    if ports != [] {
      assert ports == [ports[0]] + ports[1..];
      assert ports[0] !in ports[1..];
      if ports[0] == server.port {
        var c := a.(pending := a.pending - {ports[0]});
        assert FindServer(g.servers, ports[0]) == Some(server);
        SelectHistory(g, c, server, None, server.port);
        SelectEffect(g, c, server, None);
      } else {
        OtherPortUntouched(g, a, ports[0], None, server);
      }
      DiscoverPortsOnce(g, DiscoverPort(g, a, ports[0], None).actor, ports[1..], server);
    }
  }

  /** After `PeerUnusable(peer)` each port that the peer was serving has had exactly one
      selection; every other port keeps its exit and its history, and its pool is what it
      was without the peer. */
  lemma UnusableEffect(g: Setting, a: Actor, peer: PeerId, server: Server)
    requires Sound(g) && WellSet(g) && HandlesMatch(g, a) && Distinct(a.store) && server in g.servers
    ensures var b := Handle(g, a, PeerUnusable(peer));
            var h, h' := HistoryOf(a.trace, server.port), HistoryOf(b.trace, server.port);
            && server.port in a.destinations && server.port in b.destinations
            && if a.destinations[server.port] == Some(peer) then h'.selected == h.selected + 1
               else
                 && b.destinations[server.port] == a.destinations[server.port] && h' == h
                 && PoolOf(b.store, server) == Without(PoolOf(a.store, server), peer)
  {
    hide PoolOf, HistoryOf, DiscoverPorts, ShowPools, ForgetEverywhere, Without, WellSet;
    var b := a.(store := ForgetEverywhere(a.store, g.servers, peer));
    var ports := g.net.iterate(b.trace, ServedBy(b.destinations, peer));
    StaleListed(g, a, b, peer, server);
    ForgetEverywhereEffect(a.store, g.servers, peer, server);
    DiscoverAndShow(g, b, ports, server);
  }

  lemma StaleListed(g: Setting, a: Actor, b: Actor, peer: PeerId, server: Server)
    requires Sound(g) && HandlesMatch(g, a) && server in g.servers && b.destinations == a.destinations
    ensures var ports := g.net.iterate(b.trace, ServedBy(b.destinations, peer));
            && NoDuplicates(ports) && server.port in a.destinations
            && (server.port in ports <==> a.destinations[server.port] == Some(peer))
  {
    var stale := ServedBy(b.destinations, peer);
    assert Lists(g.net.iterate(b.trace, stale), stale);
  }

  lemma DiscoverAndShow(g: Setting, a: Actor, ports: seq<Port>, server: Server)
    requires Honest(g.net) && WellSet(g) && Distinct(a.store) && NoDuplicates(ports)
    requires server in g.servers && server.port in a.destinations
    ensures var b := ShowPools(DiscoverPorts(g, a, ports), g.servers);
            var h, h' := HistoryOf(a.trace, server.port), HistoryOf(b.trace, server.port);
            && server.port in b.destinations
            && if server.port in ports then h'.selected == h.selected + 1
               else
                 && b.destinations[server.port] == a.destinations[server.port] && h' == h
                 && PoolOf(b.store, server) == PoolOf(a.store, server)
  {
    hide PoolOf, HistoryOf, DiscoverPorts, ShowPools, WellSet, Honest;
    var c := DiscoverPorts(g, a, ports);
    DiscoverPortsOnce(g, a, ports, server);
    DiscoverKeys(g, a, ports);
    ShowPoolsExtend(c, g.servers);
    ShowPoolsHistory(c, g.servers, server.port);
    if server.port !in ports { DiscoverElsewhere(g, a, ports, server.port); }
  }

  lemma {:induction false} DiscoverKeys(g: Setting, a: Actor, ports: seq<Port>)
    ensures DiscoverPorts(g, a, ports).destinations.Keys == a.destinations.Keys
    decreases |ports|
  {
    hide DiscoverPort;
    if ports != [] {
      DiscoverFrame(g, a, ports[0], None);
      DiscoverKeys(g, DiscoverPort(g, a, ports[0], None).actor, ports[1..]);
    }
  }

  /** The same in every reachable state. */
  lemma UnusableComesBackByOffer(g: Setting, start: System, run: seq<Step>, peer: PeerId, server: Server)
    requires Scenario(g, start, run) && server in g.servers
    ensures var before := Execute(g, start, run).actor;
            var after := Handle(g, before, PeerUnusable(peer));
            server.port in after.destinations && (after.destinations[server.port] == Some(peer) ==>
              Justified(g, server, after.trace, |before.trace|, peer))
  {
    hide Handle, Justified;
    RunKeepsPools(g, start, run);
    RunKeepsPorts(g, start, run, server.port);
    UnusableJustified(g, Execute(g, start, run).actor, peer, server);
  }
}

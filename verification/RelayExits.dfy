/** A relayed exit is meant never to be the steady state. What does hold between direct
    connections, and a run in which it stays although a direct peer is in the pool. */
module RelayExits {
  import opened Wrappers
  import opened Selection
  import opened Sequences
  import opened Sticky
  import opened Config
  import opened Environments
  import opened ConnectSpec
  import opened ConnectPools
  import opened ConnectSummaries
  import opened DiscoverySpec
  import opened Moves
  import opened PoolInvariants
  import opened Histories
  import opened EventEffects
  import opened CloseEffects
  import opened ExitOrigins
  import opened DirectLinks
  import opened Runs
  import opened HardPinExact
  import opened UnusablePeers

  /** The port serves nobody or a direct peer, or it has no direct peer to turn to. */
  ghost predicate Settled(a: Actor, server: Server) {
    server.port in a.destinations && a.destinations[server.port].Some?
      && a.destinations[server.port].value !in a.direct ==>
      forall x :: x in PoolOf(a.store, server) ==> x !in a.direct
  }

  /** An operator's pick for the port, or the news that its own exit is now relayed. */
  predicate Unsettles(a: Actor, e: DiscoveryEvent, port: Port) {
    || (e.SelectPeer? && e.port == port)
    || (e.PeerConnected? && e.relayed && port in a.destinations && a.destinations[port] == Some(e.peer))
  }

  lemma SameSettled(a: Actor, b: Actor, server: Server)
    requires Settled(a, server) && b.direct <= a.direct
    requires server.port in b.destinations ==>
               server.port in a.destinations && b.destinations[server.port] == a.destinations[server.port]
    requires server.port in a.destinations && a.destinations[server.port].Some?
             && a.destinations[server.port].value in a.direct ==>
               a.destinations[server.port].value in b.direct
    requires forall x :: x in PoolOf(b.store, server) ==> x in PoolOf(a.store, server)
    ensures Settled(b, server)
  {
    hide PoolOf;
  }

  lemma DiscoverSettles(g: Setting, a: Actor, port: Port, server: Server)
    requires Honest(g.net) && WellSet(g) && Distinct(a.store) && server in g.servers && Settled(a, server)
    requires var b := DiscoverPort(g, a, port, None).actor;
             HistoryOf(b.trace, server.port).selected == HistoryOf(a.trace, server.port).selected
    ensures Settled(DiscoverPort(g, a, port, None).actor, server)
  {
    hide PoolOf, HistoryOf, Settled, Select;
    DiscoverFrame(g, a, port, None);
    if port == server.port {
      assert FindServer(g.servers, port) == Some(server);
      SelectHistory(g, a.(pending := a.pending - {port}), server, None, port);
    } else {
      OtherPortUntouched(g, a, port, None, server);
      SameSettled(a, DiscoverPort(g, a, port, None).actor, server);
    }
  }

  lemma {:induction false} DiscoverOthers(g: Setting, a: Actor, ports: seq<Port>, server: Server)
    requires Honest(g.net) && WellSet(g) && Distinct(a.store) && server.port !in ports
    ensures var b := DiscoverPorts(g, a, ports);
            && Distinct(b.store) && PoolOf(b.store, server) == PoolOf(a.store, server)
            && HistoryOf(b.trace, server.port) == HistoryOf(a.trace, server.port)
    decreases |ports|
  {
    hide PoolOf, HistoryOf, DiscoverPort;
    if ports != [] {
      OtherPortUntouched(g, a, ports[0], None, server);
      DiscoverOthers(g, DiscoverPort(g, a, ports[0], None).actor, ports[1..], server);
    }
  }

  lemma {:induction false} DiscoverPortsSelect(g: Setting, a: Actor, ports: seq<Port>, server: Server)
    requires Honest(g.net) && WellSet(g) && Distinct(a.store) && NoDuplicates(ports)
    requires server in g.servers && server.port in ports
    ensures HistoryOf(DiscoverPorts(g, a, ports).trace, server.port).selected
            == HistoryOf(a.trace, server.port).selected + 1
    decreases |ports|
  {
    hide PoolOf, HistoryOf, Select;
    var b := DiscoverPort(g, a, ports[0], None).actor;
    assert ports == [ports[0]] + ports[1..];
    if ports[0] == server.port {
      assert FindServer(g.servers, ports[0]) == Some(server);
      var c := a.(pending := a.pending - {ports[0]});
      SelectHistory(g, c, server, None, server.port);
      SelectEffect(g, c, server, None);
      assert server.port !in ports[1..];
      DiscoverOthers(g, b, ports[1..], server);
    } else {
      OtherPortUntouched(g, a, ports[0], None, server);
      DiscoverPortsSelect(g, b, ports[1..], server);
    }
  }

  lemma {:induction false} ShowPoolsKeep(a: Actor, servers: seq<Server>)
    ensures var b := ShowPools(a, servers); b == a.(trace := b.trace)
    decreases |servers|
  {
    if servers != [] { ShowPoolsKeep(ShowPool(a, servers[0]), servers[1..]); }
  }

  lemma UnusableSettles(g: Setting, a: Actor, peer: PeerId, server: Server)
    requires Sound(g) && WellSet(g) && HandlesMatch(g, a) && Distinct(a.store) && server in g.servers
             && Settled(a, server)
    requires var b := Unusable(g, a, peer);
             HistoryOf(b.trace, server.port).selected == HistoryOf(a.trace, server.port).selected
    ensures Settled(Unusable(g, a, peer), server)
  {
    var b := a.(store := ForgetEverywhere(a.store, g.servers, peer));
    var stale := ServedBy(b.destinations, peer);
    var ports := g.net.iterate(b.trace, stale);
    assert Lists(ports, stale) && server.port in a.destinations;
    ForgetEverywhereEffect(a.store, g.servers, peer, server);
    WithoutMembers(PoolOf(a.store, server), peer);
    hide Settled, PoolOf, HistoryOf, ForgetEverywhere, DiscoverPorts, ShowPools;
    var c := DiscoverPorts(g, b, ports);
    ShowPoolsHistory(c, g.servers, server.port);
    ShowPoolsKeep(c, g.servers);
    if server.port in ports {
      DiscoverPortsSelect(g, b, ports, server);
    } else {
      DiscoverOthers(g, b, ports, server);
      DiscoverElsewhere(g, b, ports, server.port);
      DiscoverPortsDirect(g, b, ports);
      SameSettled(a, ShowPools(c, g.servers), server);
    }
  }

  lemma ClosedSettles(g: Setting, a: Actor, peer: PeerId, server: Server)
    requires Sound(g) && WellSet(g) && HandlesMatch(g, a) && Distinct(a.store) && server in g.servers
             && Settled(a, server)
    requires var b := Handle(g, a, PeerClosed(peer));
             HistoryOf(b.trace, server.port).selected == HistoryOf(a.trace, server.port).selected
    ensures Settled(Handle(g, a, PeerClosed(peer)), server)
  {
    hide Handle, PoolOf, HistoryOf;
    ClosedPeerEffect(g, a, peer, server);
    var b := Handle(g, a, PeerClosed(peer));
    if a.destinations[server.port] != Some(peer) { SameSettled(a, b, server); }
  }

  lemma {:induction false} RotateElsewhere(g: Setting, a: Actor, candidate: PeerId, ports: seq<Port>, server: Server)
    requires WellSet(g) && Distinct(a.store) && server in g.servers && server.port in a.destinations
    requires candidate !in PoolOf(a.store, server)
    ensures PoolOf(RotatePorts(g, a, candidate, ports).store, server) == PoolOf(a.store, server)
    decreases |ports|
  {
    hide RotatePort, PoolOf;
    if ports != [] {
      RotatePortEffect(g, a, candidate, ports[0], server);
      if ports[0] == server.port { RotateRefused(g, a, candidate, server); }
      RotateElsewhere(g, RotatePort(g, a, candidate, ports[0]), candidate, ports[1..], server);
    }
  }

  lemma RotateRefused(g: Setting, a: Actor, candidate: PeerId, server: Server)
    requires WellSet(g) && Distinct(a.store) && server in g.servers && candidate !in PoolOf(a.store, server)
    ensures PoolOf(RotatePort(g, a, candidate, server.port).store, server) == PoolOf(a.store, server)
  {
    assert FindServer(g.servers, server.port) == Some(server);
    InvalidateView(a.store, server.port, server.Fingerprint());
  }

  lemma ConnectedSettles(g: Setting, a: Actor, peer: PeerId, address: Multiaddr, server: Server)
    requires Sound(g) && WellSet(g) && HandlesMatch(g, a) && Distinct(a.store) && server in g.servers
             && Settled(a, server)
    ensures Settled(Handle(g, a, PeerConnected(peer, address, false)), server)
  {
    DirectConnectEffect(g, a, peer, address, server);
    if peer !in PoolOf(a.store, server) {
      var b := a.(direct := a.direct + {peer}, store := Note(a.store, peer, address));
      NoteView(a.store, peer, address);
      RotateElsewhere(g, b, peer, g.net.iterate(b.trace, RelayStuck(b, peer)), server);
      hide PoolOf, RotatePorts;
      assert PoolOf(Handle(g, a, PeerConnected(peer, address, false)).store, server) == PoolOf(a.store, server);
    }
  }

  lemma PickSettles(g: Setting, a: Actor, port: Port, peer: PeerId, server: Server)
    requires Sound(g) && WellSet(g) && HandlesMatch(g, a) && Distinct(a.store) && server in g.servers
             && Settled(a, server)
    requires port != server.port
    ensures Settled(Handle(g, a, SelectPeer(port, peer)), server)
  {
    hide TryReach, Adopt;
    var found := FindServer(g.servers, port);
    HandleDirect(g, a, SelectPeer(port, peer));
    if found.Some? {
      assert found.value in g.servers && found.value.port == port;
      ManualPickEffect(g, a, found.value, peer, server);
      hide Handle, PoolOf, HistoryOf, Settled;
      SameSettled(a, Handle(g, a, SelectPeer(port, peer)), server);
    }
  }

  /** A settled port stays settled through every event that neither selects an exit for it
      nor unsettles it: of its own accord, the protocol never falls back on a relay. */
  lemma StaysSettled(g: Setting, a: Actor, e: DiscoveryEvent, server: Server)
    requires Sound(g) && WellSet(g) && HandlesMatch(g, a) && Distinct(a.store) && server in g.servers
             && Settled(a, server)
    requires !Unsettles(a, e, server.port)
    requires HistoryOf(Handle(g, a, e).trace, server.port).selected == HistoryOf(a.trace, server.port).selected
    ensures Settled(Handle(g, a, e), server)
  {
    hide Settled, HistoryOf, DiscoverPort, Unusable, PeerGone, Pick, RotatePorts;
    match e
    case DiscoverFor(port) => DiscoverSettles(g, a, port, server);
    case RequestNewPeer(port) =>
      var r := DiscoverPort(g, a, port, None);
      Snoc(r.actor.trace, Replying(port, r.peer), server.port);
      DiscoverSettles(g, a, port, server);
      SameSettled(r.actor, Handle(g, a, e), server);
    case PeerClosed(peer) => ClosedSettles(g, a, peer, server);
    case PeerUnusable(peer) => UnusableSettles(g, a, peer, server);
    case PeerConnected(peer, address, relayed) =>
      if relayed { SameSettled(a, Handle(g, a, e), server); } else { ConnectedSettles(g, a, peer, address, server); }
    case SelectPeer(port, peer) => PickSettles(g, a, port, peer, server);
  }

  /** The step delivers the direct connection of a member of the port's pool. */
  ghost predicate ConnectsMember(a: Actor, step: Step, server: Server) {
    step.Deliver? && step.event.PeerConnected? && !step.event.relayed && step.event.peer in PoolOf(a.store, server)
  }

  /** Over every run: a direct connection of a pool member settles the port, and one more
      step unsettles a settled port only by selecting an exit for it, by an operator's pick,
      or by the news that its own exit is now relayed. */
  lemma RelayIsNotFallenInto(g: Setting, start: System, run: seq<Step>, step: Step, server: Server)
    requires Scenario(g, start, run + [step]) && server in g.servers
    ensures var before, after := Execute(g, start, run).actor, Execute(g, start, run + [step]).actor;
            var selects := HistoryOf(after.trace, server.port).selected > HistoryOf(before.trace, server.port).selected;
            && (ConnectsMember(before, step, server) ==> Settled(after, server))
            && (Settled(before, server) && !Settled(after, server) ==>
                  step.Deliver? && (selects || Unsettles(before, step.event, server.port)))
  {
    Extend(g, start, run, step);
    RunKeepsPools(g, start, run);
    RunKeepsPorts(g, start, run, server.port);
    var sys := Execute(g, start, run);
    hide Settled, PoolOf, HistoryOf, Handle, Unsettles, Execute, PortInv, Covered;
    if step.Deliver? {
      HandleSettles(g, sys.actor, step, server);
    } else {
      if Settled(sys.actor, server) { SameSettled(sys.actor, Apply(g, sys, step).actor, server); }
    }
  }

  lemma HandleSettles(g: Setting, a: Actor, step: Step, server: Server)
    requires Sound(g) && WellSet(g) && HandlesMatch(g, a) && Distinct(a.store) && server in g.servers && step.Deliver?
    ensures var b := Handle(g, a, step.event);
            var selects := HistoryOf(b.trace, server.port).selected > HistoryOf(a.trace, server.port).selected;
            && (ConnectsMember(a, step, server) ==> Settled(b, server))
            && (Settled(a, server) && !Settled(b, server) ==> selects || Unsettles(a, step.event, server.port))
  {
    var e := step.event;
    if ConnectsMember(a, step, server) {
      DirectConnectEffect(g, a, e.peer, e.address, server);
    }
    SelectionsGrow(g, a, e, server.port);
    hide Handle, Settled, HistoryOf, PoolOf, Unsettles;
    if Settled(a, server) && !Unsettles(a, e, server.port)
       && HistoryOf(Handle(g, a, e).trace, server.port).selected == HistoryOf(a.trace, server.port).selected {
      StaysSettled(g, a, e, server);
    }
  }

  lemma {:induction false} MoreSelections(t: Trace, u: Trace, port: Port)
    requires t <= u
    ensures HistoryOf(t, port).selected <= HistoryOf(u, port).selected
    decreases |u|
  {
    if |t| < |u| {
      MoreSelections(t, u[..|u| - 1], port);
    } else {
      assert t == u;
    }
  }

  lemma SelectionsGrow(g: Setting, a: Actor, e: DiscoveryEvent, port: Port)
    requires Sound(g)
    ensures HistoryOf(a.trace, port).selected <= HistoryOf(Handle(g, a, e).trace, port).selected
  {
    HandleIsMoves(g, a, e);
    var ms :| AllAllowed(g, a, e, ms) && DoAll(g, a, ms) == Handle(g, a, e);
    MoreSelections(a.trace, Handle(g, a, e).trace, port);
  }

  // ---------- a selection may settle for a relay ----------

  lemma PinNetReaches(w: World, s: Store, t: Trace, port: Port, p: PeerId)
    requires Pinning(w.net, p)
    ensures TryReach(w, s, t, port, p).peer == Some(p)
  {
    var reply := w.net.resolve(t, [p]);
    var usable := UsableRoutes(w.relay, [p], reply);
    assert p in usable && usable[p][0] == [P2p(p)] && [P2p(p)] in usable[p];
    assert [P2p(p)] in AllRoutes(usable);
    RaceAnswers(w, t + [Resolving([p], reply)], ReachRoutes(w.relay, s, port, p, usable), p);
  }

  /** The front of the pool is reused, whether or not a later member is connected directly. */
  lemma FrontIsReused(g: Setting, a: Actor, server: Server, p: PeerId, q: PeerId)
    requires Sound(g) && Pinning(g.net, p) && server.Pinned() == [] && server.sticky && server.maxTotal >= 2
    requires Distinct(a.store) && PoolOf(a.store, server) == [p, q] && p != q
    ensures var r := Select(g, a, server, None); r.peer == Some(p) && q in PoolOf(r.actor.store, server)
  {
    SoundIsHonest(g);
    hide Pinning, Sound, Honest, ConnectDiscovered, PoolOf;
    FrontConnects(g.W(), a.store, a.trace + [Selecting(server.port)], server, p, q);
  }

  lemma FrontConnects(w: World, s: Store, t: Trace, server: Server, p: PeerId, q: PeerId)
    requires Honest(w.net) && Pinning(w.net, p) && server.sticky && server.maxTotal >= 2
    requires Distinct(s) && PoolOf(s, server) == [p, q] && p != q
    ensures var r := ConnectDiscovered(w, s, t, server, None);
            r.result == Ok(ConnectedDestination(p, StickyReuse)) && q in PoolOf(r.store, server)
  {
    DiscoveredPoolEffect(w, s, t, server, None);
    FrontWalks(w, Invalidate(s, server.port, server.Fingerprint()), t, server.port, p, q);
    hide Honest, Pinning, WalkPool, Discover, Reused, Distinct;
    var r := ConnectDiscovered(w, s, t, server, None);
    assert r.result == Ok(ConnectedDestination(p, StickyReuse));
    var i :| 0 <= i < 2 && p == [p, q][i] && PoolOf(r.store, server) == Reused([p, q], None, i, server.maxTotal);
    SecondStays(p, q, server.maxTotal);
  }

  lemma FrontWalks(w: World, s: Store, t: Trace, port: Port, p: PeerId, q: PeerId)
    requires Pinning(w.net, p)
    ensures WalkPool(w, s, t, port, [p, q], None).peer == Some(p)
  {
    PinNetReaches(w, s, t, port, p);
    hide TryReach, Pinning;
  }

  lemma SecondStays(p: PeerId, q: PeerId, max: nat)
    requires p != q && max >= 2
    ensures q in Reused([p, q], None, 0, max)
  {
    assert Reused([p, q], None, 0, max)[1] == q;
  }

  lemma NobodyRotates(g: Setting, a: Actor, q: PeerId, address: Multiaddr)
    requires Sound(g) && forall p :: p in a.destinations ==> a.destinations[p] == None
    ensures Handle(g, a, PeerConnected(q, address, false))
            == a.(direct := a.direct + {q}, store := Note(a.store, q, address))
  {
    var b := a.(direct := a.direct + {q}, store := Note(a.store, q, address));
    var stuck := RelayStuck(b, q);
    assert stuck == {};
    var ports := g.net.iterate(b.trace, stuck);
    assert Lists(ports, stuck);
    if ports != [] { HasMember(ports); }
  }

  /** The other direction fails, in a run of two events: a direct peer of the pool is passed
      over by the selection that follows, and the port stays on a relayed exit. */
  lemma RelayStays(server: Server, init: Store, p: PeerId, q: PeerId, relay: Multiaddr, address: Multiaddr)
    returns (g: Setting, start: System, run: seq<Step>)
    requires server.Valid() && server.Pinned() == [] && server.sticky && server.maxTotal >= 2
    requires Distinct(init) && PoolOf(init, server) == [p, q] && p != q
    ensures g.relay == relay && run == TwoEvents(PeerConnected(q, address, false), DiscoverFor(server.port))
    ensures Scenario(g, start, run) && server in g.servers && start.actor.store == init
    ensures var a := Execute(g, start, run).actor;
            && server.port in a.destinations && a.destinations[server.port] == Some(p) && p !in a.direct
            && q in a.direct && q in PoolOf(a.store, server) && !Settled(a, server)
  {
    g := Setting(PinNet(p, []), relay, [server]);
    PinNetIsSound(g, p, []);
    hide PinNet, Pinning, Select, Feasible, Execute, Sound;
    start := System(FreshActor(server, init), multiset{}, []);
    var e1, e2 := PeerConnected(q, address, false), DiscoverFor(server.port);
    run := TwoEvents(e1, e2);
    FreshIsInitial(g, server, init);
    NobodyRotates(g, start.actor, q, address);
    NoteView(init, q, address);
    var a := start.actor.(direct := {q}, store := Note(init, q, address));
    assert start.actor.direct + {q} == {q};
    FrontIsReused(g, a, server, p, q);
    SelectFrame(g, a, server, None);
    assert FindServer(g.servers, server.port) == Some(server) && server in g.servers;
    assert a.(pending := a.pending - {server.port}) == a;
    TwoEventsRun(g, start, e1, e2);
  }
}

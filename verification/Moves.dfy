/** Every event the discovery actor handles is a sequence of elementary moves. An
    invariant of the moves is an invariant of the actor. */
module Moves {
  import opened Wrappers
  import opened Selection
  import opened Sticky
  import opened Config
  import opened NetworkActors
  import opened Environments
  import opened ConnectSpec
  import opened ConnectPools
  import opened DiscoverySpec

  datatype Move =
    | Quiet(act: Act)
    | Choose(port: Port, avoid: Option<PeerId>)
    | Hold(port: Port, now: Instant)
    | Mark(port: Port, at: Instant)
    | Reread(server: Server)
    | Switch(server: Server, peer: PeerId, source: DestinationSource)
    | SetDirect(direct: set<PeerId>)
    | Learn(peer: PeerId, address: Multiaddr)
    | Unlearn(port: Port, peer: PeerId)
    | Probe(server: Server, peer: PeerId)

  predicate IsQuiet(act: Act) {
    act.ReadingClock? || act.Replying? || (act.Emitting? && (act.event.ErrorShown? || act.event.StickyPoolShown?))
  }

  function Since(a: Actor, port: Port, now: Instant): nat {
    if port in a.lastRediscovery then Elapsed(a, port, now) else REDISCOVERY_COOLDOWN
  }

  function Do(g: Setting, a: Actor, m: Move): (r: Actor)
    ensures a.trace <= r.trace && r.destinations.Keys == a.destinations.Keys
  {
    match m
    case Quiet(act) => a.Noting(act)
    case Choose(port, avoid) => DiscoverPort(g, a, port, avoid).actor
    case Hold(port, now) =>
      Throttle(g, a, port, if Since(a, port, now) <= REDISCOVERY_COOLDOWN
        then REDISCOVERY_COOLDOWN - Since(a, port, now) else 0)
    case Mark(port, at) => a.(lastRediscovery := a.lastRediscovery[port := at]).Noting(Rediscovering(port, at))
    case Reread(server) => a.(store := Invalidate(a.store, server.port, server.Fingerprint()))
    case Switch(server, peer, source) =>
      PointTo(a.(store := Remember(a.store, server.port, server.Fingerprint(), peer, server.maxTotal)),
              server.port, Some(peer), Some(source))
    case SetDirect(direct) => a.(direct := direct)
    case Learn(peer, address) => a.(store := Note(a.store, peer, address))
    case Unlearn(port, peer) => a.(store := Forget(a.store, port, peer))
    case Probe(server, peer) => a.(trace := TryReach(g.W(), a.store, a.trace, server.port, peer).trace)
  }

  /** When the actor may make a move while handling e. */
  ghost predicate Allowed(g: Setting, a: Actor, e: DiscoveryEvent, m: Move) {
    match m
    case Quiet(act) => IsQuiet(act)
    case Choose(port, avoid) => avoid == if e.PeerClosed? then Some(e.peer) else None
    case Hold(port, now) =>
      && port in a.destinations && port in a.lastRediscovery && now <= g.net.now(a.trace)
      && Since(a, port, now) < REDISCOVERY_COOLDOWN
      && a.trace != [] && a.trace[|a.trace| - 1] == ReadingClock(now)
    case Mark(port, at) =>
      && at <= g.net.now(a.trace) && a.trace != [] && a.trace[|a.trace| - 1] == ReadingClock(at)
      && (port in a.lastRediscovery ==> a.lastRediscovery[port] + REDISCOVERY_COOLDOWN <= at)
    case Reread(server) => server in g.servers
    case Switch(server, peer, source) =>
      && server in g.servers
      && ( || (source == StickyReuse && peer in PoolIds(a.store, server.port, server.Fingerprint()))
           || (source == Manual && e == SelectPeer(server.port, peer)))
    case SetDirect(direct) => true
    case Learn(peer, address) => e == PeerConnected(peer, address, false)
    case Unlearn(port, peer) => e == PeerUnusable(peer)
    case Probe(server, peer) => server in g.servers
  }

  function DoAll(g: Setting, a: Actor, ms: seq<Move>): (r: Actor)
    ensures a.trace <= r.trace && r.destinations.Keys == a.destinations.Keys
    decreases |ms|
  {
    if ms == [] then a else DoAll(g, Do(g, a, ms[0]), ms[1..])
  }

  ghost predicate AllAllowed(g: Setting, a: Actor, e: DiscoveryEvent, ms: seq<Move>)
    decreases |ms|
  {
    ms != [] ==> Allowed(g, a, e, ms[0]) && AllAllowed(g, Do(g, a, ms[0]), e, ms[1..])
  }

  /** b is reached from a by allowed moves. */
  ghost predicate Leads(g: Setting, a: Actor, e: DiscoveryEvent, b: Actor) {
    exists ms :: AllAllowed(g, a, e, ms) && DoAll(g, a, ms) == b
  }

  lemma {:induction false} MovesConcat(g: Setting, a: Actor, e: DiscoveryEvent, ms: seq<Move>, ns: seq<Move>)
    ensures DoAll(g, a, ms + ns) == DoAll(g, DoAll(g, a, ms), ns)
    ensures AllAllowed(g, a, e, ms) && AllAllowed(g, DoAll(g, a, ms), e, ns) ==> AllAllowed(g, a, e, ms + ns)
    decreases |ms|
  {
    if ms == [] {
      assert ms + ns == ns;
    } else {
      assert (ms + ns)[0] == ms[0] && (ms + ns)[1..] == ms[1..] + ns;
      MovesConcat(g, Do(g, a, ms[0]), e, ms[1..], ns);
    }
  }

  lemma LeadsNowhere(g: Setting, a: Actor, e: DiscoveryEvent)
    ensures Leads(g, a, e, a)
  {
    assert AllAllowed(g, a, e, []) && DoAll(g, a, []) == a;
  }

  lemma LeadsOne(g: Setting, a: Actor, e: DiscoveryEvent, m: Move)
    requires Allowed(g, a, e, m)
    ensures Leads(g, a, e, Do(g, a, m))
  {
    var ms := [m];
    var b := Do(g, a, m);
    assert ms[1..] == [] && DoAll(g, b, []) == b && AllAllowed(g, b, e, []);
    assert DoAll(g, a, ms) == DoAll(g, b, ms[1..]);
    assert AllAllowed(g, a, e, ms) && DoAll(g, a, ms) == b;
  }

  lemma LeadsOn(g: Setting, a: Actor, e: DiscoveryEvent, b: Actor, c: Actor)
    requires Leads(g, a, e, b) && Leads(g, b, e, c)
    ensures Leads(g, a, e, c)
  {
    var ms :| AllAllowed(g, a, e, ms) && DoAll(g, a, ms) == b;
    var ns :| AllAllowed(g, b, e, ns) && DoAll(g, b, ns) == c;
    MovesConcat(g, a, e, ms, ns);
    assert AllAllowed(g, a, e, ms + ns) && DoAll(g, a, ms + ns) == c;
  }

  lemma LeadsThen(g: Setting, a: Actor, e: DiscoveryEvent, b: Actor, m: Move)
    requires Leads(g, a, e, b) && Allowed(g, b, e, m)
    ensures Leads(g, a, e, Do(g, b, m))
  {
    LeadsOne(g, b, e, m);
    LeadsOn(g, a, e, b, Do(g, b, m));
  }

  // ---------- the handlers, decomposed ----------

  ghost predicate Sound(g: Setting) {
    Honest(g.net) && MonotoneClock(g.net) && FaithfulIteration(g.net)
  }

  lemma RediscoverMoves(g: Setting, a: Actor, e: DiscoveryEvent, peer: PeerId, port: Port)
    requires Sound(g) && e == PeerClosed(peer)
    requires port in a.lastRediscovery ==> a.lastRediscovery[port] + REDISCOVERY_COOLDOWN <= g.net.now(a.trace)
    ensures Leads(g, a, e, Rediscover(g, a, port, peer))
  {
    var now := g.net.now(a.trace);
    var b := Do(g, a, Quiet(ReadingClock(now)));
    LeadsOne(g, a, e, Quiet(ReadingClock(now)));
    assert g.net.now(a.trace) <= g.net.now(a.trace + [ReadingClock(now)]);
    LeadsThen(g, a, e, b, Mark(port, now));
    LeadsThen(g, a, e, Do(g, b, Mark(port, now)), Choose(port, Some(peer)));
  }

  lemma ClosePortKeys(g: Setting, a: Actor, peer: PeerId, port: Port)
    ensures ClosePort(g, a, peer, port).destinations.Keys == a.destinations.Keys
  {
  }

  lemma CloseAtMoves(g: Setting, a: Actor, e: DiscoveryEvent, peer: PeerId, port: Port, now: Instant)
    requires Sound(g) && e == PeerClosed(peer) && port in a.destinations && port in a.lastRediscovery
             && now <= g.net.now(a.trace) && a.trace != [] && a.trace[|a.trace| - 1] == ReadingClock(now)
    ensures Leads(g, a, e, CloseAt(g, a, peer, port, now))
  {
    hide Leads, Rediscover, Throttle;
    if Elapsed(a, port, now) < REDISCOVERY_COOLDOWN {
      LeadsOne(g, a, e, Hold(port, now));
    } else {
      RediscoverMoves(g, a, e, peer, port);
    }
  }

  lemma ReadClockMoves(g: Setting, a: Actor, e: DiscoveryEvent)
    requires MonotoneClock(g.net)
    ensures var now := g.net.now(a.trace);
            var b := a.Noting(ReadingClock(now));
            Leads(g, a, e, b) && now <= g.net.now(b.trace)
  {
    LeadsOne(g, a, e, Quiet(ReadingClock(g.net.now(a.trace))));
  }

  lemma ClosePortMoves(g: Setting, a: Actor, e: DiscoveryEvent, peer: PeerId, port: Port)
    requires Sound(g) && e == PeerClosed(peer) && port in a.destinations
    ensures Leads(g, a, e, ClosePort(g, a, peer, port))
  {
    if port !in a.lastRediscovery {
      RediscoverMoves(g, a, e, peer, port);
    } else {
      var now := g.net.now(a.trace);
      var b := a.Noting(ReadingClock(now));
      ReadClockMoves(g, a, e);
      CloseAtMoves(g, b, e, peer, port, now);
      LeadsOn(g, a, e, b, CloseAt(g, b, peer, port, now));
    }
  }

  lemma {:induction false} ClosePortsMoves(g: Setting, a: Actor, e: DiscoveryEvent, peer: PeerId, ports: seq<Port>)
    requires Sound(g) && e == PeerClosed(peer) && forall p :: p in ports ==> p in a.destinations
    ensures Leads(g, a, e, ClosePorts(g, a, peer, ports))
    decreases |ports|
  {
    if ports == [] {
      LeadsNowhere(g, a, e);
    } else {
      var b := ClosePort(g, a, peer, ports[0]);
      ClosePortMoves(g, a, e, peer, ports[0]);
      ClosePortKeys(g, a, peer, ports[0]);
      ClosePortsMoves(g, b, e, peer, ports[1..]);
      LeadsOn(g, a, e, b, ClosePorts(g, b, peer, ports[1..]));
    }
  }

  lemma RotatePortMoves(g: Setting, a: Actor, e: DiscoveryEvent, candidate: PeerId, port: Port)
    ensures Leads(g, a, e, RotatePort(g, a, candidate, port))
  {
    LeadsNowhere(g, a, e);
    var found := FindServer(g.servers, port);
    if found.Some? {
      var server := found.value;
      var b := Do(g, a, Reread(server));
      LeadsThen(g, a, e, a, Reread(server));
      if candidate in PoolIds(a.store, port, server.Fingerprint()) {
        SwitchMoves(g, a, e, b, server, candidate, StickyReuse);
      }
    }
  }

  lemma SwitchMoves(g: Setting, a: Actor, e: DiscoveryEvent, b: Actor, server: Server, peer: PeerId,
                    source: DestinationSource)
    requires Leads(g, a, e, b) && Allowed(g, b, e, Switch(server, peer, source))
    ensures Leads(g, a, e, Adopt(b, server, peer, source))
  {
    LeadsThen(g, a, e, b, Switch(server, peer, source));
    var c := Do(g, b, Switch(server, peer, source));
    ShowPoolMoves(g, c, e, server);
    LeadsOn(g, a, e, c, ShowPool(c, server));
  }

  lemma ShowPoolMoves(g: Setting, a: Actor, e: DiscoveryEvent, server: Server)
    ensures Leads(g, a, e, ShowPool(a, server))
  {
    LeadsOne(g, a, e, Quiet(Emitting(StickyPoolShown(server.port,
      Snapshot(a.store, server.port, server.Fingerprint())))));
  }

  lemma {:induction false} RotatePortsMoves(g: Setting, a: Actor, e: DiscoveryEvent, candidate: PeerId,
                                            ports: seq<Port>)
    ensures Leads(g, a, e, RotatePorts(g, a, candidate, ports))
    decreases |ports|
  {
    if ports == [] {
      LeadsNowhere(g, a, e);
    } else {
      var b := RotatePort(g, a, candidate, ports[0]);
      RotatePortMoves(g, a, e, candidate, ports[0]);
      RotatePortsMoves(g, b, e, candidate, ports[1..]);
      LeadsOn(g, a, e, b, RotatePorts(g, b, candidate, ports[1..]));
    }
  }

  lemma {:induction false} ForgetMoves(g: Setting, a: Actor, servers: seq<Server>, peer: PeerId)
    ensures Leads(g, a, PeerUnusable(peer), a.(store := ForgetEverywhere(a.store, servers, peer)))
    decreases |servers|
  {
    var e := PeerUnusable(peer);
    LeadsNowhere(g, a, e);
    if servers == [] {
      assert a == a.(store := a.store);
    } else {
      var b := Do(g, a, Unlearn(servers[0].port, peer));
      LeadsThen(g, a, e, a, Unlearn(servers[0].port, peer));
      ForgetMoves(g, b, servers[1..], peer);
      LeadsOn(g, a, e, b, b.(store := ForgetEverywhere(b.store, servers[1..], peer)));
    }
  }

  lemma {:induction false} DiscoverPortsMoves(g: Setting, a: Actor, e: DiscoveryEvent, ports: seq<Port>)
    requires !e.PeerClosed?
    ensures Leads(g, a, e, DiscoverPorts(g, a, ports))
    decreases |ports|
  {
    LeadsNowhere(g, a, e);
    if ports != [] {
      var b := DiscoverPort(g, a, ports[0], None).actor;
      LeadsThen(g, a, e, a, Choose(ports[0], None));
      DiscoverPortsMoves(g, b, e, ports[1..]);
      LeadsOn(g, a, e, b, DiscoverPorts(g, b, ports[1..]));
    }
  }

  lemma {:induction false} ShowPoolsMoves(g: Setting, a: Actor, e: DiscoveryEvent, servers: seq<Server>)
    ensures Leads(g, a, e, ShowPools(a, servers))
    decreases |servers|
  {
    if servers == [] {
      LeadsNowhere(g, a, e);
    } else {
      var b := ShowPool(a, servers[0]);
      ShowPoolMoves(g, a, e, servers[0]);
      ShowPoolsMoves(g, b, e, servers[1..]);
      LeadsOn(g, a, e, b, ShowPools(b, servers[1..]));
    }
  }

  lemma PickMoves(g: Setting, a: Actor, port: Port, peer: PeerId)
    requires Sound(g)
    ensures Leads(g, a, SelectPeer(port, peer), Pick(g, a, port, peer))
  {
    var e := SelectPeer(port, peer);
    var found := FindServer(g.servers, port);
    LeadsNowhere(g, a, e);
    if found.Some? {
      var r := TryReach(g.W(), a.store, a.trace, port, peer);
      var b := Do(g, a, Probe(found.value, peer));
      LeadsThen(g, a, e, a, Probe(found.value, peer));
      ReachOnlyThatPeer(g.W(), a.store, a.trace, port, peer);
      if r.peer.Some? {
        SwitchMoves(g, a, e, b, found.value, peer, Manual);
      } else {
        LeadsThen(g, a, e, b, Quiet(Emitting(ErrorShown)));
      }
    }
  }

  /** Whatever the event, handling it is a sequence of allowed moves. */
  lemma HandleIsMoves(g: Setting, a: Actor, e: DiscoveryEvent)
    requires Sound(g)
    ensures Leads(g, a, e, Handle(g, a, e))
  {
    match e
    case DiscoverFor(port) =>
      LeadsOne(g, a, e, Choose(port, None));
    case RequestNewPeer(port) =>
      var r := DiscoverPort(g, a, port, None);
      LeadsOne(g, a, e, Choose(port, None));
      LeadsThen(g, a, e, r.actor, Quiet(Replying(port, r.peer)));
    case PeerClosed(peer) =>
      var b := Do(g, a, SetDirect(a.direct - {peer}));
      var ports := g.net.iterate(a.trace, ServedBy(a.destinations, peer));
      assert Lists(ports, ServedBy(a.destinations, peer));
      LeadsOne(g, a, e, SetDirect(a.direct - {peer}));
      ClosePortsMoves(g, b, e, peer, ports);
      LeadsOn(g, a, e, b, ClosePorts(g, b, peer, ports));
    case PeerUnusable(peer) =>
      var b := a.(store := ForgetEverywhere(a.store, g.servers, peer));
      var ports := g.net.iterate(b.trace, ServedBy(b.destinations, peer));
      var c := DiscoverPorts(g, b, ports);
      ForgetMoves(g, a, g.servers, peer);
      DiscoverPortsMoves(g, b, e, ports);
      LeadsOn(g, a, e, b, c);
      ShowPoolsMoves(g, c, e, g.servers);
      LeadsOn(g, a, e, c, ShowPools(c, g.servers));
    case PeerConnected(peer, address, relayed) =>
      if relayed {
        LeadsOne(g, a, e, SetDirect(a.direct - {peer}));
      } else {
        var b := Do(g, a, SetDirect(a.direct + {peer}));
        var c := Do(g, b, Learn(peer, address));
        LeadsOne(g, a, e, SetDirect(a.direct + {peer}));
        LeadsThen(g, a, e, b, Learn(peer, address));
        var ports := g.net.iterate(c.trace, RelayStuck(c, peer));
        RotatePortsMoves(g, c, e, peer, ports);
        LeadsOn(g, a, e, c, RotatePorts(g, c, peer, ports));
      }
    case SelectPeer(port, peer) =>
      PickMoves(g, a, port, peer);
  }
}

/** The effect of a closed peer and of an operator's pick, port by port. */
module CloseEffects {
  import opened Wrappers
  import opened Selection
  import opened Sequences
  import opened Sticky
  import opened Config
  import opened Environments
  import opened ConnectSpec
  import opened ConnectPools
  import opened ConnectSummaries
  import opened DiscoverySpec
  import opened Moves
  import opened PoolInvariants
  import opened Histories
  import opened EventEffects

  /** Nothing about the server's port has changed: its pool, exit, cooldown, pending
      flag and history. */
  ghost predicate Untouched(a: Actor, b: Actor, server: Server) {
    var port := server.port;
    && PoolOf(b.store, server) == PoolOf(a.store, server)
    && b.destinations.Keys == a.destinations.Keys
    && (port in a.destinations ==> b.destinations[port] == a.destinations[port])
    && (port in b.pending <==> port in a.pending)
    && (port in b.lastRediscovery <==> port in a.lastRediscovery)
    && (port in a.lastRediscovery ==> b.lastRediscovery[port] == a.lastRediscovery[port])
    && HistoryOf(b.trace, port) == HistoryOf(a.trace, port)
  }

  /** The port's exit was announced anew: it had one immediate rediscovery, or it was held
      dark, pending, and with no selection started. */
  ghost predicate Attended(a: Actor, b: Actor, port: Port) {
    var h, h' := HistoryOf(a.trace, port), HistoryOf(b.trace, port);
    && port in b.destinations && h'.shows > h.shows
    && ( || ( && h'.selected == h.selected + 1 && |h'.rediscoveries| == |h.rediscoveries| + 1
              && port !in b.pending && !h'.dark)
         || ( && b.destinations[port] == None && port in b.pending && h'.dark
              && h'.selected == h.selected && h'.rediscoveries == h.rediscoveries))
  }

  lemma Aside(a: Actor, act: Act, server: Server)
    requires act.ReadingClock? || (act.Rediscovering? && act.port != server.port)
    ensures HistoryOf(a.Noting(act).trace, server.port) == HistoryOf(a.trace, server.port)
  {
    Snoc(a.trace, act, server.port);
  }

  // ---------- one port of the closed peer ----------

  lemma DiscoverFrame(g: Setting, a: Actor, port: Port, avoid: Option<PeerId>)
    ensures var r := DiscoverPort(g, a, port, avoid);
            && r.actor.pending == a.pending - {port} && r.actor.lastRediscovery == a.lastRediscovery
            && r.actor.direct == a.direct
            && r.actor.destinations.Keys == a.destinations.Keys
            && (forall p :: p in a.destinations && p != port ==> r.actor.destinations[p] == a.destinations[p])
  {
    hide Select;
    var found := FindServer(g.servers, port);
    if found.Some? { SelectFrame(g, a.(pending := a.pending - {port}), found.value, avoid); }
  }

  lemma RediscoverElsewhere(g: Setting, a: Actor, peer: PeerId, port: Port, server: Server)
    requires Honest(g.net) && WellSet(g) && Distinct(a.store) && port != server.port
    ensures var b := Rediscover(g, a, port, peer); Distinct(b.store) && b.direct == a.direct && Untouched(a, b, server)
  {
    hide DiscoverPort, PoolOf, HistoryOf;
    var now := g.net.now(a.trace);
    var b := a.(lastRediscovery := a.lastRediscovery[port := now]);
    Aside(b, ReadingClock(now), server);
    Aside(b.Noting(ReadingClock(now)), Rediscovering(port, now), server);
    var c := b.Noting(ReadingClock(now)).Noting(Rediscovering(port, now));
    OtherPortUntouched(g, c, port, Some(peer), server);
    DiscoverFrame(g, c, port, Some(peer));
  }

  lemma HoldElsewhere(g: Setting, a: Actor, port: Port, remaining: nat, server: Server)
    requires Distinct(a.store) && port != server.port
    ensures var b := Throttle(g, a, port, remaining);
            Distinct(b.store) && b.direct == a.direct && Untouched(a, b, server)
  {
    HoldHistory(g, a, port, remaining, server.port);
    HoldFrame(g, a, port, remaining);
  }

  lemma CloseElsewhere(g: Setting, a: Actor, peer: PeerId, port: Port, server: Server)
    requires Honest(g.net) && WellSet(g) && Distinct(a.store) && port != server.port
    ensures var b := ClosePort(g, a, peer, port); Distinct(b.store) && b.direct == a.direct && Untouched(a, b, server)
  {
    hide Rediscover, Throttle, HistoryOf, PoolOf;
    if port !in a.lastRediscovery {
      RediscoverElsewhere(g, a, peer, port, server);
    } else {
      var now := g.net.now(a.trace);
      var b := a.Noting(ReadingClock(now));
      Aside(a, ReadingClock(now), server);
      if Elapsed(b, port, now) < REDISCOVERY_COOLDOWN {
        HoldElsewhere(g, b, port, REDISCOVERY_COOLDOWN - Elapsed(b, port, now), server);
      } else {
        RediscoverElsewhere(g, b, peer, port, server);
      }
    }
  }

  lemma RediscoverAttends(g: Setting, a: Actor, peer: PeerId, server: Server)
    requires Honest(g.net) && WellSet(g) && Distinct(a.store) && server in g.servers && server.port in a.destinations
    ensures var b := Rediscover(g, a, server.port, peer);
            Distinct(b.store) && b.direct == a.direct && Attended(a, b, server.port)
  {
    var port, now := server.port, g.net.now(a.trace);
    var b := a.(lastRediscovery := a.lastRediscovery[port := now]);
    Snoc(b.trace, ReadingClock(now), port);
    Snoc(b.Noting(ReadingClock(now)).trace, Rediscovering(port, now), port);
    hide Select, HistoryOf, PoolOf;
    var c := b.Noting(ReadingClock(now)).Noting(Rediscovering(port, now));
    assert FindServer(g.servers, port) == Some(server);
    var d := c.(pending := c.pending - {port});
    SelectHistory(g, d, server, Some(peer), port);
    SelectFrame(g, d, server, Some(peer));
    SelectEffect(g, d, server, Some(peer));
  }

  lemma HoldAttends(g: Setting, a: Actor, port: Port, remaining: nat)
    requires port in a.destinations
    ensures var b := Throttle(g, a, port, remaining); b.store == a.store && b.direct == a.direct && Attended(a, b, port)
  {
    HoldHistory(g, a, port, remaining, port);
    HoldFrame(g, a, port, remaining);
  }

  lemma CloseAttends(g: Setting, a: Actor, peer: PeerId, server: Server)
    requires Honest(g.net) && WellSet(g) && Distinct(a.store) && server in g.servers && server.port in a.destinations
    ensures var b := ClosePort(g, a, peer, server.port);
            Distinct(b.store) && b.direct == a.direct && Attended(a, b, server.port)
  {
    hide Rediscover, Throttle, HistoryOf;
    var port := server.port;
    if port !in a.lastRediscovery {
      RediscoverAttends(g, a, peer, server);
    } else {
      var now := g.net.now(a.trace);
      var b := a.Noting(ReadingClock(now));
      Aside(a, ReadingClock(now), server);
      if Elapsed(b, port, now) < REDISCOVERY_COOLDOWN {
        HoldAttends(g, b, port, REDISCOVERY_COOLDOWN - Elapsed(b, port, now));
      } else {
        RediscoverAttends(g, b, peer, server);
      }
    }
  }

  // ---------- all of them ----------

  lemma {:induction false} ClosePortsEffect(g: Setting, a: Actor, peer: PeerId, ports: seq<Port>, server: Server)
    requires Honest(g.net) && WellSet(g) && Distinct(a.store) && NoDuplicates(ports)
    requires server in g.servers && server.port in a.destinations
    ensures var b := ClosePorts(g, a, peer, ports);
            && b.direct == a.direct
            && if server.port in ports then Attended(a, b, server.port) else Untouched(a, b, server)
    decreases |ports|
  {
    hide ClosePort, HistoryOf, PoolOf;
    if ports != [] {
      var b := ClosePort(g, a, peer, ports[0]);
      assert ports == [ports[0]] + ports[1..];
      assert ports[0] !in ports[1..];
      ClosePortKeys(g, a, peer, ports[0]);
      if ports[0] == server.port {
        CloseAttends(g, a, peer, server);
      } else {
        CloseElsewhere(g, a, peer, ports[0], server);
      }
      ClosePortsEffect(g, b, peer, ports[1..], server);
    }
  }

  /** After `PeerClosed(peer)` every port that `peer` was serving has had exactly one
      rediscovery started or is held dark with a wake-up pending; nothing about any
      other port has changed. */
  lemma ClosedPeerEffect(g: Setting, a: Actor, peer: PeerId, server: Server)
    requires Sound(g) && WellSet(g) && HandlesMatch(g, a) && Distinct(a.store) && server in g.servers
    ensures var b := Handle(g, a, PeerClosed(peer));
            && b.direct == a.direct - {peer}
            && server.port in a.destinations
            && if a.destinations[server.port] == Some(peer) then Attended(a, b, server.port)
              else Untouched(a, b, server)
  {
    hide ClosePorts, HistoryOf, PoolOf;
    var b := a.(direct := a.direct - {peer});
    var ports := g.net.iterate(a.trace, ServedBy(a.destinations, peer));
    assert Lists(ports, ServedBy(a.destinations, peer));
    assert server.port in a.destinations;
    ClosePortsEffect(g, b, peer, ports, server);
  }

  // ---------- an operator's pick ----------

  /** The peer is the exit and the front of the pool, shown as a manual choice. */
  ghost predicate Picked(a: Actor, b: Actor, server: Server, peer: PeerId) {
    && server.port in b.destinations && b.destinations[server.port] == Some(peer)
    && PoolOf(b.store, server) == MoveToFront(PoolOf(a.store, server), peer, server.maxTotal)
    && HistoryOf(b.trace, server.port).source == Some(Manual)
  }

  /** A pick that can be reached makes exactly that peer the exit and the front of the
      pool, marked as manual; one that cannot changes neither exit nor pool and ends in showing
      an error; no other port is touched either way. */
  lemma ManualPickEffect(g: Setting, a: Actor, server: Server, peer: PeerId, other: Server)
    requires Sound(g) && WellSet(g) && HandlesMatch(g, a) && Distinct(a.store)
    requires server in g.servers && other in g.servers
    ensures var b := Handle(g, a, SelectPeer(server.port, peer));
            && server.port in a.destinations
            && (if TryReach(g.W(), a.store, a.trace, server.port, peer).peer.Some? then Picked(a, b, server, peer)
                else
                  && b.destinations == a.destinations && b.store == a.store
                  && b.trace != [] && b.trace[|b.trace| - 1] == Emitting(ErrorShown))
            && (other != server ==> Untouched(a, b, other))
  {
    hide TryReach, Adopt, Untouched, Picked, HistoryOf, PoolOf;
    var port := server.port;
    assert port in a.destinations;
    assert FindServer(g.servers, port) == Some(server);
    var r := TryReach(g.W(), a.store, a.trace, port, peer);
    var b := a.(trace := r.trace);
    ReachedIsPeer(g.W(), a.store, a.trace, port, peer);
    ReachHistory(g, a, port, peer, other.port);
    if r.peer.Some? {
      AdoptEffect(b, server, peer, other);
      LaterTrace(a, b, Adopt(b, server, peer, Manual), server, peer, other);
    } else {
      Snoc(b.trace, Emitting(ErrorShown), other.port);
      OnlyTrace(a, b.Noting(Emitting(ErrorShown)), other);
    }
  }

  lemma OnlyTrace(a: Actor, b: Actor, other: Server)
    requires b == a.(trace := b.trace) && HistoryOf(b.trace, other.port) == HistoryOf(a.trace, other.port)
    ensures Untouched(a, b, other)
  {
  }

  lemma LaterTrace(a: Actor, b: Actor, c: Actor, server: Server, peer: PeerId, other: Server)
    requires b == a.(trace := b.trace) && HistoryOf(b.trace, other.port) == HistoryOf(a.trace, other.port)
    requires Picked(b, c, server, peer)
    ensures Picked(a, c, server, peer)
    ensures Untouched(b, c, other) ==> Untouched(a, c, other)
  {
    hide HistoryOf, PoolOf;
  }

  lemma ReachHistory(g: Setting, a: Actor, port: Port, peer: PeerId, other: Port)
    ensures HistoryOf(TryReach(g.W(), a.store, a.trace, port, peer).trace, other) == HistoryOf(a.trace, other)
  {
    ReachStretch(g, a, port, peer);
    Stretch(a.trace, TryReach(g.W(), a.store, a.trace, port, peer).trace, other);
  }

  lemma AdoptEffect(a: Actor, server: Server, peer: PeerId, other: Server)
    requires Distinct(a.store) && server.port in a.destinations
    ensures var b := Adopt(a, server, peer, Manual);
            && Picked(a, b, server, peer)
            && (other.port != server.port ==> Untouched(a, b, other))
  {
    var fp := server.Fingerprint();
    var b := a.(store := Remember(a.store, server.port, fp, peer, server.maxTotal));
    RememberView(a.store, server.port, fp, peer, server.maxTotal);
    var c := PointTo(b, server.port, Some(peer), Some(Manual));
    PointHistory(b, server.port, Some(peer), Some(Manual), server.port);
    PointHistory(b, server.port, Some(peer), Some(Manual), other.port);
    ShownPoolHistory(c, server, server.port);
    ShownPoolHistory(c, server, other.port);
  }
}

/** The sticky pool shown to the operator is the pool that is remembered: the actor shows it
    afresh whenever it changes, and the view holds exactly its members, in order. */
module ShownPools {
  import opened Wrappers
  import opened Selection
  import Sequences
  import opened Sticky
  import opened Config
  import opened NetworkActors
  import opened Environments
  import opened ConnectSpec
  import opened ConnectEffort
  import opened ConnectPools
  import opened ConnectSummaries
  import opened DiscoverySpec
  import opened Moves
  import opened PoolInvariants
  import opened Histories
  import opened Runs
  import opened Tui
  import opened JointRuns
  import opened ViewTables

  /** The rows are the members of the server's valid pool, in order, each with the address
      remembered for it, if any. */
  ghost predicate Mirrors(s: Store, server: Server, rows: seq<PoolPeer>) {
    var pool := PoolOf(s, server);
    && |rows| == |pool|
    && forall k :: 0 <= k < |rows| ==>
      && rows[k].peerId == pool[k]
      && match DirectAddress(s, server.port, pool[k])
         case None => rows[k].addresses == []
         case Some(a) => rows[k].addresses == [a]
  }

  lemma SnapshotMirrors(s: Store, server: Server)
    requires Distinct(s)
    ensures Mirrors(s, server, Snapshot(s, server.port, server.Fingerprint()))
  {
    var rows, pool := Snapshot(s, server.port, server.Fingerprint()), PoolOf(s, server);
    forall k | 0 <= k < |rows|
      ensures rows[k].peerId == pool[k] && DirectAddress(s, server.port, pool[k]) == s[server.port].peers[k].address
    {
      var peers := s[server.port].peers;
      var i := Position(peers, pool[k]);
      assert Ids(peers)[k] == pool[k] && (i < |peers| ==> Ids(peers)[i] == pool[k]);
    }
  }

  /** The rows of the sticky pool last shown for the port. */
  function LastPool(t: Trace, port: Port): Option<seq<PoolPeer>> {
    if t == [] then None
    else if ShowsPoolOf(t[|t| - 1], port) then Some(t[|t| - 1].event.peers)
    else LastPool(t[..|t| - 1], port)
  }

  predicate ShowsPoolOf(act: Act, port: Port) {
    act.Emitting? && act.event.StickyPoolShown? && act.event.port == port
  }

  lemma PoolSnoc(t: Trace, act: Act, port: Port)
    ensures LastPool(t + [act], port) == if ShowsPoolOf(act, port) then Some(act.event.peers) else LastPool(t, port)
  {
    assert (t + [act])[..|t|] == t;
  }

  lemma {:induction false} PoolStretch(t: Trace, u: Trace, port: Port)
    requires t <= u && forall i :: |t| <= i < |u| ==> !ShowsPoolOf(u[i], port)
    ensures LastPool(u, port) == LastPool(t, port)
    decreases |u|
  {
    if |t| < |u| {
      var v := u[..|u| - 1];
      assert forall i :: |t| <= i < |v| ==> v[i] == u[i];
      PoolStretch(t, v, port);
    } else {
      assert t == u;
    }
  }

  // ---------- steps of the actor, seen from one port ----------

  /** What is shown last is the pool as it is. */
  ghost predicate UpToDate(a: Actor, server: Server) {
    LastPool(a.trace, server.port).Some? && Mirrors(a.store, server, LastPool(a.trace, server.port).value)
  }

  /** Nothing that is shown or remembered for the port has changed. */
  ghost predicate Aloof(a: Actor, b: Actor, server: Server) {
    var port := server.port;
    && Distinct(b.store)
    && LastPool(b.trace, port) == LastPool(a.trace, port)
    && (port in b.store <==> port in a.store) && (port in a.store ==> b.store[port] == a.store[port])
    && HistoryOf(b.trace, port).selected == HistoryOf(a.trace, port).selected
  }

  /** Either what is shown last is the pool as it is, or nothing was shown, no exit was
      selected, and the pool is what it was. */
  ghost predicate Settled(a: Actor, b: Actor, server: Server) {
    var port := server.port;
    && Distinct(b.store)
    && ( || UpToDate(b, server)
         || ( && LastPool(b.trace, port) == LastPool(a.trace, port)
              && PoolOf(b.store, server) == PoolOf(a.store, server)
              && HistoryOf(b.trace, port).selected == HistoryOf(a.trace, port).selected))
  }

  lemma AloofThen(a: Actor, b: Actor, c: Actor, server: Server)
    requires Aloof(a, b, server) && Settled(b, c, server)
    ensures Settled(a, c, server)
  {
    hide LastPool, HistoryOf;
  }

  lemma ThenAloof(a: Actor, b: Actor, c: Actor, server: Server)
    requires Settled(a, b, server) && Aloof(b, c, server)
    ensures Settled(a, c, server)
  {
    hide LastPool, HistoryOf;
  }

  lemma AloofAlong(a: Actor, b: Actor, c: Actor, server: Server)
    requires Aloof(a, b, server) && Aloof(b, c, server)
    ensures Aloof(a, c, server)
  {
    hide LastPool, HistoryOf;
  }

  lemma AloofSettles(a: Actor, b: Actor, server: Server)
    requires Aloof(a, b, server)
    ensures Settled(a, b, server)
  {
    hide LastPool, HistoryOf;
  }

  /** A step that only records acts other than these. */
  lemma Recorded(a: Actor, b: Actor, act: Act, server: Server)
    requires Distinct(a.store) && b.store == a.store && b.trace == a.trace + [act]
    requires !ShowsPoolOf(act, server.port) && act != Selecting(server.port)
    ensures Aloof(a, b, server)
  {
    PoolSnoc(a.trace, act, server.port);
    Snoc(a.trace, act, server.port);
  }

  lemma ShowPoolUpdates(a: Actor, server: Server)
    requires Distinct(a.store)
    ensures UpToDate(ShowPool(a, server), server)
  {
    SnapshotMirrors(a.store, server);
    PoolSnoc(a.trace, Emitting(StickyPoolShown(server.port, Snapshot(a.store, server.port, server.Fingerprint()))),
      server.port);
  }

  /** A selection for the port shows its pool; one for another port does not touch it. */
  lemma ConnectShowsNoPool(g: Setting, a: Actor, mine: Server, avoid: Option<PeerId>, port: Port)
    ensures LastPool(ConnectFor(g, a, mine, avoid).trace, port) == LastPool(a.trace, port)
  {
    var t := a.trace + [Selecting(mine.port)];
    var u := ConnectFor(g, a, mine, avoid).trace;
    PoolSnoc(a.trace, Selecting(mine.port), port);
    forall i | |t| <= i < |u| ensures !ShowsPoolOf(u[i], port) {
      ConnectIsDisciplined(g.W(), a.store, t, mine, avoid, i);
      assert ConnectAct(u[i]);
    }
    PoolStretch(t, u, port);
  }

  lemma SelectLastPool(g: Setting, a: Actor, mine: Server, avoid: Option<PeerId>, port: Port)
    ensures var o := ConnectFor(g, a, mine, avoid);
            LastPool(Select(g, a, mine, avoid).actor.trace, port)
            == if mine.port == port then Some(Snapshot(o.store, mine.port, mine.Fingerprint()))
               else LastPool(a.trace, port)
  {
    hide ConnectFor, Snapshot, LastPool;
    var o := ConnectFor(g, a, mine, avoid);
    var shown := Emitting(StickyPoolShown(mine.port, Snapshot(o.store, mine.port, mine.Fingerprint())));
    ConnectShowsNoPool(g, a, mine, avoid, port);
    PoolSnoc(o.trace, shown, port);
    PoolSnoc(o.trace + [shown], Emitting(ActiveDestination(mine.port, Chosen(o), SourceOf(o))), port);
  }

  lemma SelectSettles(g: Setting, a: Actor, mine: Server, avoid: Option<PeerId>, server: Server)
    requires Honest(g.net) && Distinct(a.store) && mine.Valid() && (mine.port == server.port ==> mine == server)
    ensures var b := Select(g, a, mine, avoid).actor;
            if mine == server then Distinct(b.store) && UpToDate(b, server) else Aloof(a, b, server)
  {
    SelectEffect(g, a, mine, avoid);
    SelectLastPool(g, a, mine, avoid, server.port);
    SelectHistory(g, a, mine, avoid, server.port);
    SelectKeepsStore(g, a, mine, avoid);
    hide Select, ConnectFor, LastPool, HistoryOf, Snapshot;
    if mine == server { SnapshotMirrors(Select(g, a, mine, avoid).actor.store, server); }
  }

  lemma SelectKeepsStore(g: Setting, a: Actor, server: Server, avoid: Option<PeerId>)
    ensures Select(g, a, server, avoid).actor.store == ConnectFor(g, a, server, avoid).store
  {
  }

  lemma DiscoverSettles(g: Setting, a: Actor, port: Port, avoid: Option<PeerId>, server: Server)
    requires Honest(g.net) && WellSet(g) && Distinct(a.store) && server in g.servers
    ensures var b := DiscoverPort(g, a, port, avoid).actor;
            if port == server.port then Distinct(b.store) && UpToDate(b, server) else Aloof(a, b, server)
  {
    hide Select, LastPool, HistoryOf, Mirrors;
    var b := a.(pending := a.pending - {port});
    var found := FindServer(g.servers, port);
    if found.Some? { SelectSettles(g, b, found.value, avoid, server); }
  }

  lemma {:induction false} DiscoverPortsSettle(g: Setting, a: Actor, ports: seq<Port>, server: Server)
    requires Honest(g.net) && WellSet(g) && Distinct(a.store) && server in g.servers
    ensures Distinct(DiscoverPorts(g, a, ports).store)
    decreases |ports|
  {
    hide DiscoverPort, WellSet, Honest;
    if ports != [] {
      DiscoverSettles(g, a, ports[0], None, server);
      DiscoverPortsSettle(g, DiscoverPort(g, a, ports[0], None).actor, ports[1..], server);
    }
  }

  // ---------- a closed peer ----------

  lemma ThrottleAloof(g: Setting, a: Actor, port: Port, remaining: nat, server: Server)
    requires Distinct(a.store)
    ensures Aloof(a, Throttle(g, a, port, remaining), server)
  {
    var b := a.Noting(Throttling(port));
    Recorded(a, b, Throttling(port), server);
    var c := PointTo(b, port, None, None);
    Recorded(b, c, Emitting(ActiveDestination(port, None, None)), server);
    AloofAlong(a, b, c, server);
    if port !in c.pending {
      var timer := Timer(port, g.net.now(c.trace), remaining);
      Recorded(c, Throttle(g, a, port, remaining), Spawning(timer), server);
      AloofAlong(a, c, Throttle(g, a, port, remaining), server);
    }
  }

  lemma RediscoverSettles(g: Setting, a: Actor, port: Port, peer: PeerId, server: Server)
    requires Honest(g.net) && WellSet(g) && Distinct(a.store) && server in g.servers
    ensures var b := Rediscover(g, a, port, peer);
            if port == server.port then Distinct(b.store) && UpToDate(b, server) else Aloof(a, b, server)
  {
    hide DiscoverPort, LastPool, HistoryOf, WellSet, Honest, UpToDate;
    var now := g.net.now(a.trace);
    var a1 := a.(lastRediscovery := a.lastRediscovery[port := now]);
    var b := a1.Noting(ReadingClock(now));
    var c := b.Noting(Rediscovering(port, now));
    Recorded(a, b, ReadingClock(now), server);
    Recorded(b, c, Rediscovering(port, now), server);
    AloofAlong(a, b, c, server);
    DiscoverSettles(g, c, port, Some(peer), server);
    if port != server.port { AloofAlong(a, c, Rediscover(g, a, port, peer), server); }
  }

  lemma CloseSettles(g: Setting, a: Actor, peer: PeerId, port: Port, server: Server)
    requires Honest(g.net) && WellSet(g) && Distinct(a.store) && server in g.servers
    ensures var b := ClosePort(g, a, peer, port);
            if port == server.port then Settled(a, b, server) else Aloof(a, b, server)
  {
    hide Rediscover, Throttle, LastPool, HistoryOf, WellSet, Honest, UpToDate, PoolOf;
    if port !in a.lastRediscovery {
      RediscoverSettles(g, a, port, peer, server);
    } else {
      var now := g.net.now(a.trace);
      var b := a.Noting(ReadingClock(now));
      Recorded(a, b, ReadingClock(now), server);
      if Elapsed(b, port, now) < REDISCOVERY_COOLDOWN {
        var remaining := REDISCOVERY_COOLDOWN - Elapsed(b, port, now);
        ThrottleAloof(g, b, port, remaining, server);
        AloofAlong(a, b, Throttle(g, b, port, remaining), server);
        AloofSettles(a, Throttle(g, b, port, remaining), server);
      } else {
        RediscoverSettles(g, b, port, peer, server);
        if port != server.port { AloofAlong(a, b, Rediscover(g, b, port, peer), server); }
      }
    }
  }

  lemma {:induction false} ClosePortsSettle(g: Setting, a: Actor, peer: PeerId, ports: seq<Port>, server: Server)
    requires Honest(g.net) && WellSet(g) && Distinct(a.store) && server in g.servers && Sequences.NoDuplicates(ports)
    ensures var b := ClosePorts(g, a, peer, ports);
            if server.port in ports then Settled(a, b, server) else Aloof(a, b, server)
    decreases |ports|
  {
    hide ClosePort, WellSet, Honest, LastPool, HistoryOf, UpToDate, PoolOf;
    if ports != [] {
      assert ports == [ports[0]] + ports[1..];
      assert ports[0] !in ports[1..];
      var b, c := ClosePort(g, a, peer, ports[0]), ClosePorts(g, a, peer, ports);
      CloseSettles(g, a, peer, ports[0], server);
      ClosePortsSettle(g, b, peer, ports[1..], server);
      if ports[0] == server.port {
        ThenAloof(a, b, c, server);
      } else if server.port in ports[1..] {
        AloofThen(a, b, c, server);
      } else {
        AloofAlong(a, b, c, server);
      }
    }
  }

  // ---------- a direct connection ----------

  lemma AdoptSettles(a: Actor, mine: Server, peer: PeerId, source: DestinationSource, server: Server)
    requires Distinct(a.store) && (mine.port == server.port ==> mine == server)
    ensures var b := Adopt(a, mine, peer, source);
            if mine == server then Distinct(b.store) && UpToDate(b, server) else Aloof(a, b, server)
  {
    var b := a.(store := Remember(a.store, mine.port, mine.Fingerprint(), peer, mine.maxTotal));
    RememberView(a.store, mine.port, mine.Fingerprint(), peer, mine.maxTotal);
    var c := PointTo(b, mine.port, Some(peer), Some(source));
    hide LastPool, HistoryOf, Mirrors, Promote, Snapshot;
    if mine == server {
      ShowPoolUpdates(c, server);
    } else {
      Recorded(b, c, Emitting(ActiveDestination(mine.port, Some(peer), Some(source))), server);
      Recorded(c, ShowPool(c, mine), Emitting(StickyPoolShown(mine.port, Snapshot(c.store, mine.port,
        mine.Fingerprint()))), server);
      AloofAlong(b, c, ShowPool(c, mine), server);
    }
  }

  lemma RotateSettles(g: Setting, a: Actor, candidate: PeerId, port: Port, server: Server)
    requires WellSet(g) && Distinct(a.store) && server in g.servers
    ensures var b := RotatePort(g, a, candidate, port);
            if port == server.port then Settled(a, b, server) else Aloof(a, b, server)
  {
    hide Adopt, LastPool, HistoryOf, UpToDate;
    var found := FindServer(g.servers, port);
    if found.Some? {
      var b := a.(store := Invalidate(a.store, port, found.value.Fingerprint()));
      InvalidateView(a.store, port, found.value.Fingerprint());
      AdoptSettles(b, found.value, candidate, StickyReuse, server);
      if port != server.port {
        assert Aloof(a, b, server);
        AloofAlong(a, b, if candidate in PoolIds(a.store, port, found.value.Fingerprint()) then
          Adopt(b, found.value, candidate, StickyReuse) else b, server);
      } else {
        assert found.value == server;
      }
    }
  }

  lemma {:induction false} RotatePortsSettle(g: Setting, a: Actor, candidate: PeerId, ports: seq<Port>, server: Server)
    requires WellSet(g) && Distinct(a.store) && server in g.servers && Sequences.NoDuplicates(ports)
    ensures var b := RotatePorts(g, a, candidate, ports);
            if server.port in ports then Settled(a, b, server) else Aloof(a, b, server)
    decreases |ports|
  {
    hide RotatePort, WellSet, LastPool, HistoryOf, UpToDate, PoolOf;
    if ports != [] {
      assert ports == [ports[0]] + ports[1..];
      assert ports[0] !in ports[1..];
      var b, c := RotatePort(g, a, candidate, ports[0]), RotatePorts(g, a, candidate, ports);
      RotateSettles(g, a, candidate, ports[0], server);
      RotatePortsSettle(g, b, candidate, ports[1..], server);
      if ports[0] == server.port {
        ThenAloof(a, b, c, server);
      } else if server.port in ports[1..] {
        AloofThen(a, b, c, server);
      } else {
        AloofAlong(a, b, c, server);
      }
    }
  }

  lemma ConnectedSettles(g: Setting, a: Actor, peer: PeerId, address: Multiaddr, relayed: bool, server: Server)
    requires FaithfulIteration(g.net) && WellSet(g) && Distinct(a.store) && server in g.servers
    ensures Settled(a, Connected(g, a, peer, address, relayed), server)
  {
    hide RotatePorts, LastPool, HistoryOf, UpToDate, Note;
    if !relayed {
      var b := a.(direct := a.direct + {peer}, store := Note(a.store, peer, address));
      var ports := g.net.iterate(b.trace, RelayStuck(b, peer));
      assert Lists(ports, RelayStuck(b, peer));
      NoteView(a.store, peer, address);
      RotatePortsSettle(g, b, peer, ports, server);
      if server.port !in ports { AloofSettles(b, RotatePorts(g, b, peer, ports), server); }
    }
  }

  // ---------- the other events ----------

  lemma {:induction false} ShowPoolsUpdate(a: Actor, servers: seq<Server>, server: Server)
    requires Distinct(a.store) && (forall s :: s in servers && s.port == server.port ==> s == server)
    requires server in servers || UpToDate(a, server)
    ensures var b := ShowPools(a, servers); b.store == a.store && UpToDate(b, server)
    decreases |servers|
  {
    hide LastPool, Mirrors, Snapshot;
    if servers != [] {
      var b := ShowPool(a, servers[0]);
      assert servers == [servers[0]] + servers[1..];
      if servers[0] == server {
        ShowPoolUpdates(a, server);
      } else {
        PoolSnoc(a.trace, b.trace[|a.trace|], server.port);
      }
      ShowPoolsUpdate(b, servers[1..], server);
    }
  }

  lemma UnusableSettles(g: Setting, a: Actor, peer: PeerId, server: Server)
    requires Honest(g.net) && WellSet(g) && Distinct(a.store) && server in g.servers
    ensures Settled(a, Unusable(g, a, peer), server)
  {
    hide DiscoverPorts, ShowPools, UpToDate, HistoryOf, LastPool, ForgetEverywhere, PoolOf;
    var b := a.(store := ForgetEverywhere(a.store, g.servers, peer));
    var ports := g.net.iterate(b.trace, ServedBy(b.destinations, peer));
    ForgetEverywhereEffect(a.store, g.servers, peer, server);
    DiscoverPortsSettle(g, b, ports, server);
    ShowPoolsUpdate(DiscoverPorts(g, b, ports), g.servers, server);
  }

  lemma PickSettles(g: Setting, a: Actor, port: Port, peer: PeerId, server: Server)
    requires WellSet(g) && Distinct(a.store) && server in g.servers
    ensures Settled(a, Pick(g, a, port, peer), server)
  {
    hide TryReach, Adopt, LastPool, HistoryOf, UpToDate;
    var found := FindServer(g.servers, port);
    if found.Some? {
      var r := TryReach(g.W(), a.store, a.trace, port, peer);
      var b := a.(trace := r.trace);
      ReachAloof(g, a, port, peer, server);
      if r.peer.Some? {
        var c := Adopt(b, found.value, r.peer.value, Manual);
        AdoptSettles(b, found.value, r.peer.value, Manual, server);
        if found.value != server {
          AloofAlong(a, b, c, server);
          AloofSettles(a, c, server);
        }
      } else {
        var c := b.Noting(Emitting(ErrorShown));
        Recorded(b, c, Emitting(ErrorShown), server);
        AloofAlong(a, b, c, server);
        AloofSettles(a, c, server);
      }
    }
  }

  lemma ReachAloof(g: Setting, a: Actor, port: Port, peer: PeerId, server: Server)
    requires Distinct(a.store)
    ensures Aloof(a, a.(trace := TryReach(g.W(), a.store, a.trace, port, peer).trace), server)
  {
    var u := TryReach(g.W(), a.store, a.trace, port, peer).trace;
    ReachStretch(g, a, port, peer);
    Stretch(a.trace, u, server.port);
    hide TryReach;
    forall i | |a.trace| <= i < |u| ensures !ShowsPoolOf(u[i], server.port) { assert ConnectAct(u[i]); }
    PoolStretch(a.trace, u, server.port);
  }

  /** After every event, for every port: either what was last shown is exactly its pool, with
      the addresses remembered, or the event has shown nothing, selected nothing and changed
      nothing of that pool. */
  lemma HandleSettles(g: Setting, a: Actor, e: DiscoveryEvent, server: Server)
    requires Sound(g) && WellSet(g) && Distinct(a.store) && server in g.servers
    ensures Settled(a, Handle(g, a, e), server)
  {
    hide DiscoverPort, ClosePorts, Connected, Unusable, Pick, LastPool, HistoryOf, UpToDate, PoolOf, WellSet;
    match e
    case DiscoverFor(port) => DiscoveredSettles(g, a, port, server);
    case RequestNewPeer(port) =>
      var r := DiscoverPort(g, a, port, None);
      DiscoveredSettles(g, a, port, server);
      Recorded(r.actor, r.actor.Noting(Replying(port, r.peer)), Replying(port, r.peer), server);
      ThenAloof(a, r.actor, r.actor.Noting(Replying(port, r.peer)), server);
    case PeerClosed(peer) => ClosedSettles(g, a, peer, server);
    case PeerUnusable(peer) => UnusableSettles(g, a, peer, server);
    case PeerConnected(peer, address, relayed) => ConnectedSettles(g, a, peer, address, relayed, server);
    case SelectPeer(port, peer) => PickSettles(g, a, port, peer, server);
  }

  lemma DiscoveredSettles(g: Setting, a: Actor, port: Port, server: Server)
    requires Honest(g.net) && WellSet(g) && Distinct(a.store) && server in g.servers
    ensures Settled(a, DiscoverPort(g, a, port, None).actor, server)
  {
    hide DiscoverPort, LastPool, HistoryOf, UpToDate, PoolOf, WellSet;
    DiscoverSettles(g, a, port, None, server);
    if port != server.port { AloofSettles(a, DiscoverPort(g, a, port, None).actor, server); }
  }

  lemma ClosedSettles(g: Setting, a: Actor, peer: PeerId, server: Server)
    requires Sound(g) && WellSet(g) && Distinct(a.store) && server in g.servers
    ensures Settled(a, PeerGone(g, a, peer), server)
  {
    hide ClosePorts, LastPool, HistoryOf, UpToDate, WellSet;
    var ports := g.net.iterate(a.trace, ServedBy(a.destinations, peer));
    assert Lists(ports, ServedBy(a.destinations, peer));
    var b := a.(direct := a.direct - {peer});
    ClosePortsSettle(g, b, peer, ports, server);
    if server.port !in ports { AloofSettles(b, ClosePorts(g, b, peer, ports), server); }
  }

  // ---------- whole runs ----------

  /** The pool last shown has exactly the members of the pool, in order; one is shown as soon
      as an exit has been selected. */
  ghost predicate Current(a: Actor, server: Server) {
    var shown := LastPool(a.trace, server.port);
    && (shown.Some? ==>
          && |shown.value| == |PoolOf(a.store, server)|
          && forall k :: 0 <= k < |shown.value| ==> shown.value[k].peerId == PoolOf(a.store, server)[k])
    && (HistoryOf(a.trace, server.port).selected > 0 ==> shown.Some?)
  }

  lemma SettledIsCurrent(a: Actor, b: Actor, server: Server)
    requires Current(a, server) && Settled(a, b, server)
    ensures Current(b, server)
  {
    hide LastPool, HistoryOf, PoolOf;
  }

  lemma StepSettles(g: Setting, sys: System, step: Step, server: Server)
    requires Sound(g) && WellSet(g) && Distinct(sys.actor.store) && server in g.servers
    ensures Settled(sys.actor, Apply(g, sys, step).actor, server)
  {
    hide Handle, LastPool, HistoryOf, UpToDate, PoolOf, WellSet;
    match step
    case Deliver(e) => HandleSettles(g, sys.actor, e, server);
    case Tick =>
      var now := g.net.now(sys.actor.trace);
      Recorded(sys.actor, Apply(g, sys, step).actor, ReadingClock(now), server);
      AloofSettles(sys.actor, Apply(g, sys, step).actor, server);
    case _ =>
  }

  /** Over every run: the sticky pool last shown for a port has exactly the members of its
      valid pool, in order, and one is shown once an exit has been selected for it; and an
      event that selects an exit shows the pool it leaves, with its addresses. */
  lemma {:induction false} ShownPoolIsThePool(g: Setting, start: System, run: seq<Step>, e: DiscoveryEvent,
                                              server: Server)
    requires Scenario(g, start, run) && server in g.servers
    ensures var a := Execute(g, start, run).actor;
            var b := Handle(g, a, e);
            && Current(a, server)
            && (HistoryOf(b.trace, server.port).selected > HistoryOf(a.trace, server.port).selected ==>
                  UpToDate(b, server))
  {
    RunKeepsPools(g, start, run);
    HandleSettles(g, Execute(g, start, run).actor, e, server);
    if run != [] {
      var front := run[..|run| - 1];
      ShownPoolIsThePool(g, start, front, e, server);
      RunKeepsPools(g, start, front);
      StepSettles(g, Execute(g, start, front), run[|run| - 1], server);
      hide Apply, Handle, LastPool, HistoryOf, Settled, UpToDate;
      SettledIsCurrent(Execute(g, start, front).actor, Execute(g, start, run).actor, server);
    }
  }

  // ---------- the view ----------

  /** The discovery actor's events among those the view has heard. */
  function OfTheActor(heard: seq<UiEvent>): seq<Event> {
    if heard == [] then []
    else OfTheActor(heard[..|heard| - 1])
         + (if heard[|heard| - 1].Protocol? then [heard[|heard| - 1].event] else [])
  }

  lemma HeardSnoc(heard: seq<UiEvent>, e: UiEvent)
    ensures OfTheActor(heard + [e]) == OfTheActor(heard) + (if e.Protocol? then [e.event] else [])
  {
    assert (heard + [e])[..|heard|] == heard;
  }

  lemma {:induction false} HeardLinks(heard: seq<UiEvent>, more: seq<UiEvent>)
    requires forall k :: 0 <= k < |more| ==> !more[k].Protocol?
    ensures OfTheActor(heard + more) == OfTheActor(heard)
    decreases |more|
  {
    if more == [] {
      assert heard + more == heard;
    } else {
      var front := more[..|more| - 1];
      assert heard + more == heard + front + [more[|more| - 1]];
      HeardLinks(heard, front);
      HeardSnoc(heard + front, more[|more| - 1]);
    }
  }

  lemma ItemHeard(j: Joint, item: Item)
    requires item.Overheard? ==> Foreign(item.other)
    ensures OfTheActor(Hear(j, item).heard)
            == OfTheActor(j.heard) + (if item.Own? && item.act.Emitting? then [item.act.event] else [])
  {
    hide OfTheActor, React;
    match item
    case Own(act) => if act.Emitting? { HeardSnoc(j.heard, Protocol(act.event)); }
    case Overheard(e) => HeardSnoc(j.heard, e);
    case Link(input) =>
      forall k | 0 <= k < |HeardOn(input)| ensures !HeardOn(input)[k].Protocol? {}
      HeardLinks(j.heard, HeardOn(input));
  }

  lemma {:induction false} ItemsHeard(j: Joint, items: seq<Item>)
    requires forall i :: 0 <= i < |items| && items[i].Overheard? ==> Foreign(items[i].other)
    ensures OfTheActor(HearAll(j, items).heard) == OfTheActor(j.heard) + Owned(items)
    decreases |items|
  {
    hide OfTheActor, Owned, Foreign;
    if items == [] {
      assert Owned(items) == [] by { NothingOwned(); }
    } else {
      var front := items[..|items| - 1];
      ItemsHeard(j, front);
      ItemHeard(HearAll(j, front), items[|items| - 1]);
      OwnedSnoc(items);
      hide Hear;
      var last := items[|items| - 1];
      var more := if last.Own? && last.act.Emitting? then [last.act.event] else [];
      assert OfTheActor(j.heard) + (Owned(front) + more) == OfTheActor(j.heard) + Owned(front) + more;
    }
  }

  lemma NothingOwned()
    ensures Owned([]) == []
  {
  }

  /** The view hears exactly what the discovery actor emits, in that order, whatever else it
      hears in between. */
  lemma {:induction false} ViewHearsTheActor(g: Setting, start: Joint, run: seq<JointStep>)
    requires JointScenario(g, start, run)
    ensures var j := ExecuteJoint(g, start, run); OfTheActor(j.heard) == Emitted(j.sys.actor.trace)
  {
    hide OfTheActor, Apply, Emitted, Enabled, Sound, WellSet;
    if run == [] {
      assert start.sys.actor.trace == [] && start.heard == [];
      NothingHeard();
    } else {
      var front, s := run[..|run| - 1], run[|run| - 1];
      ViewHearsTheActor(g, start, front);
      StepHeard(g, ExecuteJoint(g, start, front), s);
    }
  }

  lemma NothingHeard()
    ensures OfTheActor([]) == [] && Emitted([]) == []
  {
  }

  lemma StepHeard(g: Setting, j: Joint, s: JointStep)
    requires JointEnabled(g, j, s) && OfTheActor(j.heard) == Emitted(j.sys.actor.trace)
    ensures var next := ApplyJoint(g, j, s); OfTheActor(next.heard) == Emitted(next.sys.actor.trace)
  {
    hide OfTheActor, Apply, Emitted, Enabled, Foreign;
    match s
    case Meanwhile(items) =>
      ItemsHeard(j, items);
      SameActor(j, items);
      NothingHeard();
      assert OfTheActor(j.heard) + [] == OfTheActor(j.heard);
    case Take(step, items) =>
      var mid := j.(sys := Apply(g, j.sys, step));
      ItemsHeard(mid, items);
      SameActor(mid, items);
      EmittedAlong(j.sys.actor.trace, Acted(items));
  }

  /** The pool rows last shown in a list of the actor's events. */
  function PoolIn(events: seq<Event>, port: Port): Option<seq<PoolPeer>> {
    if events == [] then None
    else
      var e := events[|events| - 1];
      if e.StickyPoolShown? && e.port == port then Some(e.peers) else PoolIn(events[..|events| - 1], port)
  }

  lemma {:induction false} PoolHeard(heard: seq<UiEvent>, port: Port)
    ensures LastStickyPool(heard, port) == PoolIn(OfTheActor(heard), port)
  {
    if heard != [] {
      var front, e := heard[..|heard| - 1], heard[|heard| - 1];
      PoolHeard(front, port);
      if e.Protocol? {
        assert (OfTheActor(front) + [e.event])[..|OfTheActor(front)|] == OfTheActor(front);
      } else {
        assert OfTheActor(front) + [] == OfTheActor(front);
      }
    }
  }

  lemma {:induction false} PoolEmitted(t: Trace, port: Port)
    ensures LastPool(t, port) == PoolIn(Emitted(t), port)
  {
    if t != [] {
      var front, act := t[..|t| - 1], t[|t| - 1];
      PoolEmitted(front, port);
      if act.Emitting? {
        assert (Emitted(front) + [act.event])[..|Emitted(front)|] == Emitted(front);
      } else {
        assert Emitted(front) + [] == Emitted(front);
      }
    }
  }

  /** Over every joint run and interleaving, once an exit has been selected for a port, the
      sticky pool the view shows for it is exactly the pool the discovery actor remembers;
      before that it shows it or none. */
  lemma ViewShowsThePool(g: Setting, start: Joint, run: seq<JointStep>, server: Server)
    requires JointScenario(g, start, run) && server in g.servers
    ensures var j := ExecuteJoint(g, start, run);
            var port, shown := server.port, ViewOf(j).stickyPools;
            && (port in shown ==> shown[port] == PoolOf(j.sys.actor.store, server))
            && (HistoryOf(j.sys.actor.trace, port).selected > 0 ==> port in shown)
  {
    var j := ExecuteJoint(g, start, run);
    var steps := Projected(start.net.bootstrap, run);
    JointIsARun(g, start, run);
    ShownPoolIsThePool(g, start.sys, steps, DiscoverFor(0), server);
    ViewHearsTheActor(g, start, run);
    PoolHeard(j.heard, server.port);
    PoolEmitted(j.sys.actor.trace, server.port);
    LastSaidIsShown(j.heard, server.port);
    hide ExecuteJoint, Execute, Handle, HistoryOf, LastPool, LastStickyPool, PoolIn, PoolOf, ReduceAll, UpToDate;
    hide JointScenario, Scenario, LastStatuses, LastSource, LastLocal;
  }
}

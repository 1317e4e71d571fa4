/** No exit is announced on trust: whatever the world answers, the trace shows the dial or
    the connection test by which a selection reached it, within the same event. */
module ReachedExits {
  import opened Wrappers
  import opened Selection
  import opened Sticky
  import opened Config
  import opened Environments
  import opened ConnectSpec
  import opened ConnectEffort
  import opened DiscoverySpec
  import Backoffs

  /** The act shows that the peer was reached by a dial or, for a better pin, that it was
      found to be connected. */
  predicate Reaches(act: Act, peer: PeerId, pinned: bool) {
    || (act.Dialling? && Reached(act.reached) == Some(peer))
    || (pinned && act == AskingConnected(peer, true))
  }

  ghost predicate ReachedIn(t: Trace, u: Trace, peer: PeerId, pinned: bool) {
    exists k :: |t| <= k < |u| && Reaches(u[k], peer, pinned)
  }

  lemma ReachedStays(t: Trace, u: Trace, v: Trace, w: Trace, peer: PeerId, pinned: bool)
    requires ReachedIn(u, v, peer, pinned) && |t| <= |u| && v <= w
    ensures ReachedIn(t, w, peer, pinned)
  {
    var k :| |u| <= k < |v| && Reaches(v[k], peer, pinned);
    assert w[k] == v[k];
  }

  lemma ReachedByPin(t: Trace, u: Trace, peer: PeerId)
    requires ReachedIn(t, u, peer, false)
    ensures ReachedIn(t, u, peer, true)
  {
    var k :| |t| <= k < |u| && Reaches(u[k], peer, false);
    assert Reaches(u[k], peer, true);
  }

  // ---------- a connect reaches the exit it returns ----------

  lemma RaceReached(w: World, t: Trace, routes: set<Multiaddr>)
    ensures var r := DialRoutes(w, t, routes); r.peer.Some? ==> ReachedIn(t, r.trace, r.peer.value, false)
  {
    var r := DialRoutes(w, t, routes);
    if r.peer.Some? { assert Reaches(r.trace[|r.trace| - 1], r.peer.value, false); }
  }

  lemma PeerReached(w: World, s: Store, t: Trace, port: Port, peer: PeerId)
    ensures var r := TryReach(w, s, t, port, peer); r.peer.Some? ==> ReachedIn(t, r.trace, r.peer.value, false)
  {
    hide DialRoutes, ReachedIn;
    var reply := w.net.resolve(t, [peer]);
    var t1 := t + [Resolving([peer], reply)];
    var r := TryReach(w, s, t, port, peer);
    RaceReached(w, t1, ReachRoutes(w.relay, s, port, peer, UsableRoutes(w.relay, [peer], reply)));
    if r.peer.Some? { ReachedStays(t, t1, r.trace, r.trace, r.peer.value, false); }
  }

  lemma {:induction false} FightReached(w: World, s: Store, t: Trace, port: Port, peer: PeerId, attempt: nat)
    ensures var r := Reconnect(w, s, t, port, peer, attempt);
            r.peer.Some? ==> ReachedIn(t, r.trace, r.peer.value, false)
    decreases STICKY_RECONNECT_ATTEMPTS - attempt
  {
    hide TryReach, ReachedIn;
    if attempt < STICKY_RECONNECT_ATTEMPTS {
      var u := AfterAttempt(TryReach(w, s, t, port, peer).trace, attempt);
      PeerReached(w, s, t, port, peer);
      FightReached(w, s, u, port, peer, attempt + 1);
      var r := Reconnect(w, s, u, port, peer, attempt + 1);
      if r.peer.Some? { ReachedStays(t, u, r.trace, r.trace, r.peer.value, false); }
    }
  }

  lemma {:induction false} WalkReached(w: World, s: Store, t: Trace, port: Port, peers: seq<PeerId>,
                                       skip: Option<PeerId>)
    ensures var r := WalkPool(w, s, t, port, peers, skip); r.peer.Some? ==> ReachedIn(t, r.trace, r.peer.value, false)
    decreases |peers|
  {
    hide TryReach, ReachedIn;
    if peers != [] {
      if Some(peers[0]) == skip {
        WalkReached(w, s, t, port, peers[1..], skip);
      } else {
        var u := TryReach(w, s, t, port, peers[0]).trace;
        PeerReached(w, s, t, port, peers[0]);
        WalkReached(w, Forget(s, port, peers[0]), u, port, peers[1..], skip);
        var r := WalkPool(w, Forget(s, port, peers[0]), u, port, peers[1..], skip);
        if r.peer.Some? { ReachedStays(t, u, r.trace, r.trace, r.peer.value, false); }
      }
    }
  }

  lemma AttemptReached(w: World, t: Trace, server: Server)
    ensures var r := DiscoverOnce(w, t, server); r.peer.Some? ==> ReachedIn(t, r.trace, r.peer.value, false)
  {
    hide DialRoutes, ReachedIn;
    var r := DiscoverOnce(w, t, server);
    if r.peer.Some? {
      var found := w.net.findNodes(t, server, FINDNODES_DISCOVERY_LIMIT);
      var t2 := t + [FindingNodes(server.port, FINDNODES_DISCOVERY_LIMIT, found)]
        + [Emitting(ServerPool(server.port, found.value))];
      RaceReached(w, t2, CandidateAddresses(w.relay, found.value));
      ReachedStays(t, t2, r.trace, r.trace, r.peer.value, false);
    }
  }

  lemma {:induction false} DiscoveryReached(w: World, s: Store, t: Trace, server: Server, attempt: nat)
    ensures var r := Discover(w, s, t, server, attempt);
            r.result.Ok? ==> ReachedIn(t, r.trace, r.result.value.peer, false)
    decreases MAX_DISCOVERY_ATTEMPTS - attempt
  {
    hide DiscoverOnce, ReachedIn;
    if attempt < MAX_DISCOVERY_ATTEMPTS {
      var u := DiscoverOnce(w, t, server).trace;
      AttemptReached(w, t, server);
      DiscoveryReached(w, s, u, server, attempt + 1);
      var r := Discover(w, s, u, server, attempt + 1);
      if r.result.Ok? { ReachedStays(t, u, r.trace, r.trace, r.result.value.peer, false); }
    }
  }

  lemma FreshReached(w: World, s: Store, t: Trace, server: Server, skip: Option<PeerId>)
    ensures var r := ConnectFresh(w, s, t, server, skip);
            r.result.Ok? ==> ReachedIn(t, r.trace, r.result.value.peer, false)
  {
    hide WalkPool, Discover, ReachedIn;
    var fp := server.Fingerprint();
    WalkReached(w, Invalidate(s, server.port, fp), t, server.port, PoolIds(s, server.port, fp), skip);
    var pass := ConnectPool(w, s, t, server, skip);
    DiscoveryReached(w, pass.store, pass.trace, server, 0);
    var r := Discover(w, pass.store, pass.trace, server, 0);
    if r.result.Ok? { ReachedStays(t, pass.trace, r.trace, r.trace, r.result.value.peer, false); }
  }

  lemma DiscoveredReached(w: World, s: Store, t: Trace, server: Server, avoid: Option<PeerId>)
    ensures var r := ConnectDiscovered(w, s, t, server, avoid);
            r.result.Ok? ==> ReachedIn(t, r.trace, r.result.value.peer, false)
  {
    hide Reconnect, ConnectFresh, ReachedIn;
    var s1, t1 := s, t;
    if Fights(server, avoid) {
      FightReached(w, s, t, server.port, avoid.value, 0);
      s1, t1 := Forget(s, server.port, avoid.value), Reconnect(w, s, t, server.port, avoid.value, 0).trace;
    }
    FreshReached(w, s1, t1, server, avoid);
    var r := ConnectFresh(w, s1, t1, server, avoid);
    if r.result.Ok? { ReachedStays(t, t1, r.trace, r.trace, r.result.value.peer, false); }
  }

  lemma {:induction false} RanksReached(w: World, t: Trace, pinned: seq<DestinationPeerEntry>, routes: Routes,
                                        rank: nat)
    ensures var r := TryRanks(w, t, pinned, routes, rank); r.peer.Some? ==> ReachedIn(t, r.trace, r.peer.value, false)
    decreases |pinned| - rank
  {
    hide DialRoutes, ReachedIn;
    if rank < |pinned| {
      var candidate := CandidateRoutes(pinned[rank], routes);
      if candidate == {} {
        RanksReached(w, t, pinned, routes, rank + 1);
      } else {
        var u := DialRoutes(w, t, candidate).trace;
        RaceReached(w, t, candidate);
        RanksReached(w, u, pinned, routes, rank + 1);
        var r := TryRanks(w, u, pinned, routes, rank + 1);
        if r.peer.Some? { ReachedStays(t, u, r.trace, r.trace, r.peer.value, false); }
      }
    }
  }

  lemma {:induction false} AdoptedReached(w: World, t: Trace, u: Trace, pinned: seq<DestinationPeerEntry>,
                                          better: nat, rank: nat, peer: PeerId)
    requires rank <= |pinned| && t <= u && ReachedIn(t, u, peer, true)
    ensures var r := AdoptBest(w, u, pinned, better, rank, peer); ReachedIn(t, r.trace, r.peer.value, true)
    decreases rank - better
  {
    if better < rank {
      var connected := w.net.isConnected(u, pinned[better].peerId);
      var v := u + [AskingConnected(pinned[better].peerId, connected)];
      if connected {
        assert Reaches(v[|u|], pinned[better].peerId, true);
      } else {
        ReachedStays(t, t, u, v, peer, true);
        AdoptedReached(w, t, v, pinned, better + 1, rank, peer);
      }
    }
  }

  lemma PassReached(w: World, t: Trace, server: Server)
    requires PinnedPass(w, t, server).peer.Some?
    ensures var tried := PinnedPass(w, t, server);
            var best := AdoptBest(w, tried.trace, server.Pinned(), 0, tried.rank, tried.peer.value);
            ReachedIn(t, best.trace, best.peer.value, true)
  {
    hide TryRanks, AdoptBest, ReachedIn;
    var pinned := server.Pinned();
    var t1 := PinnedPrelude(w, t, server.port, pinned);
    var tried := PinnedPass(w, t, server);
    RanksReached(w, t1, pinned, PinnedRoutes(w, t, pinned), 0);
    ReachedByPin(t1, tried.trace, tried.peer.value);
    ReachedStays(t, t1, tried.trace, tried.trace, tried.peer.value, true);
    AdoptedReached(w, t, tried.trace, pinned, 0, tried.rank, tried.peer.value);
  }

  /** The exit of a connect was reached in it. */
  ghost predicate Earned(t: Trace, r: Outcome) {
    r.result.Ok? ==> ReachedIn(t, r.trace, r.result.value.peer, r.result.value.source.Pinned?)
  }

  lemma EarnedSince(t: Trace, u: Trace, r: Outcome)
    requires Earned(u, r) && |t| <= |u|
    ensures Earned(t, r)
  {
    if r.result.Ok? { ReachedStays(t, u, r.trace, r.trace, r.result.value.peer, r.result.value.source.Pinned?); }
  }

  lemma DiscoveredEarned(w: World, s: Store, t: Trace, server: Server, avoid: Option<PeerId>)
    ensures Earned(t, ConnectDiscovered(w, s, t, server, avoid))
  {
    hide ConnectDiscovered, ReachedIn;
    DiscoveredReached(w, s, t, server, avoid);
    var r := ConnectDiscovered(w, s, t, server, avoid);
    if r.result.Ok? { ReachedByPin(t, r.trace, r.result.value.peer); }
  }

  lemma {:induction false} PinnedEarned(w: World, s: Store, t: Trace, server: Server, pass: nat)
    ensures Earned(t, ConnectPinned(w, s, t, server, pass))
    decreases MAX_PINNED_PASSES - pass
  {
    hide PinnedPass, ConnectDiscovered, AdoptBest, ReachedIn;
    if pass < MAX_PINNED_PASSES {
      var tried := PinnedPass(w, t, server);
      if tried.peer.Some? {
        PassReached(w, t, server);
      } else if server.fallbackToDiscovery {
        DiscoveredEarned(w, s, tried.trace, server, None);
        EarnedSince(t, tried.trace, ConnectPinned(w, s, t, server, pass));
      } else {
        var next := tried.trace + [Sleeping(Backoffs.SECOND)];
        PinnedEarned(w, s, next, server, pass + 1);
        EarnedSince(t, next, ConnectPinned(w, s, t, server, pass));
      }
    }
  }

  /** Whatever the world answers, a connect's exit was dialled and reached in that very
      connect, or is a better pin that the dialer said was connected. */
  lemma ConnectEarned(w: World, s: Store, t: Trace, server: Server, avoid: Option<PeerId>)
    ensures Earned(t, Connect(w, s, t, server, avoid))
  {
    if server.Pinned() == [] {
      DiscoveredEarned(w, s, t, server, avoid);
    } else {
      PinnedEarned(w, s, t, server, 0);
    }
  }

  // ---------- so does an event ----------

  /** Act i announces the peer as an exit from this source. */
  predicate ExitAt(u: Trace, i: nat, peer: PeerId, source: DestinationSource) {
    i < |u| && u[i].Emitting? && u[i].event.ActiveDestination? && u[i].event.peer == Some(peer)
      && u[i].event.source == Some(source)
  }

  predicate Announcement(act: Act) {
    act.Emitting? && act.event.ActiveDestination? && act.event.peer.Some?
  }

  /** Every announcement after t names a source, and an exit reached since t. */
  ghost predicate Grounded(t: Trace, u: Trace) {
    && (forall i :: |t| <= i < |u| && Announcement(u[i]) ==> u[i].event.source.Some?)
    && (forall i: nat, q, source :: |t| <= i && ExitAt(u, i, q, source) ==> ReachedIn(t, u[..i], q, source.Pinned?))
  }

  lemma GroundedThen(t: Trace, u: Trace, v: Trace)
    requires Grounded(t, u) && Grounded(u, v) && t <= u <= v
    ensures Grounded(t, v)
  {
    hide ReachedIn;
    assert forall i :: 0 <= i < |u| ==> v[i] == u[i];
    forall i: nat, q, source | |t| <= i && ExitAt(v, i, q, source) ensures ReachedIn(t, v[..i], q, source.Pinned?) {
      if i < |u| {
        assert ExitAt(u, i, q, source) && v[..i] == u[..i];
      } else {
        ReachedStays(t, u, v[..i], v[..i], q, source.Pinned?);
      }
    }
  }

  lemma GroundedQuiet(t: Trace, u: Trace)
    requires t <= u && forall i :: |t| <= i < |u| ==> !Announcement(u[i])
    ensures Grounded(t, u)
  {
  }

  lemma GroundedOne(t: Trace, act: Act)
    requires !Announcement(act)
    ensures Grounded(t, t + [act])
  {
  }

  lemma GroundedExit(t: Trace, u: Trace, port: Port, peer: PeerId, source: DestinationSource)
    requires Grounded(t, u) && t <= u && ReachedIn(t, u, peer, source.Pinned?)
    ensures Grounded(t, u + [Emitting(ActiveDestination(port, Some(peer), Some(source)))])
  {
    hide ReachedIn;
    var v := u + [Emitting(ActiveDestination(port, Some(peer), Some(source)))];
    assert forall i :: 0 <= i < |u| ==> v[i] == u[i];
    forall i: nat, q, from | |t| <= i && ExitAt(v, i, q, from) ensures ReachedIn(t, v[..i], q, from.Pinned?) {
      if i < |u| {
        assert ExitAt(u, i, q, from) && v[..i] == u[..i];
      } else {
        assert v[..i] == u;
      }
    }
  }

  lemma SelectGrounded(g: Setting, a: Actor, server: Server, avoid: Option<PeerId>)
    ensures Grounded(a.trace, Select(g, a, server, avoid).actor.trace)
  {
    var t := a.trace + [Selecting(server.port)];
    var o := ConnectFor(g, a, server, avoid);
    ConnectEarned(g.W(), a.store, t, server, avoid);
    forall i | |t| <= i < |o.trace| ensures !Announcement(o.trace[i]) {
      ConnectIsDisciplined(g.W(), a.store, t, server, avoid, i);
    }
    hide Connect, ReachedIn, Proper;
    var b := AfterConnect(a, server, o);
    GroundedQuiet(a.trace, b.trace);
    if o.result.Ok? {
      var d := o.result.value;
      ReachedStays(a.trace, t, o.trace, b.trace, d.peer, d.source.Pinned?);
      GroundedExit(a.trace, b.trace, server.port, d.peer, d.source);
    } else {
      GroundedOne(b.trace, Emitting(ActiveDestination(server.port, None, None)));
      GroundedThen(a.trace, b.trace, Select(g, a, server, avoid).actor.trace);
    }
  }

  lemma DiscoverGrounded(g: Setting, a: Actor, port: Port, avoid: Option<PeerId>)
    ensures Grounded(a.trace, DiscoverPort(g, a, port, avoid).actor.trace)
  {
    hide Select, Grounded;
    var b := a.(pending := a.pending - {port});
    var found := FindServer(g.servers, port);
    if found.Some? { SelectGrounded(g, b, found.value, avoid); } else { GroundedQuiet(a.trace, a.trace); }
  }

  lemma CloseGrounded(g: Setting, a: Actor, peer: PeerId, port: Port)
    ensures var b := ClosePort(g, a, peer, port); a.trace <= b.trace && Grounded(a.trace, b.trace)
  {
    hide DiscoverPort, Grounded, Rediscover;
    var now := g.net.now(a.trace);
    var b := a.Noting(ReadingClock(now));
    if port !in a.lastRediscovery {
      RediscoverGrounded(g, a, port, peer);
    } else if Elapsed(b, port, now) < REDISCOVERY_COOLDOWN {
      GroundedQuiet(a.trace, ClosePort(g, a, peer, port).trace);
    } else {
      RediscoverGrounded(g, b, port, peer);
      GroundedOne(a.trace, ReadingClock(now));
      GroundedThen(a.trace, b.trace, ClosePort(g, a, peer, port).trace);
    }
  }

  lemma RediscoverGrounded(g: Setting, a: Actor, port: Port, peer: PeerId)
    ensures var b := Rediscover(g, a, port, peer); a.trace <= b.trace && Grounded(a.trace, b.trace)
  {
    hide DiscoverPort, Grounded;
    var now := g.net.now(a.trace);
    var b := a.(lastRediscovery := a.lastRediscovery[port := now])
             .Noting(ReadingClock(now)).Noting(Rediscovering(port, now));
    GroundedQuiet(a.trace, b.trace);
    DiscoverGrounded(g, b, port, Some(peer));
    GroundedThen(a.trace, b.trace, Rediscover(g, a, port, peer).trace);
  }

  lemma {:induction false} ClosePortsGrounded(g: Setting, a: Actor, peer: PeerId, ports: seq<Port>)
    ensures var b := ClosePorts(g, a, peer, ports); a.trace <= b.trace && Grounded(a.trace, b.trace)
    decreases |ports|
  {
    hide ClosePort, Grounded;
    if ports == [] {
      GroundedQuiet(a.trace, a.trace);
    } else {
      var b := ClosePort(g, a, peer, ports[0]);
      CloseGrounded(g, a, peer, ports[0]);
      ClosePortsGrounded(g, b, peer, ports[1..]);
      GroundedThen(a.trace, b.trace, ClosePorts(g, a, peer, ports).trace);
    }
  }

  lemma {:induction false} DiscoverPortsGrounded(g: Setting, a: Actor, ports: seq<Port>)
    ensures var b := DiscoverPorts(g, a, ports); a.trace <= b.trace && Grounded(a.trace, b.trace)
    decreases |ports|
  {
    hide DiscoverPort, Grounded;
    if ports == [] {
      GroundedQuiet(a.trace, a.trace);
    } else {
      var b := DiscoverPort(g, a, ports[0], None).actor;
      DiscoverGrounded(g, a, ports[0], None);
      DiscoverPortsGrounded(g, b, ports[1..]);
      GroundedThen(a.trace, b.trace, DiscoverPorts(g, a, ports).trace);
    }
  }

  lemma {:induction false} ShowPoolsGrounded(a: Actor, servers: seq<Server>)
    ensures var b := ShowPools(a, servers); a.trace <= b.trace && Grounded(a.trace, b.trace)
    decreases |servers|
  {
    hide Grounded;
    if servers == [] {
      GroundedQuiet(a.trace, a.trace);
    } else {
      var b := ShowPool(a, servers[0]);
      GroundedQuiet(a.trace, b.trace);
      ShowPoolsGrounded(b, servers[1..]);
      GroundedThen(a.trace, b.trace, ShowPools(a, servers).trace);
    }
  }

  lemma PickGrounded(g: Setting, a: Actor, port: Port, peer: PeerId)
    ensures a.trace <= Pick(g, a, port, peer).trace && Grounded(a.trace, Pick(g, a, port, peer).trace)
  {
    var found := FindServer(g.servers, port);
    var r := TryReach(g.W(), a.store, a.trace, port, peer);
    ReachWithin(g.W(), a.store, a.trace, port, peer);
    forall i | |a.trace| <= i < |r.trace| ensures !Announcement(r.trace[i]) { assert Proper(r.trace, i); }
    PeerReached(g.W(), a.store, a.trace, port, peer);
    hide TryReach, ReachedIn, Within, Proper;
    GroundedQuiet(a.trace, r.trace);
    var b := a.(trace := r.trace);
    if found.None? {
      GroundedQuiet(a.trace, a.trace);
    } else if r.peer.Some? {
      GroundedExit(a.trace, r.trace, found.value.port, r.peer.value, Manual);
      AdoptGrounded(a.trace, b, found.value, r.peer.value);
    } else {
      GroundedOne(b.trace, Emitting(ErrorShown));
      GroundedThen(a.trace, b.trace, Pick(g, a, port, peer).trace);
    }
  }

  lemma AdoptGrounded(t: Trace, b: Actor, server: Server, peer: PeerId)
    requires t <= b.trace && Grounded(t, b.trace + [Emitting(ActiveDestination(server.port, Some(peer), Some(Manual)))])
    ensures Grounded(t, Adopt(b, server, peer, Manual).trace)
  {
    hide Grounded;
    var u := b.trace + [Emitting(ActiveDestination(server.port, Some(peer), Some(Manual)))];
    var v := Adopt(b, server, peer, Manual).trace;
    assert v[..|u|] == u;
    GroundedQuiet(u, v);
    GroundedThen(t, u, v);
  }

  /** Every event but a direct connection announces only exits that were reached while it was
      handled. (A direct connection rotates onto the peer that has just connected.) */
  lemma HandleGrounded(g: Setting, a: Actor, e: DiscoveryEvent)
    requires e.PeerConnected? ==> e.relayed
    ensures a.trace <= Handle(g, a, e).trace && Grounded(a.trace, Handle(g, a, e).trace)
  {
    hide DiscoverPort, ClosePorts, DiscoverPorts, ShowPools, Pick, Grounded;
    match e
    case DiscoverFor(port) => DiscoverGrounded(g, a, port, None);
    case RequestNewPeer(port) =>
      var r := DiscoverPort(g, a, port, None);
      DiscoverGrounded(g, a, port, None);
      GroundedOne(r.actor.trace, Replying(port, r.peer));
      GroundedThen(a.trace, r.actor.trace, Handle(g, a, e).trace);
    case PeerClosed(peer) =>
      var b := a.(direct := a.direct - {peer});
      ClosePortsGrounded(g, b, peer, g.net.iterate(a.trace, ServedBy(a.destinations, peer)));
    case PeerUnusable(peer) =>
      var b := a.(store := ForgetEverywhere(a.store, g.servers, peer));
      var c := DiscoverPorts(g, b, g.net.iterate(b.trace, ServedBy(b.destinations, peer)));
      DiscoverPortsGrounded(g, b, g.net.iterate(b.trace, ServedBy(b.destinations, peer)));
      ShowPoolsGrounded(c, g.servers);
      GroundedThen(a.trace, c.trace, Handle(g, a, e).trace);
    case PeerConnected(_, _, _) => GroundedQuiet(a.trace, a.trace);
    case SelectPeer(port, peer) => PickGrounded(g, a, port, peer);
  }

  // ---------- a rotation ----------

  /** Every announcement after t is of this peer. */
  ghost predicate OnlyExit(t: Trace, u: Trace, peer: PeerId) {
    forall i :: |t| <= i < |u| && Announcement(u[i]) ==> u[i].event.peer == Some(peer)
  }

  lemma {:induction false} RotatesOnto(g: Setting, a: Actor, candidate: PeerId, ports: seq<Port>)
    ensures var b := RotatePorts(g, a, candidate, ports); a.trace <= b.trace && OnlyExit(a.trace, b.trace, candidate)
    decreases |ports|
  {
    if ports != [] {
      var b := RotatePort(g, a, candidate, ports[0]);
      RotatesOnto(g, b, candidate, ports[1..]);
      var c := RotatePorts(g, a, candidate, ports);
      assert a.trace <= b.trace;
      assert forall i :: 0 <= i < |b.trace| ==> c.trace[i] == b.trace[i];
    }
  }

  /** A direct connection announces nobody but the peer that connected. */
  lemma ConnectedAnnounces(g: Setting, a: Actor, peer: PeerId, address: Multiaddr)
    ensures var b := Handle(g, a, PeerConnected(peer, address, false));
            a.trace <= b.trace && OnlyExit(a.trace, b.trace, peer)
  {
    hide OnlyExit, RotatePorts;
    var b := a.(direct := a.direct + {peer}, store := Note(a.store, peer, address));
    RotatesOnto(g, b, peer, g.net.iterate(b.trace, RelayStuck(b, peer)));
  }
}

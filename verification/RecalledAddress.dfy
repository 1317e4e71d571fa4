/** The direct address a reconnect is given: it is one that was observed for the peer, it is
    the last one, and it is kept for as long as the peer stays a member of the pool. */
module RecalledAddresses {
  import opened Wrappers
  import opened Selection
  import opened Sequences
  import opened Sticky
  import opened StickyLaws
  import opened Config
  import opened Environments
  import opened ConnectSpec
  import opened ConnectPools
  import opened ConnectSummaries
  import opened ConnectShapes
  import opened DiscoverySpec
  import opened Moves
  import opened PoolInvariants
  import opened CloseEffects
  import opened ExitOrigins
  import opened ClosedSelections
  import opened Runs

  // ---------- what the store operations do to an address ----------

  /** If the peer is in the pool afterwards, it was before, with the same address. */
  ghost predicate Recalls(s: Store, s': Store, port: Port, fp: string, peer: PeerId) {
    peer in PoolIds(s', port, fp) ==>
      peer in PoolIds(s, port, fp) && DirectAddress(s', port, peer) == DirectAddress(s, port, peer)
  }

  lemma ForgetRecalls(s: Store, p: Port, q: PeerId, port: Port, fp: string, peer: PeerId)
    requires Distinct(s)
    ensures Distinct(Forget(s, p, q)) && Recalls(s, Forget(s, p, q), port, fp, peer)
  {
    ForgetView(s, p, fp, q);
    if p == port { WithoutMembers(PoolIds(s, port, fp), q); }
    if peer in PoolIds(Forget(s, p, q), port, fp) { AddressStep(s, ForgetOp(p, q), false, port, fp, peer); }
  }

  lemma InvalidateRecalls(s: Store, p: Port, f: string, port: Port, fp: string, peer: PeerId)
    requires Distinct(s) && (p == port ==> f == fp)
    ensures Distinct(Invalidate(s, p, f)) && Recalls(s, Invalidate(s, p, f), port, fp, peer)
  {
  }

  lemma RememberRecalls(s: Store, port: Port, fp: string, q: PeerId, max: nat, peer: PeerId)
    requires Distinct(s) && (q == peer ==> peer in PoolIds(s, port, fp))
    ensures Distinct(Remember(s, port, fp, q, max)) && Recalls(s, Remember(s, port, fp, q, max), port, fp, peer)
  {
    RememberView(s, port, fp, q, max);
    MoveToFrontMembers(PoolIds(s, port, fp), q, max);
    if peer in PoolIds(Remember(s, port, fp, q, max), port, fp) {
      AddressStep(s, RememberOp(port, fp, q, max, max), false, port, fp, peer);
    }
  }

  lemma NoteRecalls(s: Store, q: PeerId, address: Multiaddr, port: Port, fp: string, peer: PeerId)
    requires Distinct(s) && q != peer
    ensures Distinct(Note(s, q, address)) && Recalls(s, Note(s, q, address), port, fp, peer)
  {
    NoteView(s, q, address);
    if peer in PoolIds(Note(s, q, address), port, fp) { AddressStep(s, NoteOp(q, address), false, port, fp, peer); }
  }

  lemma RecallsThen(s: Store, s': Store, s'': Store, port: Port, fp: string, peer: PeerId)
    requires Recalls(s, s', port, fp, peer) && Recalls(s', s'', port, fp, peer)
    ensures Recalls(s, s'', port, fp, peer)
  {
  }

  // ---------- a connect ----------

  lemma {:induction false} WalkRecalls(w: World, s: Store, t: Trace, port: Port, peers: seq<PeerId>,
                                       skip: Option<PeerId>, fp: string, peer: PeerId)
    requires Distinct(s)
    ensures var r := WalkPool(w, s, t, port, peers, skip); Distinct(r.store) && Recalls(s, r.store, port, fp, peer)
    decreases |peers|
  {
    hide TryReach, Forget, Recalls;
    if peers == [] {
      Same(s, port, fp, peer);
    } else if Some(peers[0]) == skip {
      WalkRecalls(w, s, t, port, peers[1..], skip, fp, peer);
    } else {
      var r := TryReach(w, s, t, port, peers[0]);
      Same(s, port, fp, peer);
      if r.peer.None? {
        var s1 := Forget(s, port, peers[0]);
        ForgetRecalls(s, port, peers[0], port, fp, peer);
        WalkRecalls(w, s1, r.trace, port, peers[1..], skip, fp, peer);
        RecallsThen(s, s1, WalkPool(w, s1, r.trace, port, peers[1..], skip).store, port, fp, peer);
      }
    }
  }

  lemma Same(s: Store, port: Port, fp: string, peer: PeerId)
    ensures Recalls(s, s, port, fp, peer)
  {
  }

  /** The pass stops at a member. */
  lemma PassStopsAtMember(w: World, s: Store, t: Trace, server: Server, skip: Option<PeerId>)
    requires Honest(w.net) && Distinct(s) && server.sticky
    ensures var r := ConnectPool(w, s, t, server, skip); r.peer.Some? ==> r.peer.value in PoolOf(r.store, server)
  {
    var port, fp := server.port, server.Fingerprint();
    var pool := PoolIds(s, port, fp);
    InvalidateView(s, port, fp);
    assert pool[0..] == pool && Survivors(pool, skip, 0) == pool;
    assert NoDuplicates(pool);
    WalkEffect(w, Invalidate(s, port, fp), t, port, fp, pool, 0, skip);
    var pass := ConnectPool(w, s, t, server, skip);
    var i: nat :| WalkedTo(pool, skip, i, pass, port, fp);
    if i < |pool| { assert pool[i] == pool[i..][0] && pool[i] in Survivors(pool, skip, i); }
  }

  predicate Rediscovered(r: Outcome, peer: PeerId) {
    r.result == Ok(ConnectedDestination(peer, Discovered))
  }

  lemma FreshRecalls(w: World, s: Store, t: Trace, server: Server, skip: Option<PeerId>, peer: PeerId)
    requires Honest(w.net) && Distinct(s) && server.sticky
    ensures var r := ConnectFresh(w, s, t, server, skip);
            Rediscovered(r, peer) || Recalls(s, r.store, server.port, server.Fingerprint(), peer)
  {
    hide WalkPool, Discover, Recalls, PoolIds, Remember, Invalidate, Honest;
    var port, fp := server.port, server.Fingerprint();
    var pass := ConnectPool(w, s, t, server, skip);
    InvalidateRecalls(s, port, fp, port, fp, peer);
    WalkRecalls(w, Invalidate(s, port, fp), t, port, PoolIds(s, port, fp), skip, fp, peer);
    RecallsThen(s, Invalidate(s, port, fp), pass.store, port, fp, peer);
    PassStopsAtMember(w, s, t, server, skip);
    if pass.peer.Some? {
      RememberThen(s, pass.store, server, pass.peer.value, peer);
    } else {
      DiscoverEffect(w, pass.store, pass.trace, server, 0);
      var r := Discover(w, pass.store, pass.trace, server, 0);
      if r.result.Ok? && r.result.value.peer != peer { RememberThen(s, pass.store, server, r.result.value.peer, peer); }
    }
  }

  lemma RememberThen(s: Store, s': Store, server: Server, q: PeerId, peer: PeerId)
    requires server.sticky && Distinct(s') && (q == peer ==> peer in PoolOf(s', server))
    requires Recalls(s, s', server.port, server.Fingerprint(), peer)
    ensures Recalls(s, RememberFor(s', server, q), server.port, server.Fingerprint(), peer)
  {
    RememberRecalls(s', server.port, server.Fingerprint(), q, server.maxTotal, peer);
    RecallsThen(s, s', RememberFor(s', server, q), server.port, server.Fingerprint(), peer);
  }

  lemma DiscoveredRecalls(w: World, s: Store, t: Trace, server: Server, avoid: Option<PeerId>, peer: PeerId)
    requires Honest(w.net) && Distinct(s) && (avoid == Some(peer) ==> peer in PoolOf(s, server))
    ensures var r := ConnectDiscovered(w, s, t, server, avoid);
            Rediscovered(r, peer) || Recalls(s, r.store, server.port, server.Fingerprint(), peer)
  {
    hide ConnectFresh, Reconnect, Recalls, Forget, RememberFor;
    var port, fp := server.port, server.Fingerprint();
    Same(s, port, fp, peer);
    if !server.sticky {
      NotStickyUntouched(w, s, t, server, avoid);
    } else if Fights(server, avoid) {
      var back := Reconnect(w, s, t, port, avoid.value, 0);
      ReconnectOnlyThatPeer(w, s, t, port, avoid.value, 0);
      if back.peer.Some? {
        RememberThen(s, s, server, avoid.value, peer);
      } else {
        var s1 := Forget(s, port, avoid.value);
        ForgetRecalls(s, port, avoid.value, port, fp, peer);
        FreshRecalls(w, s1, back.trace, server, avoid, peer);
        var r := ConnectFresh(w, s1, back.trace, server, avoid);
        if !Rediscovered(r, peer) { RecallsThen(s, s1, r.store, port, fp, peer); }
      }
    } else {
      FreshRecalls(w, s, t, server, avoid, peer);
    }
  }

  lemma {:induction false} PinnedRecalls(w: World, s: Store, t: Trace, server: Server, pass: nat, peer: PeerId)
    requires Honest(w.net) && Distinct(s)
    ensures var r := ConnectPinned(w, s, t, server, pass);
            Rediscovered(r, peer) || Recalls(s, r.store, server.port, server.Fingerprint(), peer)
    decreases MAX_PINNED_PASSES - pass
  {
    hide PinnedPass, ConnectDiscovered, Recalls;
    Same(s, server.port, server.Fingerprint(), peer);
    if pass < MAX_PINNED_PASSES {
      var tried := PinnedPass(w, t, server);
      if tried.peer.None? {
        if server.fallbackToDiscovery {
          DiscoveredRecalls(w, s, tried.trace, server, None, peer);
        } else {
          PinnedRecalls(w, s, tried.trace + [Sleeping(1_000_000_000)], server, pass + 1, peer);
        }
      }
    }
  }

  // ---------- one event ----------

  /** The peer was discovered anew, and shown so, between a and b. */
  ghost predicate FoundAnew(a: Actor, b: Actor, port: Port, peer: PeerId) {
    exists i :: |a.trace| <= i < |b.trace|
                && b.trace[i] == Emitting(ActiveDestination(port, Some(peer), Some(Discovered)))
  }

  ghost predicate Remembers(a: Actor, b: Actor, server: Server, peer: PeerId) {
    && a.trace <= b.trace && Distinct(b.store)
    && (|| FoundAnew(a, b, server.port, peer)
        || Recalls(a.store, b.store, server.port, server.Fingerprint(), peer))
  }

  lemma RemembersThen(a: Actor, b: Actor, c: Actor, server: Server, peer: PeerId)
    requires Remembers(a, b, server, peer) && Remembers(b, c, server, peer)
    ensures Remembers(a, c, server, peer)
  {
    hide Recalls;
    if FoundAnew(a, b, server.port, peer) {
      var i :| |a.trace| <= i < |b.trace|
               && b.trace[i] == Emitting(ActiveDestination(server.port, Some(peer), Some(Discovered)));
      assert c.trace[i] == b.trace[i];
    } else if FoundAnew(b, c, server.port, peer) {
      var i :| |b.trace| <= i < |c.trace|
               && c.trace[i] == Emitting(ActiveDestination(server.port, Some(peer), Some(Discovered)));
      assert |a.trace| <= i;
    } else {
      RecallsThen(a.store, b.store, c.store, server.port, server.Fingerprint(), peer);
    }
  }

  lemma StoreRemembers(a: Actor, b: Actor, server: Server, peer: PeerId)
    requires a.trace <= b.trace && Distinct(b.store)
    requires b.store == a.store || Recalls(a.store, b.store, server.port, server.Fingerprint(), peer)
    ensures Remembers(a, b, server, peer)
  {
  }

  lemma OtherEntry(s: Store, s': Store, port: Port, server: Server, peer: PeerId)
    requires OnlyPort(s, s', port) && port != server.port
    ensures Recalls(s, s', server.port, server.Fingerprint(), peer)
  {
  }

  lemma SelectRemembers(g: Setting, a: Actor, mine: Server, avoid: Option<PeerId>, server: Server, peer: PeerId)
    requires Honest(g.net) && WellSet(g) && Distinct(a.store) && mine in g.servers && server in g.servers
    requires mine == server && avoid == Some(peer) ==> peer in PoolOf(a.store, server)
    ensures Remembers(a, Select(g, a, mine, avoid).actor, server, peer)
  {
    hide Recalls, Select, ConnectFor, FoundAnew;
    var b := Select(g, a, mine, avoid).actor;
    SelectEffect(g, a, mine, avoid);
    if mine.port != server.port {
      OtherEntry(a.store, b.store, mine.port, server, peer);
      StoreRemembers(a, b, server, peer);
    } else {
      OwnSelectRemembers(g, a, server, avoid, peer);
    }
  }

  lemma OwnSelectRemembers(g: Setting, a: Actor, server: Server, avoid: Option<PeerId>, peer: PeerId)
    requires Honest(g.net) && WellSet(g) && Distinct(a.store) && server in g.servers
    requires avoid == Some(peer) ==> peer in PoolOf(a.store, server)
    ensures Remembers(a, Select(g, a, server, avoid).actor, server, peer)
  {
    var t := a.trace + [Selecting(server.port)];
    var o, b := ConnectFor(g, a, server, avoid), Select(g, a, server, avoid).actor;
    SelectEffect(g, a, server, avoid);
    if server.Pinned() == [] {
      DiscoveredRecalls(g.W(), a.store, t, server, avoid, peer);
    } else {
      PinnedRecalls(g.W(), a.store, t, server, 0, peer);
    }
    SelectEnds(g, a, server, avoid);
    SelectStore(g, a, server, avoid);
    hide Select, Connect, Recalls, Snapshot;
    if Rediscovered(o, peer) {
      assert b.trace[|o.trace| + 1] == Emitting(ActiveDestination(server.port, Some(peer), Some(Discovered)));
    }
  }

  lemma SelectStore(g: Setting, a: Actor, server: Server, avoid: Option<PeerId>)
    ensures Select(g, a, server, avoid).actor.store == ConnectFor(g, a, server, avoid).store
  {
  }

  lemma DiscoverRemembers(g: Setting, a: Actor, port: Port, avoid: Option<PeerId>, server: Server, peer: PeerId)
    requires Honest(g.net) && WellSet(g) && Distinct(a.store) && server in g.servers
    requires port == server.port && avoid == Some(peer) ==> peer in PoolOf(a.store, server)
    ensures Remembers(a, DiscoverPort(g, a, port, avoid).actor, server, peer)
  {
    hide Select, Recalls, WellSet, Honest;
    var b := a.(pending := a.pending - {port});
    StoreRemembers(a, b, server, peer);
    var found := FindServer(g.servers, port);
    if found.Some? {
      SelectRemembers(g, b, found.value, avoid, server, peer);
      RemembersThen(a, b, Select(g, b, found.value, avoid).actor, server, peer);
    }
  }

  lemma {:induction false} DiscoverPortsRemember(g: Setting, a: Actor, ports: seq<Port>, server: Server, peer: PeerId)
    requires Honest(g.net) && WellSet(g) && Distinct(a.store) && server in g.servers
    ensures Remembers(a, DiscoverPorts(g, a, ports), server, peer)
    decreases |ports|
  {
    hide DiscoverPort, Recalls, FoundAnew, WellSet, Honest;
    if ports == [] {
      StoreRemembers(a, a, server, peer);
    } else {
      var b := DiscoverPort(g, a, ports[0], None).actor;
      DiscoverRemembers(g, a, ports[0], None, server, peer);
      DiscoverPortsRemember(g, b, ports[1..], server, peer);
      RemembersThen(a, b, DiscoverPorts(g, b, ports[1..]), server, peer);
    }
  }

  lemma RediscoverRemembers(g: Setting, a: Actor, port: Port, p: PeerId, server: Server, peer: PeerId)
    requires Honest(g.net) && WellSet(g) && Distinct(a.store) && server in g.servers
    requires port == server.port && p == peer ==> peer in PoolOf(a.store, server)
    ensures Remembers(a, Rediscover(g, a, port, p), server, peer)
  {
    hide DiscoverPort, Recalls, FoundAnew, WellSet, Honest;
    var now := g.net.now(a.trace);
    var b := a.(lastRediscovery := a.lastRediscovery[port := now])
              .Noting(ReadingClock(now)).Noting(Rediscovering(port, now));
    StoreRemembers(a, b, server, peer);
    DiscoverRemembers(g, b, port, Some(p), server, peer);
    RemembersThen(a, b, Rediscover(g, a, port, p), server, peer);
  }

  lemma ClosePortRemembers(g: Setting, a: Actor, p: PeerId, port: Port, server: Server, peer: PeerId)
    requires Honest(g.net) && WellSet(g) && Distinct(a.store) && server in g.servers
    requires port == server.port && p == peer ==> peer in PoolOf(a.store, server)
    ensures Remembers(a, ClosePort(g, a, p, port), server, peer)
  {
    hide Rediscover, Recalls, FoundAnew, WellSet, Honest;
    if port !in a.lastRediscovery {
      RediscoverRemembers(g, a, port, p, server, peer);
    } else {
      var now := g.net.now(a.trace);
      var b := a.Noting(ReadingClock(now));
      StoreRemembers(a, b, server, peer);
      if Elapsed(b, port, now) < REDISCOVERY_COOLDOWN {
        ThrottleRemembers(g, b, port, REDISCOVERY_COOLDOWN - Elapsed(b, port, now), server, peer);
      } else {
        RediscoverRemembers(g, b, port, p, server, peer);
      }
      RemembersThen(a, b, CloseAt(g, b, p, port, now), server, peer);
    }
  }

  lemma ThrottleRemembers(g: Setting, a: Actor, port: Port, remaining: nat, server: Server, peer: PeerId)
    requires Distinct(a.store)
    ensures Remembers(a, Throttle(g, a, port, remaining), server, peer)
  {
    StoreRemembers(a, Throttle(g, a, port, remaining), server, peer);
  }

  lemma {:induction false} ClosePortsRemember(g: Setting, a: Actor, p: PeerId, ports: seq<Port>, server: Server,
                                              peer: PeerId)
    requires Honest(g.net) && WellSet(g) && Distinct(a.store) && server in g.servers && NoDuplicates(ports)
    requires server.port in ports ==> peer in PoolOf(a.store, server)
    ensures Remembers(a, ClosePorts(g, a, p, ports), server, peer)
    decreases |ports|
  {
    hide ClosePort, Recalls, FoundAnew, WellSet, Honest, PoolOf;
    if ports == [] {
      StoreRemembers(a, a, server, peer);
    } else {
      assert ports == [ports[0]] + ports[1..];
      assert ports[0] !in ports[1..];
      var b := ClosePort(g, a, p, ports[0]);
      ClosePortRemembers(g, a, p, ports[0], server, peer);
      if ports[0] != server.port { CloseElsewhere(g, a, p, ports[0], server); }
      ClosePortsRemember(g, b, p, ports[1..], server, peer);
      RemembersThen(a, b, ClosePorts(g, b, p, ports[1..]), server, peer);
    }
  }

  lemma AdoptRemembers(a: Actor, mine: Server, q: PeerId, source: DestinationSource, server: Server, peer: PeerId)
    requires Distinct(a.store) && (mine.port == server.port ==> mine == server)
    requires mine == server && q == peer ==> peer in PoolOf(a.store, server)
    ensures Remembers(a, Adopt(a, mine, q, source), server, peer)
  {
    var b := Adopt(a, mine, q, source);
    if mine == server {
      RememberRecalls(a.store, server.port, server.Fingerprint(), q, server.maxTotal, peer);
    } else {
      RememberView(a.store, mine.port, mine.Fingerprint(), q, mine.maxTotal);
      OtherEntry(a.store, b.store, mine.port, server, peer);
    }
    StoreRemembers(a, b, server, peer);
  }

  lemma RotateRemembers(g: Setting, a: Actor, candidate: PeerId, port: Port, server: Server, peer: PeerId)
    requires WellSet(g) && Distinct(a.store) && server in g.servers
    ensures Remembers(a, RotatePort(g, a, candidate, port), server, peer)
  {
    hide Recalls, FoundAnew, Adopt;
    StoreRemembers(a, a, server, peer);
    var found := FindServer(g.servers, port);
    if found.Some? {
      var mine := found.value;
      var b := a.(store := Invalidate(a.store, port, mine.Fingerprint()));
      InvalidateRecalls(a.store, port, mine.Fingerprint(), server.port, server.Fingerprint(), peer);
      StoreRemembers(a, b, server, peer);
      if candidate in PoolIds(a.store, port, mine.Fingerprint()) {
        AdoptRemembers(b, mine, candidate, StickyReuse, server, peer);
        RemembersThen(a, b, Adopt(b, mine, candidate, StickyReuse), server, peer);
      }
    }
  }

  lemma {:induction false} RotatePortsRemember(g: Setting, a: Actor, candidate: PeerId, ports: seq<Port>,
                                               server: Server, peer: PeerId)
    requires WellSet(g) && Distinct(a.store) && server in g.servers
    ensures Remembers(a, RotatePorts(g, a, candidate, ports), server, peer)
    decreases |ports|
  {
    hide RotatePort, Recalls, FoundAnew, WellSet;
    if ports == [] {
      StoreRemembers(a, a, server, peer);
    } else {
      var b := RotatePort(g, a, candidate, ports[0]);
      RotateRemembers(g, a, candidate, ports[0], server, peer);
      RotatePortsRemember(g, b, candidate, ports[1..], server, peer);
      RemembersThen(a, b, RotatePorts(g, b, candidate, ports[1..]), server, peer);
    }
  }

  lemma {:induction false} ForgetEverywhereRecalls(s: Store, servers: seq<Server>, q: PeerId, port: Port, fp: string,
                                                   peer: PeerId)
    requires Distinct(s)
    ensures var s' := ForgetEverywhere(s, servers, q); Distinct(s') && Recalls(s, s', port, fp, peer)
    decreases |servers|
  {
    hide Recalls, Forget;
    if servers == [] {
      Same(s, port, fp, peer);
    } else {
      var s1 := Forget(s, servers[0].port, q);
      ForgetRecalls(s, servers[0].port, q, port, fp, peer);
      ForgetEverywhereRecalls(s1, servers[1..], q, port, fp, peer);
      RecallsThen(s, s1, ForgetEverywhere(s1, servers[1..], q), port, fp, peer);
    }
  }

  /** A direct connection of the peer itself. */
  predicate Observes(e: DiscoveryEvent, peer: PeerId) {
    e.PeerConnected? && e.peer == peer && !e.relayed
  }

  /** A pool member's address survives every event that is not a direct connection of that
      peer, as long as it is not dropped and discovered anew. */
  lemma HandleRemembers(g: Setting, a: Actor, e: DiscoveryEvent, server: Server, peer: PeerId)
    requires Sound(g) && WellSet(g) && Distinct(a.store) && server in g.servers
    requires peer in PoolOf(a.store, server) && !Observes(e, peer)
    ensures Remembers(a, Handle(g, a, e), server, peer)
  {
    hide Recalls, FoundAnew, DiscoverPort, ClosePorts, RotatePorts, DiscoverPorts, ShowPools, WellSet, PoolOf;
    match e
    case DiscoverFor(port) => DiscoverRemembers(g, a, port, None, server, peer);
    case RequestNewPeer(port) => RequestRemembers(g, a, port, server, peer);
    case PeerClosed(p) => ClosedRemembers(g, a, p, server, peer);
    case PeerUnusable(q) => UnusableRemembers(g, a, q, server, peer);
    case PeerConnected(q, address, relayed) => ConnectedRemembers(g, a, q, address, relayed, server, peer);
    case SelectPeer(port, q) => PickRemembers(g, a, port, q, server, peer);
  }

  lemma RequestRemembers(g: Setting, a: Actor, port: Port, server: Server, peer: PeerId)
    requires Sound(g) && WellSet(g) && Distinct(a.store) && server in g.servers
    ensures Remembers(a, Handle(g, a, RequestNewPeer(port)), server, peer)
  {
    hide DiscoverPort, WellSet, Recalls, FoundAnew;
    var r := DiscoverPort(g, a, port, None);
    DiscoverRemembers(g, a, port, None, server, peer);
    StoreRemembers(r.actor, r.actor.Noting(Replying(port, r.peer)), server, peer);
    RemembersThen(a, r.actor, r.actor.Noting(Replying(port, r.peer)), server, peer);
  }

  lemma ClosedRemembers(g: Setting, a: Actor, p: PeerId, server: Server, peer: PeerId)
    requires Sound(g) && WellSet(g) && Distinct(a.store) && server in g.servers && peer in PoolOf(a.store, server)
    ensures Remembers(a, PeerGone(g, a, p), server, peer)
  {
    hide ClosePorts, WellSet, Recalls, FoundAnew;
    var ports := g.net.iterate(a.trace, ServedBy(a.destinations, p));
    assert Lists(ports, ServedBy(a.destinations, p));
    var b := a.(direct := a.direct - {p});
    StoreRemembers(a, b, server, peer);
    ClosePortsRemember(g, b, p, ports, server, peer);
    RemembersThen(a, b, ClosePorts(g, b, p, ports), server, peer);
  }

  lemma UnusableRemembers(g: Setting, a: Actor, q: PeerId, server: Server, peer: PeerId)
    requires Sound(g) && WellSet(g) && Distinct(a.store) && server in g.servers
    ensures Remembers(a, Unusable(g, a, q), server, peer)
  {
    hide DiscoverPorts, ShowPools, WellSet, Recalls, FoundAnew;
    var b := a.(store := ForgetEverywhere(a.store, g.servers, q));
    var ports := g.net.iterate(b.trace, ServedBy(b.destinations, q));
    var c := DiscoverPorts(g, b, ports);
    ForgetEverywhereRecalls(a.store, g.servers, q, server.port, server.Fingerprint(), peer);
    StoreRemembers(a, b, server, peer);
    DiscoverPortsRemember(g, b, ports, server, peer);
    RemembersThen(a, b, c, server, peer);
    ShowPoolsExtend(c, g.servers);
    StoreRemembers(c, ShowPools(c, g.servers), server, peer);
    RemembersThen(a, c, ShowPools(c, g.servers), server, peer);
  }

  lemma ConnectedRemembers(g: Setting, a: Actor, q: PeerId, address: Multiaddr, relayed: bool, server: Server,
                           peer: PeerId)
    requires WellSet(g) && Distinct(a.store) && server in g.servers && (q == peer ==> relayed)
    ensures Remembers(a, Connected(g, a, q, address, relayed), server, peer)
  {
    hide RotatePorts, WellSet, Recalls, FoundAnew, Note;
    if relayed {
      StoreRemembers(a, Connected(g, a, q, address, relayed), server, peer);
    } else {
      var b := a.(direct := a.direct + {q}, store := Note(a.store, q, address));
      var ports := g.net.iterate(b.trace, RelayStuck(b, q));
      NoteRecalls(a.store, q, address, server.port, server.Fingerprint(), peer);
      StoreRemembers(a, b, server, peer);
      RotatePortsRemember(g, b, q, ports, server, peer);
      RemembersThen(a, b, RotatePorts(g, b, q, ports), server, peer);
    }
  }

  lemma PickRemembers(g: Setting, a: Actor, port: Port, q: PeerId, server: Server, peer: PeerId)
    requires Sound(g) && WellSet(g) && Distinct(a.store) && server in g.servers && peer in PoolOf(a.store, server)
    ensures Remembers(a, Pick(g, a, port, q), server, peer)
  {
    hide TryReach, Adopt, Recalls, FoundAnew;
    StoreRemembers(a, a, server, peer);
    var found := FindServer(g.servers, port);
    if found.Some? {
      var r := TryReach(g.W(), a.store, a.trace, port, q);
      var b := a.(trace := r.trace);
      StoreRemembers(a, b, server, peer);
      if r.peer.Some? {
        AdoptRemembers(b, found.value, r.peer.value, Manual, server, peer);
        RemembersThen(a, b, Adopt(b, found.value, r.peer.value, Manual), server, peer);
      } else {
        StoreRemembers(a, b.Noting(Emitting(ErrorShown)), server, peer);
      }
    }
  }

  /** Once a direct connection of a pool member is handled, its address is the one recalled. */
  lemma ConnectedIsRecalled(g: Setting, a: Actor, peer: PeerId, address: Multiaddr, server: Server)
    requires Sound(g) && WellSet(g) && Distinct(a.store) && server in g.servers
    requires peer in PoolOf(Handle(g, a, PeerConnected(peer, address, false)).store, server)
    ensures DirectAddress(Handle(g, a, PeerConnected(peer, address, false)).store, server.port, peer) == Some(address)
  {
    hide RotatePorts, Note;
    var b := a.(direct := a.direct + {peer}, store := Note(a.store, peer, address));
    var ports := g.net.iterate(b.trace, RelayStuck(b, peer));
    var c := RotatePorts(g, b, peer, ports);
    NoteView(a.store, peer, address);
    RotatePortsRemember(g, b, peer, ports, server, peer);
    RotationDiscoversNobody(g, b, peer, ports, server.port);
    NotedIsKnown(a.store, server.port, server.Fingerprint(), peer, address);
  }

  lemma {:induction false} RotationDiscoversNobody(g: Setting, a: Actor, candidate: PeerId, ports: seq<Port>,
                                                   port: Port)
    ensures var b := RotatePorts(g, a, candidate, ports);
            a.trace <= b.trace && forall i :: |a.trace| <= i < |b.trace| ==>
              b.trace[i] != Emitting(ActiveDestination(port, Some(candidate), Some(Discovered)))
    decreases |ports|
  {
    hide Remember, Invalidate, Snapshot;
    if ports != [] {
      var b := RotatePort(g, a, candidate, ports[0]);
      RotationDiscoversNobody(g, b, candidate, ports[1..], port);
    }
  }

  // ---------- whole runs ----------

  ghost predicate Kept(g: Setting, start: System, run: seq<Step>, server: Server, peer: PeerId) {
    peer in PoolOf(Execute(g, start, run).actor.store, server)
  }

  /** From the n-th step of the run on, the peer stays in the server's pool, is not directly
      connected again, and is not discovered anew. */
  ghost predicate KeptSince(g: Setting, start: System, run: seq<Step>, n: nat, server: Server, peer: PeerId)
    requires n <= |run|
  {
    && (forall k :: n <= k <= |run| ==> Kept(g, start, run[..k], server, peer))
    && (forall k :: n <= k < |run| && run[k].Deliver? ==> !Observes(run[k].event, peer))
    && !FoundAnew(Execute(g, start, run[..n]).actor, Execute(g, start, run).actor, server.port, peer)
  }

  lemma StepRemembers(g: Setting, sys: System, step: Step, server: Server, peer: PeerId)
    requires Sound(g) && WellSet(g) && Distinct(sys.actor.store) && server in g.servers
    requires peer in PoolOf(sys.actor.store, server) && (step.Deliver? ==> !Observes(step.event, peer))
    ensures Remembers(sys.actor, Apply(g, sys, step).actor, server, peer)
  {
    hide Handle, Recalls, FoundAnew, WellSet, PoolOf;
    if step.Deliver? {
      HandleRemembers(g, sys.actor, step.event, server, peer);
    } else {
      StoreRemembers(sys.actor, Apply(g, sys, step).actor, server, peer);
    }
  }

  lemma FrontKept(g: Setting, start: System, run: seq<Step>, n: nat, server: Server, peer: PeerId)
    requires n < |run| && KeptSince(g, start, run, n, server, peer)
    requires Execute(g, start, run[..|run| - 1]).actor.trace <= Execute(g, start, run).actor.trace
    ensures KeptSince(g, start, run[..|run| - 1], n, server, peer)
  {
    hide Execute, Observes;
    var front := run[..|run| - 1];
    assert forall k :: n <= k <= |front| ==> front[..k] == run[..k];
    forall k | n <= k <= |front| ensures Kept(g, start, front[..k], server, peer) {
      assert Kept(g, start, run[..k], server, peer);
    }
  }

  lemma {:induction false} KeptIsRecalled(g: Setting, start: System, run: seq<Step>, n: nat, server: Server,
                                          peer: PeerId)
    requires Scenario(g, start, run) && server in g.servers && n <= |run| && KeptSince(g, start, run, n, server, peer)
    ensures DirectAddress(Execute(g, start, run).actor.store, server.port, peer)
            == DirectAddress(Execute(g, start, run[..n]).actor.store, server.port, peer)
    ensures Execute(g, start, run[..n]).actor.trace <= Execute(g, start, run).actor.trace
    decreases |run|
  {
    hide Apply, Observes, Enabled;
    if n == |run| {
      assert run[..n] == run;
    } else {
      var front, step := run[..|run| - 1], run[|run| - 1];
      var sys, next := Execute(g, start, front), Execute(g, start, run);
      assert front[..n] == run[..n];
      assert Kept(g, start, run[..|front|], server, peer) && Kept(g, start, run[..|run|], server, peer);
      assert run[..|front|] == front && run[..|run|] == run;
      RunKeepsPools(g, start, front);
      StepRemembers(g, sys, step, server, peer);
      FrontKept(g, start, run, n, server, peer);
      KeptIsRecalled(g, start, front, n, server, peer);
      SinceThen(Execute(g, start, run[..n]).actor, sys.actor, next.actor, server.port, peer);
    }
  }

  lemma SinceThen(a: Actor, b: Actor, c: Actor, port: Port, peer: PeerId)
    requires a.trace <= b.trace && b.trace <= c.trace && !FoundAnew(a, c, port, peer)
    ensures !FoundAnew(b, c, port, peer)
  {
  }

  /** Over every run: the address on which a pool member last connected directly is the one
      recalled for it, as long as it stays in the pool and is not discovered anew; and if no
      relay is on it, the next attempt at the peer dials it at once. */
  lemma LastObservedIsDialled(g: Setting, start: System, run: seq<Step>, n: nat, server: Server, peer: PeerId,
                              known: Multiaddr, t: Trace)
    requires Scenario(g, start, run) && server in g.servers
    requires n < |run| && run[n] == Deliver(PeerConnected(peer, known, false))
    requires KeptSince(g, start, run, n + 1, server, peer)
    ensures var s := Execute(g, start, run).actor.store;
            var u := TryReach(g.W(), s, t, server.port, peer).trace;
            && DirectAddress(s, server.port, peer) == Some(known)
            && (forall a :: Tagged(known, peer, a) && P2pCircuit !in a ==>
                  |t| + 2 < |u| && u[|t| + 2].Dialling? && a in u[|t| + 2].addresses)
  {
    var before := run[..n];
    var upTo := run[..n + 1];
    PrefixFeasible(g, start, run, n);
    PrefixFeasible(g, start, run, n + 1);
    RunKeepsPools(g, start, before);
    assert upTo[..n] == before && upTo[n] == run[n];
    assert Execute(g, start, upTo) == Apply(g, Execute(g, start, before), run[n]);
    assert Kept(g, start, run[..n + 1], server, peer);
    ConnectedIsRecalled(g, Execute(g, start, before).actor, peer, known, server);
    KeptIsRecalled(g, start, run, n + 1, server, peer);
    hide Execute, Handle, TryReach, KeptSince, Scenario;
    var s := Execute(g, start, run).actor.store;
    forall a | Tagged(known, peer, a) && P2pCircuit !in a
      ensures var u := TryReach(g.W(), s, t, server.port, peer).trace;
              |t| + 2 < |u| && u[|t| + 2].Dialling? && a in u[|t| + 2].addresses
    {
      RememberedIsDialled(g.W(), s, t, server.port, peer, a);
    }
  }

  lemma {:induction false} PrefixFeasible(g: Setting, start: System, run: seq<Step>, n: nat)
    requires Feasible(g, start, run) && n <= |run|
    ensures Feasible(g, start, run[..n])
    decreases |run|
  {
    if n == |run| {
      assert run[..n] == run;
    } else {
      PrefixFeasible(g, start, run[..|run| - 1], n);
      assert run[..|run| - 1][..n] == run[..n];
    }
  }

  // ---------- nothing else is ever recalled ----------

  /** What is known of the peer's address on that port afterwards was known before. */
  ghost predicate Fades(s: Store, s': Store, port: Port, peer: PeerId) {
    DirectAddress(s', port, peer) in {None, DirectAddress(s, port, peer)}
  }

  lemma KnownIsAnEntry(s: Store, port: Port, peer: PeerId)
    requires DirectAddress(s, port, peer).Some?
    ensures port in s && StickyPeer(peer, DirectAddress(s, port, peer)) in s[port].peers
  {
  }

  lemma EntriesFade(s: Store, s': Store, port: Port, peer: PeerId)
    requires Distinct(s)
    requires port in s' ==>
               forall e :: e in s'[port].peers && e.peerId == peer && e.address.Some? ==>
                 port in s && e in s[port].peers
    ensures Fades(s, s', port, peer)
  {
    var known := DirectAddress(s', port, peer);
    if known.Some? {
      KnownIsAnEntry(s', port, peer);
      AddressOfEntry(s, port, StickyPeer(peer, known));
    }
  }

  lemma ForgetFades(s: Store, p: Port, q: PeerId, port: Port, peer: PeerId)
    requires Distinct(s)
    ensures Distinct(Forget(s, p, q)) && Fades(s, Forget(s, p, q), port, peer)
  {
    ForgetView(s, p, "", q);
    if p in s { RetainIds(s[p].peers, q); }
    EntriesFade(s, Forget(s, p, q), port, peer);
  }

  lemma RememberFades(s: Store, p: Port, fp: string, q: PeerId, max: nat, port: Port, peer: PeerId)
    requires Distinct(s)
    ensures Distinct(Remember(s, p, fp, q, max)) && Fades(s, Remember(s, p, fp, q, max), port, peer)
  {
    RememberView(s, p, fp, q, max);
    var peers := if p in s && s[p].fingerprint == fp then s[p].peers else [];
    var s' := Remember(s, p, fp, q, max);
    if p == port {
      forall e | e in s'[port].peers && e.address.Some? ensures e in peers { PromoteEntries(peers, q, max, e); }
    }
    EntriesFade(s, s', port, peer);
  }

  /** A note of another peer changes nothing for this one; a note of this one is what is known. */
  lemma NoteFades(s: Store, q: PeerId, address: Multiaddr, port: Port, peer: PeerId)
    requires Distinct(s)
    ensures Distinct(Note(s, q, address))
    ensures if q == peer then DirectAddress(Note(s, q, address), port, peer) in {None, Some(address)}
            else Fades(s, Note(s, q, address), port, peer)
  {
    NoteView(s, q, address);
    var s' := Note(s, q, address);
    if port in s {
      assert s'[port] == NoteIn(s[port], q, address);
      var i := Position(s[port].peers, q);
      var ids := Ids(s'[port].peers);
      assert ids == Ids(s[port].peers);
      if q == peer && DirectAddress(s', port, peer).Some? {
        var k := Position(s'[port].peers, peer);
        assert ids[k] == peer && s[port].peers[k].peerId == peer;
        assert ids[i] == peer;
      }
    }
    if q != peer { EntriesFade(s, s', port, peer); }
  }

  lemma FadesThen(s: Store, s': Store, s'': Store, port: Port, peer: PeerId)
    requires Fades(s, s', port, peer) && Fades(s', s'', port, peer)
    ensures Fades(s, s'', port, peer)
  {
  }

  lemma {:induction false} WalkFades(w: World, s: Store, t: Trace, p: Port, peers: seq<PeerId>, skip: Option<PeerId>,
                                     port: Port, peer: PeerId)
    requires Distinct(s)
    ensures var r := WalkPool(w, s, t, p, peers, skip); Distinct(r.store) && Fades(s, r.store, port, peer)
    decreases |peers|
  {
    hide TryReach, Forget, DirectAddress;
    if peers != [] {
      if Some(peers[0]) == skip {
        WalkFades(w, s, t, p, peers[1..], skip, port, peer);
      } else {
        var r := TryReach(w, s, t, p, peers[0]);
        if r.peer.None? {
          var s1 := Forget(s, p, peers[0]);
          ForgetFades(s, p, peers[0], port, peer);
          WalkFades(w, s1, r.trace, p, peers[1..], skip, port, peer);
          FadesThen(s, s1, WalkPool(w, s1, r.trace, p, peers[1..], skip).store, port, peer);
        }
      }
    }
  }

  lemma RememberForFades(s: Store, server: Server, q: PeerId, port: Port, peer: PeerId)
    requires Distinct(s)
    ensures Fades(s, RememberFor(s, server, q), port, peer)
  {
    if server.sticky { RememberFades(s, server.port, server.Fingerprint(), q, server.maxTotal, port, peer); }
  }

  lemma FreshFades(w: World, s: Store, t: Trace, server: Server, skip: Option<PeerId>, port: Port, peer: PeerId)
    requires Distinct(s)
    ensures Fades(s, ConnectFresh(w, s, t, server, skip).store, port, peer)
  {
    var fp := server.Fingerprint();
    var s1 := Invalidate(s, server.port, fp);
    var pass := ConnectPool(w, s, t, server, skip);
    WalkFades(w, s1, t, server.port, PoolIds(s, server.port, fp), skip, port, peer);
    assert Distinct(pass.store) && Fades(s, pass.store, port, peer);
    DiscoverEffect(w, pass.store, pass.trace, server, 0);
    hide WalkPool, Discover, DirectAddress, RememberFor, Invalidate, PoolIds;
    var r := Discover(w, pass.store, pass.trace, server, 0);
    if pass.peer.Some? {
      RememberForFades(pass.store, server, pass.peer.value, port, peer);
    } else if r.result.Ok? {
      RememberForFades(pass.store, server, r.result.value.peer, port, peer);
    }
  }

  lemma DiscoveredFades(w: World, s: Store, t: Trace, server: Server, avoid: Option<PeerId>, port: Port, peer: PeerId)
    requires Distinct(s)
    ensures Fades(s, ConnectDiscovered(w, s, t, server, avoid).store, port, peer)
  {
    hide ConnectFresh, Reconnect, DirectAddress, RememberFor, Forget;
    if Fights(server, avoid) {
      var back := Reconnect(w, s, t, server.port, avoid.value, 0);
      if back.peer.Some? {
        RememberForFades(s, server, back.peer.value, port, peer);
      } else {
        var s1 := Forget(s, server.port, avoid.value);
        ForgetFades(s, server.port, avoid.value, port, peer);
        FreshFades(w, s1, back.trace, server, avoid, port, peer);
      }
    } else {
      FreshFades(w, s, t, server, avoid, port, peer);
    }
  }

  lemma {:induction false} PinnedFades(w: World, s: Store, t: Trace, server: Server, pass: nat, port: Port,
                                       peer: PeerId)
    requires Distinct(s)
    ensures Fades(s, ConnectPinned(w, s, t, server, pass).store, port, peer)
    decreases MAX_PINNED_PASSES - pass
  {
    hide PinnedPass, ConnectDiscovered, DirectAddress;
    if pass < MAX_PINNED_PASSES {
      var tried := PinnedPass(w, t, server);
      if tried.peer.None? {
        if server.fallbackToDiscovery {
          DiscoveredFades(w, s, tried.trace, server, None, port, peer);
        } else {
          PinnedFades(w, s, tried.trace + [Sleeping(1_000_000_000)], server, pass + 1, port, peer);
        }
      }
    }
  }

  lemma ChooseFades(g: Setting, a: Actor, p: Port, avoid: Option<PeerId>, port: Port, peer: PeerId)
    requires Honest(g.net) && WellSet(g) && Distinct(a.store)
    ensures var b := DiscoverPort(g, a, p, avoid).actor; Distinct(b.store) && Fades(a.store, b.store, port, peer)
  {
    var found := FindServer(g.servers, p);
    if found.Some? {
      var b := a.(pending := a.pending - {p});
      var t := a.trace + [Selecting(found.value.port)];
      SelectEffect(g, b, found.value, avoid);
      SelectStore(g, b, found.value, avoid);
      hide Select, ConnectDiscovered, ConnectPinned, DirectAddress;
      if found.value.Pinned() == [] {
        DiscoveredFades(g.W(), a.store, t, found.value, avoid, port, peer);
      } else {
        PinnedFades(g.W(), a.store, t, found.value, 0, port, peer);
      }
    }
  }

  /** A move makes nothing known of a peer's address but what it learns in its event. */
  lemma MoveFades(g: Setting, a: Actor, e: DiscoveryEvent, m: Move, port: Port, peer: PeerId)
    requires Sound(g) && WellSet(g) && Distinct(a.store) && Allowed(g, a, e, m)
    ensures var b := Do(g, a, m);
            && Distinct(b.store)
            && (Fades(a.store, b.store, port, peer)
                || (Observes(e, peer) && DirectAddress(b.store, port, peer) == Some(e.address)))
  {
    hide DiscoverPort, DirectAddress, Remember, Forget, Note, TryReach;
    match m
    case Choose(p, avoid) => ChooseFades(g, a, p, avoid, port, peer);
    case Switch(server, q, source) =>
      RememberFades(a.store, server.port, server.Fingerprint(), q, server.maxTotal, port, peer);
    case Learn(q, address) => NoteFades(a.store, q, address, port, peer);
    case Unlearn(p, q) => ForgetFades(a.store, p, q, port, peer);
    case Reread(server) =>
      InvalidateView(a.store, server.port, server.Fingerprint());
      EntriesFade(a.store, Do(g, a, m).store, port, peer);
    case _ =>
  }

  lemma {:induction false} MovesFade(g: Setting, a: Actor, e: DiscoveryEvent, ms: seq<Move>, port: Port, peer: PeerId,
                                     known: Option<Multiaddr>)
    requires Sound(g) && WellSet(g) && Distinct(a.store) && AllAllowed(g, a, e, ms)
    requires DirectAddress(a.store, port, peer) in {None, known}
    requires Observes(e, peer) ==> known == Some(e.address)
    ensures DirectAddress(DoAll(g, a, ms).store, port, peer) in {None, known}
    decreases |ms|
  {
    hide DirectAddress, Do, Allowed;
    if ms != [] {
      MoveFades(g, a, e, ms[0], port, peer);
      MovesFade(g, Do(g, a, ms[0]), e, ms[1..], port, peer, known);
    }
  }

  lemma HandleFades(g: Setting, a: Actor, e: DiscoveryEvent, port: Port, peer: PeerId)
    requires Sound(g) && WellSet(g) && Distinct(a.store)
    ensures DirectAddress(Handle(g, a, e).store, port, peer)
            in {None, if Observes(e, peer) then Some(e.address) else DirectAddress(a.store, port, peer)}
  {
    if Observes(e, peer) {
      ObservedFades(g, a, peer, e.address, port);
    } else {
      hide DirectAddress, Handle;
      HandleIsMoves(g, a, e);
      var ms :| AllAllowed(g, a, e, ms) && DoAll(g, a, ms) == Handle(g, a, e);
      MovesFade(g, a, e, ms, port, peer, DirectAddress(a.store, port, peer));
    }
  }

  lemma ObservedFades(g: Setting, a: Actor, peer: PeerId, address: Multiaddr, port: Port)
    requires Sound(g) && WellSet(g) && Distinct(a.store)
    ensures DirectAddress(Connected(g, a, peer, address, false).store, port, peer) in {None, Some(address)}
  {
    hide DirectAddress, Note, RotatePorts;
    var e := PeerConnected(peer, address, false);
    var b := a.(direct := a.direct + {peer}, store := Note(a.store, peer, address));
    var ports := g.net.iterate(b.trace, RelayStuck(b, peer));
    NoteFades(a.store, peer, address, port, peer);
    RotatePortsMoves(g, b, e, peer, ports);
    var ms :| AllAllowed(g, b, e, ms) && DoAll(g, b, ms) == RotatePorts(g, b, peer, ports);
    MovesFade(g, b, e, ms, port, peer, Some(address));
  }

  /** The address of the last direct connection of the peer among the messages, if any. */
  function LastObserved(delivered: seq<DiscoveryEvent>, peer: PeerId): Option<Multiaddr> {
    if delivered == [] then None
    else if Observes(delivered[|delivered| - 1], peer) then Some(delivered[|delivered| - 1].address)
    else LastObserved(delivered[..|delivered| - 1], peer)
  }

  /** Over every run: an address recalled for a peer is the one of its last direct connection,
      or, if it had none in this run, the one the loaded store held. */
  lemma {:induction false} RecalledWasObserved(g: Setting, start: System, run: seq<Step>, port: Port, peer: PeerId)
    requires Scenario(g, start, run)
    ensures var sys := Execute(g, start, run);
            var known, observed := DirectAddress(sys.actor.store, port, peer), LastObserved(sys.delivered, peer);
            known.Some? ==> known == if observed.Some? then observed else DirectAddress(start.actor.store, port, peer)
  {
    if run != [] {
      var front, step := run[..|run| - 1], run[|run| - 1];
      var sys := Execute(g, start, front);
      RecalledWasObserved(g, start, front, port, peer);
      RunKeepsPools(g, start, front);
      if step.Deliver? {
        HandleFades(g, sys.actor, step.event, port, peer);
        assert (sys.delivered + [step.event])[..|sys.delivered|] == sys.delivered;
        hide Handle, DirectAddress;
      }
    }
  }
}

/** The dropped peer is meant to be passed over by the pool pass and by discovery. Neither
    holds in general; these are the exact conditions. */
module Returns {
  import opened Wrappers
  import opened Selection
  import opened Sticky
  import opened Config
  import opened NetworkActors
  import opened Environments
  import opened ConnectSpec
  import opened ConnectEffort
  import opened ConnectPools
  import opened ConnectSummaries
  import opened DiscoverySpec
  import opened Moves
  import opened ExitOrigins
  import opened HardPinExact

  /** A contract-keeping world in which the hub resolves nobody and always offers `found`,
      and in which `p` can be reached from the first such offer on. */
  ghost function OfferNet(p: PeerId, found: seq<PoolPeer>): Net {
    Net((t, peers) => Err(Timeout), (t, server, n) => Ok(found),
        (t, a) => Ok(if Queries(t) > 0 && p in DestinationPeerIds(a) then Some(p) else None),
        (t, x) => false, t => Slept(t), (t, s) => Listing(s))
  }

  lemma OfferNetIsSound(g: Setting, p: PeerId, found: seq<PoolPeer>)
    requires g.net == OfferNet(p, found)
    ensures Sound(g)
  {
    forall t: Trace, a: Act
      ensures g.net.now(t) <= g.net.now(t + [a]) && (a.Sleeping? ==> g.net.now(t) + a.duration <= g.net.now(t + [a]))
    {
      assert (t + [a])[..|t|] == t;
    }
    forall t: Trace, d: nat ensures g.net.now(t) + d <= g.net.now(t + [Sleeping(d)]) {
      assert (t + [Sleeping(d)])[..|t|] == t;
    }
  }

  /** What matters of that world to a connect. */
  ghost predicate Offering(net: Net, p: PeerId, found: seq<PoolPeer>) {
    && (forall t, peers :: net.resolve(t, peers) == Err(Timeout))
    && (forall t, x, n :: net.findNodes(t, x, n) == Ok(found))
    && (forall t, a :: net.dial(t, a) == Ok(if Queries(t) > 0 && p in DestinationPeerIds(a) then Some(p) else None))
  }

  lemma OfferNetOffers(p: PeerId, found: seq<PoolPeer>)
    ensures Offering(OfferNet(p, found), p, found)
  {
  }

  // ---------- who is not reached in that world ----------

  lemma RaceFails(w: World, t: Trace, routes: set<Multiaddr>, p: PeerId, found: seq<PoolPeer>)
    requires Offering(w.net, p, found) && (Queries(t) == 0 || p !in DestinationPeerIds(routes))
    ensures var r := DialRoutes(w, t, routes); r.peer.None? && Queries(r.trace) == Queries(t)
  {
    var t0 := t + [Racing(routes)];
    assert t0[..|t|] == t;
    RaceCounts(w, t, routes);
    DialSetCounts(w, t0, Direct(routes));
    assert DestinationPeerIds(Direct(routes)) <= DestinationPeerIds(routes);
    assert DestinationPeerIds(Relayed(routes)) <= DestinationPeerIds(routes);
  }

  lemma ReachFails(w: World, s: Store, t: Trace, port: Port, peer: PeerId, p: PeerId, found: seq<PoolPeer>)
    requires Offering(w.net, p, found) && Queries(t) == 0
    ensures var r := TryReach(w, s, t, port, peer); r.peer.None? && Queries(r.trace) == 0
  {
    var reply := w.net.resolve(t, [peer]);
    var t1 := t + [Resolving([peer], reply)];
    assert t1[..|t|] == t;
    RaceFails(w, t1, ReachRoutes(w.relay, s, port, peer, UsableRoutes(w.relay, [peer], reply)), p, found);
  }

  lemma {:induction false} FightFails(w: World, s: Store, t: Trace, port: Port, peer: PeerId, attempt: nat,
                                      p: PeerId, found: seq<PoolPeer>)
    requires Offering(w.net, p, found) && Queries(t) == 0
    ensures var r := Reconnect(w, s, t, port, peer, attempt); r.peer.None? && Queries(r.trace) == 0
    decreases STICKY_RECONNECT_ATTEMPTS - attempt
  {
    hide TryReach, Offering;
    if attempt < STICKY_RECONNECT_ATTEMPTS {
      var u := TryReach(w, s, t, port, peer).trace;
      ReachFails(w, s, t, port, peer, p, found);
      assert (u + [Sleeping(ReconnectDelay(attempt))])[..|u|] == u;
      FightFails(w, s, AfterAttempt(u, attempt), port, peer, attempt + 1, p, found);
    }
  }

  lemma {:induction false} WalkFails(w: World, s: Store, t: Trace, port: Port, peers: seq<PeerId>, skip: Option<PeerId>,
                                     p: PeerId, found: seq<PoolPeer>)
    requires Offering(w.net, p, found) && (Queries(t) == 0 || peers == [])
    ensures WalkPool(w, s, t, port, peers, skip).peer.None?
    decreases |peers|
  {
    hide TryReach, Offering;
    if peers != [] {
      if Some(peers[0]) == skip {
        WalkFails(w, s, t, port, peers[1..], skip, p, found);
      } else {
        ReachFails(w, s, t, port, peers[0], p, found);
        WalkFails(w, Forget(s, port, peers[0]), TryReach(w, s, t, port, peers[0]).trace, port, peers[1..], skip, p,
          found);
      }
    }
  }

  /** None of these entries is a pin to `p`. */
  ghost predicate Elsewhere(pinned: seq<DestinationPeerEntry>, p: PeerId) {
    forall e :: e in pinned ==> ValidEntry(e) && e.peerId != p
  }

  lemma {:induction false} RanksFail(w: World, t: Trace, pinned: seq<DestinationPeerEntry>, rank: nat, p: PeerId,
                                     found: seq<PoolPeer>)
    requires Offering(w.net, p, found) && (Queries(t) == 0 || Elsewhere(pinned, p))
    ensures var r := TryRanks(w, t, pinned, map[], rank); r.peer.None? && Queries(r.trace) == Queries(t)
    decreases |pinned| - rank
  {
    hide Offering, DialRoutes;
    if rank < |pinned| {
      var candidate := CandidateRoutes(pinned[rank], map[]);
      if Elsewhere(pinned, p) { assert pinned[rank] in pinned; }
      if candidate == {} {
        RanksFail(w, t, pinned, rank + 1, p, found);
      } else {
        RaceFails(w, t, candidate, p, found);
        RanksFail(w, DialRoutes(w, t, candidate).trace, pinned, rank + 1, p, found);
      }
    }
  }

  lemma PassFails(w: World, t: Trace, server: Server, p: PeerId, found: seq<PoolPeer>)
    requires Offering(w.net, p, found) && (Queries(t) == 0 || Elsewhere(server.Pinned(), p))
    ensures var r := PinnedPass(w, t, server); r.peer.None? && Queries(r.trace) == Queries(t)
  {
    var pinned := server.Pinned();
    var a := Resolving(PinnedIdSeq(pinned), w.net.resolve(t, PinnedIdSeq(pinned)));
    var b := Emitting(PinnedPeerStatuses(server.port, Statuses(pinned, PinnedRoutes(w, t, pinned))));
    assert (t + [a])[..|t|] == t && (t + [a] + [b])[..|t| + 1] == t + [a];
    assert PinnedRoutes(w, t, pinned) == map[];
    RanksFail(w, t + [a] + [b], pinned, 0, p, found);
  }

  // ---------- and who is ----------

  lemma RaceSucceeds(w: World, t: Trace, routes: set<Multiaddr>, p: PeerId, found: seq<PoolPeer>)
    requires Offering(w.net, p, found) && Queries(t) > 0 && p in DestinationPeerIds(routes)
    ensures DialRoutes(w, t, routes).peer == Some(p)
  {
    var t0 := t + [Racing(routes)];
    assert t0[..|t|] == t;
    DialSetCounts(w, t0, Direct(routes));
    var a :| a in routes && LastP2p(a) == Some(p);
    if IsRelayed(a) { assert a in Relayed(routes); } else { assert a in Direct(routes); }
  }

  lemma DiscoverySucceeds(w: World, s: Store, t: Trace, server: Server, p: PeerId, found: seq<PoolPeer>)
    requires Offering(w.net, p, found) && p in Targets(w.relay, found)
    ensures Discover(w, s, t, server, 0).result == Ok(ConnectedDestination(p, Discovered))
  {
    var a := FindingNodes(server.port, FINDNODES_DISCOVERY_LIMIT, Ok(found));
    var b := Emitting(ServerPool(server.port, found));
    assert (t + [a])[..|t|] == t && (t + [a] + [b])[..|t| + 1] == t + [a];
    assert Queries(t + [a]) > 0 && Queries(t + [a] + [b]) > 0;
    RaceSucceeds(w, t + [a] + [b], CandidateAddresses(w.relay, found), p, found);
    var route :| route in CandidateAddresses(w.relay, found) && LastP2p(route) == Some(p);
    assert found != [];
    assert w.net.findNodes(t, server, FINDNODES_DISCOVERY_LIMIT) == Ok(found);
    assert DiscoverOnce(w, t, server).peer == Some(p);
  }

  lemma UnpinnedOffered(w: World, s: Store, t: Trace, server: Server, avoid: Option<PeerId>, p: PeerId,
                        found: seq<PoolPeer>)
    requires Offering(w.net, p, found) && p in Targets(w.relay, found)
    requires Queries(t) == 0 || (PoolOf(s, server) == [] && avoid == None)
    ensures ConnectDiscovered(w, s, t, server, avoid).result == Ok(ConnectedDestination(p, Discovered))
  {
    hide Offering, Discover, WalkPool, Reconnect;
    var s1, t1 := s, t;
    if Fights(server, avoid) {
      FightFails(w, s, t, server.port, avoid.value, 0, p, found);
      s1, t1 := Forget(s, server.port, avoid.value), Reconnect(w, s, t, server.port, avoid.value, 0).trace;
    }
    var fp := server.Fingerprint();
    WalkFails(w, Invalidate(s1, server.port, fp), t1, server.port, PoolIds(s1, server.port, fp), avoid, p, found);
    var pass := ConnectPool(w, s1, t1, server, avoid);
    DiscoverySucceeds(w, pass.store, pass.trace, server, p, found);
  }

  /** In that world a server that may discover is given the offered peer: before the hub was
      ever asked, even if that is the peer to avoid or one of its pins; later on, if it has
      no pool to try and no pin to that peer. */
  lemma ConnectOffered(w: World, s: Store, t: Trace, server: Server, avoid: Option<PeerId>, p: PeerId,
                       found: seq<PoolPeer>)
    requires Offering(w.net, p, found) && Discovers(server) && p in Targets(w.relay, found)
    requires Queries(t) == 0 || (PoolOf(s, server) == [] && avoid == None && Elsewhere(server.Pinned(), p))
    ensures Connect(w, s, t, server, avoid).result == Ok(ConnectedDestination(p, Discovered))
  {
    hide Offering, ConnectDiscovered, PinnedPass, PoolOf, Elsewhere;
    if server.Pinned() == [] {
      UnpinnedOffered(w, s, t, server, avoid, p, found);
    } else {
      PassFails(w, t, server, p, found);
      UnpinnedOffered(w, s, PinnedPass(w, t, server).trace, server, None, p, found);
    }
  }

  ghost predicate AlwaysOffers(net: Net, found: seq<PoolPeer>) {
    forall t, x, n :: net.findNodes(t, x, n) == Ok(found)
  }

  lemma OfferIsFound(w: World, server: Server, t: Trace, from: nat, p: PeerId, found: seq<PoolPeer>)
    requires AlwaysOffers(w.net, found) && Offered(w, server, t, from, p)
    ensures p in Targets(w.relay, found)
  {
    var i: nat :| from <= i && OffersAt(w, server, t, i, p);
    assert w.net.findNodes(t[..i], server, t[i].limit) == Ok(found);
  }

  /** A connect told to avoid `p` ends on it. */
  ghost predicate HandsBack(net: Net, relay: Multiaddr, s: Store, server: Server, p: PeerId,
                            source: DestinationSource) {
    Connect(World(net, relay), s, [], server, Some(p)).result == Ok(ConnectedDestination(p, source))
  }

  /** The exact condition for discovery: some contract-keeping world whose hub offers `found`
      hands the dropped peer straight back as a discovery if and only if the server may
      discover at all and `found` leads to the peer. */
  lemma DroppedPeerReturnsIff(relay: Multiaddr, s: Store, server: Server, p: PeerId, found: seq<PoolPeer>)
    requires server.Valid() && Distinct(s)
    ensures (exists net :: Honest(net) && AlwaysOffers(net, found) && HandsBack(net, relay, s, server, p, Discovered))
            <==> Discovers(server) && p in Targets(relay, found)
  {
    if net :| Honest(net) && AlwaysOffers(net, found) && HandsBack(net, relay, s, server, p, Discovered) {
      var w := World(net, relay);
      ConnectOrigin(w, s, [], server, Some(p));
      OfferIsFound(w, server, Connect(w, s, [], server, Some(p)).trace, 0, p, found);
    }
    if Discovers(server) && p in Targets(relay, found) {
      var net := OfferNet(p, found);
      OfferNetIsSound(Setting(net, relay, []), p, found);
      OfferNetOffers(p, found);
      hide OfferNet, Connect, Elsewhere;
      ConnectOffered(World(net, relay), s, [], server, Some(p), p, found);
      assert Honest(net) && AlwaysOffers(net, found) && HandsBack(net, relay, s, server, p, Discovered);
    }
  }

  // ---------- the pool pass ----------

  /** The dialler is about to race the routes just resolved for `p` alone. */
  predicate AboutTo(t: Trace, p: PeerId) {
    |t| >= 2 && t[|t| - 2].Resolving? && t[|t| - 2].peers == [p]
  }

  /** A contract-keeping world in which the hub resolves everybody and offers nobody, and
      `p` answers only when it is reached for by itself. */
  ghost function ReachNet(p: PeerId): Net {
    Net((t, peers) => Ok(map x | x in peers :: [[P2p(x)]]), (t, server, n) => Err(Timeout),
        (t, a) => Ok(if AboutTo(t, p) && [P2p(p)] in a then Some(p) else None),
        (t, x) => false, t => Slept(t), (t, s) => Listing(s))
  }

  ghost predicate Reaching(net: Net, p: PeerId) {
    && (forall t, peers :: net.resolve(t, peers) == Ok(map x | x in peers :: [[P2p(x)]]))
    && (forall t, a :: net.dial(t, a) == Ok(if AboutTo(t, p) && [P2p(p)] in a then Some(p) else None))
  }

  lemma ReachNetKeepsContracts(p: PeerId)
    ensures Honest(ReachNet(p)) && Reaching(ReachNet(p), p)
  {
    var net := ReachNet(p);
    forall t, a | net.dial(t, a).Ok? ensures AnswerAllowed(a, net.dial(t, a).value) {
      assert LastP2p([P2p(p)]) == Some(p);
    }
    forall t, peers | net.resolve(t, peers).Ok? ensures HonestRoutes(peers, net.resolve(t, peers).value) {
      forall x: PeerId, a | x in peers && a in [[P2p(x)]] ensures LeadsTo(a, x) { assert a == [P2p(x)]; }
    }
  }

  lemma RaceMisses(w: World, t: Trace, routes: set<Multiaddr>, p: PeerId)
    requires Reaching(w.net, p) && t != [] && (t[|t| - 1].Resolving? ==> t[|t| - 1].peers != [p])
    ensures var r := DialRoutes(w, t, routes); r.peer.None? && r.trace != [] && !r.trace[|r.trace| - 1].Resolving?
  {
  }

  lemma {:induction false} RanksMiss(w: World, t: Trace, pinned: seq<DestinationPeerEntry>, routes: Routes,
                                     rank: nat, p: PeerId)
    requires Reaching(w.net, p) && t != [] && !t[|t| - 1].Resolving?
    ensures TryRanks(w, t, pinned, routes, rank).peer.None?
    decreases |pinned| - rank
  {
    hide Reaching, DialRoutes;
    if rank < |pinned| {
      var candidate := CandidateRoutes(pinned[rank], routes);
      if candidate == {} {
        RanksMiss(w, t, pinned, routes, rank + 1, p);
      } else {
        RaceMisses(w, t, candidate, p);
        RanksMiss(w, DialRoutes(w, t, candidate).trace, pinned, routes, rank + 1, p);
      }
    }
  }

  lemma ReachHits(w: World, s: Store, t: Trace, port: Port, p: PeerId)
    requires Reaching(w.net, p)
    ensures TryReach(w, s, t, port, p).peer == Some(p)
  {
    var reply := w.net.resolve(t, [p]);
    var usable := UsableRoutes(w.relay, [p], reply);
    assert p in usable && usable[p][0] == [P2p(p)] && [P2p(p)] in usable[p];
    assert [P2p(p)] in AllRoutes(usable) && !IsRelayed([P2p(p)]);
    var routes := ReachRoutes(w.relay, s, port, p, usable);
    assert [P2p(p)] in Direct(routes);
    assert AboutTo(t + [Resolving([p], reply)] + [Racing(routes)], p);
  }

  lemma ReachMisses(w: World, s: Store, t: Trace, port: Port, peer: PeerId, p: PeerId)
    requires Reaching(w.net, p) && peer != p
    ensures TryReach(w, s, t, port, peer).peer.None?
  {
    var reply := w.net.resolve(t, [peer]);
    assert [peer][0] != [p][0];
    RaceMisses(w, t + [Resolving([peer], reply)],
      ReachRoutes(w.relay, s, port, peer, UsableRoutes(w.relay, [peer], reply)), p);
  }

  lemma {:induction false} WalkHits(w: World, s: Store, t: Trace, port: Port, peers: seq<PeerId>, p: PeerId)
    requires Reaching(w.net, p) && p in peers
    ensures WalkPool(w, s, t, port, peers, None).peer == Some(p)
    decreases |peers|
  {
    hide Reaching, TryReach;
    if peers[0] == p {
      ReachHits(w, s, t, port, p);
    } else {
      assert peers == [peers[0]] + peers[1..];
      ReachMisses(w, s, t, port, peers[0], p);
      WalkHits(w, Forget(s, port, peers[0]), TryReach(w, s, t, port, peers[0]).trace, port, peers[1..], p);
    }
  }

  /** A pinned server does not tell its fallback who dropped, so the pool pass takes the
      dropped peer right back. */
  lemma FallbackReusesDropped(w: World, s: Store, t: Trace, server: Server, p: PeerId)
    requires Reaching(w.net, p) && server.Pinned() != [] && server.fallbackToDiscovery
    requires server.sticky && p in PoolOf(s, server)
    ensures Connect(w, s, t, server, Some(p)).result == Ok(ConnectedDestination(p, StickyReuse))
  {
    var pinned := server.Pinned();
    var u := PinnedPrelude(w, t, server.port, pinned);
    RanksMiss(w, u, pinned, PinnedRoutes(w, t, pinned), 0, p);
    hide Reaching, PinnedPass, WalkPool, Discover;
    var fp := server.Fingerprint();
    WalkHits(w, Invalidate(s, server.port, fp), PinnedPass(w, t, server).trace, server.port,
      PoolIds(s, server.port, fp), p);
  }

  lemma FightWins(w: World, s: Store, t: Trace, server: Server, p: PeerId)
    requires Reaching(w.net, p) && server.Pinned() == [] && Fights(server, Some(p))
    ensures Connect(w, s, t, server, Some(p)).result == Ok(ConnectedDestination(p, StickyReuse))
  {
    ReachHits(w, s, t, server.port, p);
    hide TryReach, ConnectFresh;
    assert Reconnect(w, s, t, server.port, p, 0).peer == Some(p);
  }

  /** The server wins the dropped peer back on purpose, or its fallback finds it in the pool. */
  ghost predicate MayReuse(s: Store, server: Server, p: PeerId) {
    if server.Pinned() == [] then Fights(server, Some(p))
    else server.fallbackToDiscovery && server.sticky && p in PoolOf(s, server)
  }

  lemma ReuseIsAllowed(w: World, s: Store, server: Server, p: PeerId)
    requires Honest(w.net) && server.Valid() && Distinct(s) && HandsBack(w.net, w.relay, s, server, p, StickyReuse)
    ensures MayReuse(s, server, p)
  {
    if server.Pinned() == [] {
      if !server.sticky {
        NotStickyUntouched(w, s, [], server, Some(p));
      } else {
        DiscoveredPoolEffect(w, s, [], server, Some(p));
      }
    } else if !server.fallbackToDiscovery {
      HardPinUntouched(w, s, [], server, 0);
    } else {
      var u := PinnedPass(w, [], server).trace;
      DiscoveredSummary(w, s, u, server, None);
      hide PinnedPass, ConnectDiscovered, PoolKept;
      if !server.sticky { NotStickyUntouched(w, s, u, server, None); }
    }
  }

  /** The exact condition for the pool: some contract-keeping world hands the dropped peer
      back as a reused one if and only if an unpinned server fights for it, or a pinned
      one falls back on a pool that holds it. */
  lemma DroppedPeerReusedIff(relay: Multiaddr, s: Store, server: Server, p: PeerId)
    requires server.Valid() && Distinct(s)
    ensures (exists net :: Honest(net) && HandsBack(net, relay, s, server, p, StickyReuse)) <==> MayReuse(s, server, p)
  {
    if net :| Honest(net) && HandsBack(net, relay, s, server, p, StickyReuse) {
      ReuseIsAllowed(World(net, relay), s, server, p);
    }
    if MayReuse(s, server, p) {
      var net := ReachNet(p);
      ReachNetKeepsContracts(p);
      hide ReachNet, Connect;
      if server.Pinned() == [] {
        FightWins(World(net, relay), s, [], server, p);
      } else {
        FallbackReusesDropped(World(net, relay), s, [], server, p);
      }
      assert Honest(net) && HandsBack(net, relay, s, server, p, StickyReuse);
    }
  }
}

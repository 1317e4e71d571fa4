/** An unusable peer is meant never to be connected to again. It comes back exactly when
    it is a pin of the port, or the port may discover and the hub offers it. */
module UnusablePeers {
  import opened Wrappers
  import opened Selection
  import opened Sequences
  import opened Sticky
  import opened Config
  import opened NetworkActors
  import opened Environments
  import opened ConnectSpec
  import opened ConnectEffort
  import opened ConnectPools
  import opened ConnectSummaries
  import opened DiscoverySpec
  import opened Moves
  import opened PoolInvariants
  import opened Histories
  import opened ExitOrigins
  import opened Runs
  import opened HardPinExact
  import opened Returns

  // ---------- a world that gives a pin ----------

  /** A contract-keeping world in which everybody resolves, the hub offers `found`, and
      only `p` answers. */
  ghost function PinNet(p: PeerId, found: seq<PoolPeer>): Net {
    Net((t, peers) => Ok(map x | x in peers :: [[P2p(x)]]), (t, server, n) => Ok(found),
        (t, a) => Ok(if [P2p(p)] in a then Some(p) else None), (t, x) => false, t => Slept(t), (t, s) => Listing(s))
  }

  /** What matters of that world to a connect. */
  ghost predicate Pinning(net: Net, p: PeerId) {
    && (forall t, peers :: net.resolve(t, peers) == Ok(map x | x in peers :: [[P2p(x)]]))
    && (forall t, a :: net.dial(t, a) == Ok(if [P2p(p)] in a then Some(p) else None))
    && (forall t, x :: !net.isConnected(t, x))
  }

  lemma PinNetIsSound(g: Setting, p: PeerId, found: seq<PoolPeer>)
    requires g.net == PinNet(p, found)
    ensures Sound(g) && Pinning(g.net, p) && AlwaysOffers(g.net, found)
  {
    forall t, a | g.net.dial(t, a).Ok? ensures AnswerAllowed(a, g.net.dial(t, a).value) {
      assert LastP2p([P2p(p)]) == Some(p);
    }
    forall t, peers | g.net.resolve(t, peers).Ok? ensures HonestRoutes(peers, g.net.resolve(t, peers).value) {
      forall x: PeerId, a | x in peers && a in [[P2p(x)]] ensures LeadsTo(a, x) { assert a == [P2p(x)]; }
    }
    forall t: Trace, a: Act
      ensures g.net.now(t) <= g.net.now(t + [a]) && (a.Sleeping? ==> g.net.now(t) + a.duration <= g.net.now(t + [a]))
    {
      assert (t + [a])[..|t|] == t;
    }
    forall t: Trace, d: nat ensures g.net.now(t) + d <= g.net.now(t + [Sleeping(d)]) {
      assert (t + [Sleeping(d)])[..|t|] == t;
    }
  }

  lemma RaceAnswers(w: World, t: Trace, routes: set<Multiaddr>, p: PeerId)
    requires Pinning(w.net, p)
    ensures DialRoutes(w, t, routes).peer == if [P2p(p)] in routes then Some(p) else None
  {
    assert !IsRelayed([P2p(p)]);
    if [P2p(p)] in routes { assert [P2p(p)] in Direct(routes); }
  }

  /** A rank has the route that answers exactly when it is a pin to that peer. */
  lemma RankRoutes(w: World, t: Trace, pinned: seq<DestinationPeerEntry>, rank: nat, p: PeerId)
    requires Pinning(w.net, p) && rank < |pinned| && ValidEntry(pinned[rank])
    ensures [P2p(p)] in CandidateRoutes(pinned[rank], PinnedRoutes(w, t, pinned)) <==> pinned[rank].peerId == p
  {
    var routes, x := PinnedRoutes(w, t, pinned), pinned[rank].peerId;
    assert PinnedIdSeq(pinned)[rank] == x;
    assert x in routes && routes[x] == [[P2p(x)]] && routes[x][0] in routes[x];
    assert LastP2p([P2p(p)]) == Some(p);
  }

  lemma {:induction false} RanksReach(w: World, t: Trace, u: Trace, pinned: seq<DestinationPeerEntry>, rank: nat,
                                      k: nat, p: PeerId)
    requires Pinning(w.net, p) && (forall e :: e in pinned ==> ValidEntry(e))
    requires rank <= k < |pinned| && pinned[k].peerId == p
    ensures TryRanks(w, u, pinned, PinnedRoutes(w, t, pinned), rank).peer == Some(p)
    decreases |pinned| - rank
  {
    assert pinned[rank] in pinned;
    RankRoutes(w, t, pinned, rank, p);
    hide Pinning, DialRoutes, PinnedRoutes;
    var candidate := CandidateRoutes(pinned[rank], PinnedRoutes(w, t, pinned));
    if candidate == {} {
      RanksReach(w, t, u, pinned, rank + 1, k, p);
    } else {
      RaceAnswers(w, u, candidate, p);
      if pinned[rank].peerId != p { RanksReach(w, t, DialRoutes(w, u, candidate).trace, pinned, rank + 1, k, p); }
    }
  }

  lemma {:induction false} NobodyBetter(w: World, t: Trace, pinned: seq<DestinationPeerEntry>, better: nat, rank: nat,
                                        peer: PeerId, p: PeerId)
    requires Pinning(w.net, p) && rank <= |pinned|
    ensures AdoptBest(w, t, pinned, better, rank, peer).peer == Some(peer)
    decreases rank - better
  {
    if better < rank {
      NobodyBetter(w, t + [AskingConnected(pinned[better].peerId, false)], pinned, better + 1, rank, peer, p);
    }
  }

  lemma PinConnects(w: World, s: Store, t: Trace, server: Server, p: PeerId)
    requires Pinning(w.net, p) && server.Valid() && p in server.PinnedIds()
    ensures var r := Connect(w, s, t, server, None); r.result.Ok? && r.result.value.peer == p
  {
    var pinned := server.Pinned();
    var e :| e in pinned && e.peerId == p;
    var k: nat :| k < |pinned| && pinned[k] == e;
    RanksReach(w, t, PinnedPrelude(w, t, server.port, pinned), pinned, 0, k, p);
    hide Pinning, PinnedPrelude, PinnedRoutes;
    var tried := PinnedPass(w, t, server);
    NobodyBetter(w, tried.trace, pinned, 0, tried.rank, p, p);
  }

  // ---------- a world that gives the peer to every selection ----------

  /** Whenever the server's pool is empty, a selection serves `p`. */
  ghost predicate Gives(g: Setting, server: Server, p: PeerId) {
    forall a: Actor :: PoolOf(a.store, server) == [] ==> Select(g, a, server, None).peer == Some(p)
  }

  lemma GivenTo(g: Setting, a: Actor, server: Server, p: PeerId)
    requires Gives(g, server, p) && PoolOf(a.store, server) == []
    ensures Select(g, a, server, None).peer == Some(p)
  {
    hide Select, PoolOf;
  }

  lemma PinNetGives(g: Setting, server: Server, p: PeerId)
    requires Pinning(g.net, p) && server.Valid() && p in server.PinnedIds()
    ensures Gives(g, server, p)
  {
    hide Pinning, Connect;
    forall a: Actor ensures Select(g, a, server, None).peer == Some(p) {
      PinConnects(g.W(), a.store, a.trace + [Selecting(server.port)], server, p);
    }
  }

  lemma OfferNetGives(g: Setting, server: Server, p: PeerId, found: seq<PoolPeer>)
    requires Offering(g.net, p, found) && Discovers(server) && p in Targets(g.relay, found)
    requires Elsewhere(server.Pinned(), p)
    ensures Gives(g, server, p)
  {
    hide Offering, Connect, PoolOf, Elsewhere;
    forall a: Actor | PoolOf(a.store, server) == [] ensures Select(g, a, server, None).peer == Some(p) {
      ConnectOffered(g.W(), a.store, a.trace + [Selecting(server.port)], server, None, p, found);
    }
  }

  /** Pins and offers alike: some such world is there whenever the condition holds. */
  lemma GivingWorld(relay: Multiaddr, server: Server, p: PeerId, found: seq<PoolPeer>) returns (g: Setting)
    requires server.Valid() && MayReturn(relay, server, p, found)
    ensures g.relay == relay && g.servers == [server]
    ensures Sound(g) && AlwaysOffers(g.net, found) && Gives(g, server, p)
  {
    hide Gives, Sound, Offering, Pinning;
    if p in server.PinnedIds() {
      g := Setting(PinNet(p, found), relay, [server]);
      PinNetIsSound(g, p, found);
      PinNetGives(g, server, p);
    } else {
      g := Setting(OfferNet(p, found), relay, [server]);
      OfferNetIsSound(g, p, found);
      OfferNetOffers(p, found);
      OfferNetGives(g, server, p, found);
    }
  }

  /** The run ends with `p` serving the port, and declaring it unusable puts it back. */
  ghost predicate ComesBack(g: Setting, start: System, run: seq<Step>, server: Server, p: PeerId) {
    && Scenario(g, start, run) && server in g.servers
    && var a := Execute(g, start, run).actor;
       var b := Handle(g, a, PeerUnusable(p));
    && server.port in a.destinations && a.destinations[server.port] == Some(p)
    && server.port in b.destinations && b.destinations[server.port] == Some(p)
  }

  /** After a first selection from an empty store the pool holds at most the exit. */
  lemma FirstGiven(g: Setting, server: Server, p: PeerId)
    requires Sound(g) && Gives(g, server, p) && g.servers == [server] && server.Valid()
    ensures var b := Handle(g, FreshActor(server, map[]), DiscoverFor(server.port));
            && b.destinations == map[server.port := Some(p)] && Distinct(b.store)
            && forall x :: x in PoolOf(b.store, server) ==> x == p
  {
    SoundIsHonest(g);
    EmptyStore(server);
    hide Gives, Select, PoolOf, Sound, Honest, Distinct;
    var a := FreshActor(server, map[]);
    assert FindServer(g.servers, server.port) == Some(server);
    assert a.(pending := a.pending - {server.port}) == a;
    GivenTo(g, a, server, p);
    OnlyExitRemembered(g, a, server, p);
    OnlyPortServed(g, a, server, p);
  }

  lemma OnlyExitRemembered(g: Setting, a: Actor, server: Server, p: PeerId)
    requires Honest(g.net) && Distinct(a.store) && server.Valid() && PoolOf(a.store, server) == []
    requires Select(g, a, server, None).peer == Some(p)
    ensures var b := Select(g, a, server, None).actor;
            Distinct(b.store) && forall x :: x in PoolOf(b.store, server) ==> x == p
  {
    SelectEffect(g, a, server, None);
    hide Select, PoolOf, Honest;
  }

  lemma OnlyPortServed(g: Setting, a: Actor, server: Server, p: PeerId)
    requires a.destinations.Keys == {server.port} && Select(g, a, server, None).peer == Some(p)
    ensures Select(g, a, server, None).actor.destinations == map[server.port := Some(p)]
  {
    SelectFrame(g, a, server, None);
    hide Select;
    assert server.port in a.destinations;
    assert forall q :: q in Select(g, a, server, None).actor.destinations <==> q == server.port;
  }

  lemma SoundIsHonest(g: Setting)
    requires Sound(g)
    ensures Honest(g.net)
  {
  }

  lemma EmptyStore(server: Server)
    ensures PoolOf(map[], server) == [] && Distinct(map[])
  {
  }

  lemma GivenBack(g: Setting, a: Actor, server: Server, p: PeerId)
    requires Sound(g) && Gives(g, server, p) && g.servers == [server] && Distinct(a.store)
    requires a.destinations == map[server.port := Some(p)] && forall x :: x in PoolOf(a.store, server) ==> x == p
    ensures Handle(g, a, PeerUnusable(p)).destinations == map[server.port := Some(p)]
  {
    hide Gives, PoolOf, Sound, ForgetEverywhere, DiscoverPorts, ShowPools, ServedBy;
    var b := a.(store := ForgetEverywhere(a.store, [server], p));
    PoolEmptied(a.store, server, p);
    OnePortServed(g, b.trace, server.port, p);
    PortGivenBack(g, b, server, p);
    ShowPoolsExtend(DiscoverPorts(g, b, [server.port]), [server]);
  }

  lemma OnePortServed(g: Setting, t: Trace, port: Port, p: PeerId)
    requires Sound(g)
    ensures g.net.iterate(t, ServedBy(map[port := Some(p)], p)) == [port]
  {
    var stale := ServedBy(map[port := Some(p)], p);
    assert Lists(g.net.iterate(t, stale), stale);
    assert forall q :: q in stale <==> q == port;
    JustOne(g.net.iterate(t, stale), port);
  }

  lemma PoolEmptied(s: Store, server: Server, p: PeerId)
    requires Distinct(s) && forall x :: x in PoolOf(s, server) ==> x == p
    ensures PoolOf(ForgetEverywhere(s, [server], p), server) == []
  {
    hide PoolOf, ForgetEverywhere;
    ForgetEverywhereEffect(s, [server], p, server);
    WithoutMembers(PoolOf(s, server), p);
    Nobody(PoolOf(ForgetEverywhere(s, [server], p), server));
  }

  lemma PortGivenBack(g: Setting, b: Actor, server: Server, p: PeerId)
    requires Gives(g, server, p) && g.servers == [server] && PoolOf(b.store, server) == []
    requires b.destinations == map[server.port := Some(p)]
    ensures DiscoverPorts(g, b, [server.port]).destinations == map[server.port := Some(p)]
  {
    hide Gives, Select, PoolOf;
    var port := server.port;
    var c := b.(pending := b.pending - {port});
    assert FindServer(g.servers, port) == Some(server);
    GivenTo(g, c, server, p);
    OnlyPortServed(g, c, server, p);
    var d := Select(g, c, server, None).actor;
    assert [port][1..] == [] && DiscoverPorts(g, b, [port]) == DiscoverPorts(g, d, []);
  }

  lemma HasMember<T>(s: seq<T>)
    requires s != []
    ensures exists x :: x in s
  {
    assert s[0] in s;
  }

  lemma HasTwoMembers<T>(s: seq<T>)
    requires NoDuplicates(s) && |s| >= 2
    ensures exists x, y :: x in s && y in s && x != y
  {
    assert s[0] in s && s[1] in s;
  }

  lemma Nobody(pool: seq<PeerId>)
    requires forall x :: x !in pool
    ensures pool == []
  {
    if pool != [] { HasMember(pool); }
  }

  lemma JustOne(ports: seq<Port>, port: Port)
    requires NoDuplicates(ports) && forall q :: q in ports <==> q == port
    ensures ports == [port]
  {
    assert port in ports;
    if |ports| >= 2 { HasTwoMembers(ports); }
  }

  lemma GivenRun(g: Setting, server: Server, p: PeerId) returns (start: System, run: seq<Step>)
    requires Sound(g) && Gives(g, server, p) && g.servers == [server] && server.Valid()
    ensures ComesBack(g, start, run, server, p)
  {
    hide Gives, Sound, Handle, PoolOf;
    start := System(FreshActor(server, map[]), multiset{}, []);
    var e := DiscoverFor(server.port);
    run := [] + [Send(e)] + [Deliver(e)];
    FreshIsInitial(g, server, map[]);
    Extend(g, start, [], Send(e));
    Extend(g, start, [] + [Send(e)], Deliver(e));
    assert server in g.servers;
    FirstGiven(g, server, p);
    GivenBack(g, Handle(g, start.actor, e), server, p);
  }

  /** A pin of the port; or, unless the port is hard-pinned, a peer the hub offers. */
  ghost predicate MayReturn(relay: Multiaddr, server: Server, p: PeerId, found: seq<PoolPeer>) {
    p in server.PinnedIds() || (Discovers(server) && p in Targets(relay, found))
  }

  /** The exact condition, for every server: in some contract-keeping world whose hub offers
      `found`, and after some run, the port can be given the very peer just declared
      unusable if and only if that peer is one of its pins, or the port may discover and
      `found` leads to the peer. */
  lemma UnusableReturnsIff(relay: Multiaddr, server: Server, p: PeerId, found: seq<PoolPeer>)
    requires server.Valid()
    ensures (exists g: Setting, start, run ::
               g.relay == relay && AlwaysOffers(g.net, found) && ComesBack(g, start, run, server, p))
            <==> MayReturn(relay, server, p, found)
  {
    hide Handle, Execute, Scenario, Gives;
    if g: Setting, start, run :| g.relay == relay && AlwaysOffers(g.net, found) && ComesBack(g, start, run, server, p) {
      UnusableComesBackByOffer(g, start, run, p, server);
      if p !in server.PinnedIds() {
        var before := Execute(g, start, run).actor;
        OfferIsFound(g.W(), server, Handle(g, before, PeerUnusable(p)).trace, |before.trace|, p, found);
      }
    }
    if MayReturn(relay, server, p, found) {
      var g := GivingWorld(relay, server, p, found);
      var start, run := GivenRun(g, server, p);
    }
  }
}

/** When a hard pin holds, exactly: the hypothesis on the initial pool is needed,
    because rotation consults the pool of a pinned port and the fingerprint that
    guards the pool leaves the pin list out. */
module HardPinExact {
  import opened Wrappers
  import opened Selection
  import opened Sequences
  import opened NetworkActors
  import opened Sticky
  import opened Config
  import opened Environments
  import opened ConnectSpec
  import opened ConnectEffort
  import opened ConnectPools
  import opened ConnectSummaries
  import opened DiscoverySpec
  import opened Moves
  import opened PoolInvariants
  import opened Histories
  import opened EventEffects
  import opened HardPins
  import opened Runs

  ghost function Listing(s: set<Port>): (r: seq<Port>)
    ensures Lists(r, s)
  {
    if s == {} then [] else
      var x :| x in s;
      [x] + Listing(s - {x})
  }

  /** A contract-keeping world in which every peer resolves and only `p` is reachable. */
  ghost function LoneNet(p: PeerId): Net {
    Net((t, peers) => Ok(map x | x in peers :: [[P2p(x)]]), (t, server, n) => Err(Timeout),
        (t, a) => Ok(if [P2p(p)] in a then Some(p) else None), (t, x) => false, t => Slept(t), (t, s) => Listing(s))
  }

  lemma LoneNetIsSound(g: Setting, p: PeerId)
    requires g.net == LoneNet(p)
    ensures Sound(g)
  {
    forall t, a | g.net.dial(t, a).Ok? ensures AnswerAllowed(a, g.net.dial(t, a).value) {
      assert LastP2p([P2p(p)]) == Some(p);
    }
    forall t, peers | g.net.resolve(t, peers).Ok? ensures HonestRoutes(peers, g.net.resolve(t, peers).value) {
      forall x: PeerId, a | x in peers && a in [[P2p(x)]] ensures LeadsTo(a, x) { assert a == [P2p(x)]; }
    }
    forall t: Trace, a: Act
      ensures g.net.now(t) <= g.net.now(t + [a]) && (a.Sleeping? ==> g.net.now(t) + a.duration <= g.net.now(t + [a]))
    {
      assert (t + [a])[..|t|] == t;
    }
    forall t: Trace, d: nat ensures g.net.now(t) + d <= g.net.now(t + [Sleeping(d)]) {
      assert (t + [Sleeping(d)])[..|t|] == t;
    }
  }

  /** In that world a server whose first pin is `p` connects to it. */
  lemma LonePinConnects(w: World, s: Store, t: Trace, server: Server, p: PeerId)
    requires w.net == LoneNet(p) && server.Pinned() != [] && server.Pinned()[0].peerId == p
    ensures Connect(w, s, t, server, None).result == Ok(ConnectedDestination(p, Pinned(0)))
  {
    var pinned := server.Pinned();
    var routes := PinnedRoutes(w, t, pinned);
    var t1 := PinnedPrelude(w, t, server.port, pinned);
    assert PinnedIdSeq(pinned)[0] == p;
    assert p in routes && routes[p] == [[P2p(p)]] && routes[p][0] in routes[p];
    var candidate := CandidateRoutes(pinned[0], routes);
    assert [P2p(p)] in candidate && !IsRelayed([P2p(p)]);
    assert [P2p(p)] in Direct(candidate);
    var r := DialRoutes(w, t1, candidate);
    assert r.peer == Some(p);
    assert TryRanks(w, t1, pinned, routes, 0) == Ranked(r.trace, 0, Some(p));
  }

  ghost function FreshActor(server: Server, init: Store): Actor {
    Actor(init, map[server.port := None], map[], {}, {}, multiset{}, [])
  }

  lemma FirstSelection(g: Setting, server: Server, init: Store, p: PeerId)
    requires g == Setting(LoneNet(p), g.relay, [server]) && IsHardPin(server) && server.Valid() && Distinct(init)
    requires server.Pinned()[0].peerId == p
    ensures var b := Handle(g, FreshActor(server, init), DiscoverFor(server.port));
            && b.store == init && b.direct == {} && server.port in b.destinations
            && b.destinations[server.port] == Some(p)
            && HandlesMatch(g, b)
  {
    hide LoneNet, ConnectFor, Select;
    var a := FreshActor(server, init);
    LoneNetIsSound(g, p);
    assert FindServer(g.servers, server.port) == Some(server);
    assert a.(pending := a.pending - {server.port}) == a;
    LoneSelection(g, a, server, p);
    assert server in g.servers;
    FirstSelected(g, a, server, p);
  }

  lemma LoneSelection(g: Setting, a: Actor, server: Server, p: PeerId)
    requires g.net == LoneNet(p) && server.Pinned() != [] && server.Pinned()[0].peerId == p
    ensures ConnectFor(g, a, server, None).result == Ok(ConnectedDestination(p, Pinned(0)))
  {
    hide LoneNet;
    LonePinConnects(g.W(), a.store, a.trace + [Selecting(server.port)], server, p);
  }

  lemma FirstSelected(g: Setting, a: Actor, server: Server, p: PeerId)
    requires Honest(g.net) && server in g.servers && IsHardPin(server) && server.Valid() && Distinct(a.store)
    requires server.port in a.destinations
    requires ConnectFor(g, a, server, None).result == Ok(ConnectedDestination(p, Pinned(0)))
    ensures var b := Select(g, a, server, None).actor;
            && b.store == a.store && b.direct == a.direct && b.destinations[server.port] == Some(p)
            && b.destinations.Keys == a.destinations.Keys
  {
    hide ConnectFor;
    SelectEffect(g, a, server, None);
    SelectFrame(g, a, server, None);
  }

  ghost function TwoEvents(e1: DiscoveryEvent, e2: DiscoveryEvent): seq<Step> {
    [] + [Send(e1)] + [Deliver(e1)] + [Send(e2)] + [Deliver(e2)]
  }

  lemma TwoEventsRun(g: Setting, start: System, e1: DiscoveryEvent, e2: DiscoveryEvent)
    requires start.queue == multiset{} && start.delivered == []
    ensures var run := TwoEvents(e1, e2);
            && Feasible(g, start, run)
            && Execute(g, start, run).actor == Handle(g, Handle(g, start.actor, e1), e2)
            && Execute(g, start, run).delivered == [e1, e2]
  {
    var r1 := [] + [Send(e1)];
    var r2 := r1 + [Deliver(e1)];
    var r3 := r2 + [Send(e2)];
    Extend(g, start, [], Send(e1));
    Extend(g, start, r1, Deliver(e1));
    Extend(g, start, r2, Send(e2));
    Extend(g, start, r3, Deliver(e2));
    assert e1 in Execute(g, start, r1).queue && e2 in Execute(g, start, r3).queue;
  }

  /** The first pin connects, then the stranger does, directly. */
  lemma TakeOver(server: Server, init: Store, q: PeerId, relay: Multiaddr, address: Multiaddr, g: Setting)
    requires IsHardPin(server) && server.Valid() && Distinct(init)
    requires q in PoolOf(init, server) && q !in server.PinnedIds()
    requires g == Setting(LoneNet(server.Pinned()[0].peerId), relay, [server])
    ensures var b := Handle(g, Handle(g, FreshActor(server, init), DiscoverFor(server.port)),
            PeerConnected(q, address, false));
            server.port in b.destinations && b.destinations[server.port] == Some(q)
  {
    hide LoneNet, Handle, PoolOf, Sound;
    var p := server.Pinned()[0].peerId;
    assert server.Pinned()[0] in server.Pinned();
    LoneNetIsSound(g, p);
    assert server in g.servers;
    FirstSelection(g, server, init, p);
    DirectConnectEffect(g, Handle(g, FreshActor(server, init), DiscoverFor(server.port)), q, address, server);
  }

  lemma FreshIsInitial(g: Setting, server: Server, init: Store)
    requires g.servers == [server] && server.Valid() && Distinct(init)
    ensures WellSet(g) && Initial(g, System(FreshActor(server, init), multiset{}, []))
  {
    assert server in g.servers;
  }

  /** A stranger in the initial pool becomes the exit as soon as it connects directly,
      whatever the relay and the address it connects from. */
  lemma StrangerTakesOver(server: Server, init: Store, q: PeerId, relay: Multiaddr, address: Multiaddr)
    returns (g: Setting, start: System, run: seq<Step>)
    requires IsHardPin(server) && server.Valid() && Distinct(init)
    requires q in PoolOf(init, server) && q !in server.PinnedIds()
    ensures g.relay == relay && run == TwoEvents(DiscoverFor(server.port), PeerConnected(q, address, false))
    ensures Scenario(g, start, run) && server in g.servers && start.actor.store == init && !Obeys(g, start, run, server)
  {
    hide LoneNet, Execute, Feasible, Handle, PoolOf;
    g := Setting(LoneNet(server.Pinned()[0].peerId), relay, [server]);
    start := System(FreshActor(server, init), multiset{}, []);
    var e1, e2 := DiscoverFor(server.port), PeerConnected(q, address, false);
    run := TwoEvents(e1, e2);
    LoneNetIsSound(g, server.Pinned()[0].peerId);
    FreshIsInitial(g, server, init);
    TakeOver(server, init, q, relay, address, g);
    TwoEventsRun(g, start, e1, e2);
    assert Picks([e1, e2], server.port) == {};
  }

  /** The exact condition: a hard pin holds in every contract-keeping world and over
      every run if and only if the stored pool lies within the pinned ids. It is the
      same behind every relay. */
  lemma HardPinExactly(server: Server, init: Store, relay: Multiaddr)
    requires IsHardPin(server) && server.Valid() && Distinct(init)
    ensures (forall g, start, run ::
               Scenario(g, start, run) && g.relay == relay && server in g.servers && start.actor.store == init ==>
                 Obeys(g, start, run, server))
            <==> (forall x :: x in PoolOf(init, server) ==> x in server.PinnedIds())
  {
    if forall x :: x in PoolOf(init, server) ==> x in server.PinnedIds() {
      forall g, start, run | Scenario(g, start, run) && g.relay == relay && server in g.servers
        && start.actor.store == init
        ensures Obeys(g, start, run, server)
      {
        HardPinHolds(g, start, run, server);
      }
    } else {
      var q :| q in PoolOf(init, server) && q !in server.PinnedIds();
      var g, start, run := StrangerTakesOver(server, init, q, relay, []);
    }
  }

  /** How such a pool comes about: what the same server remembered before it was pinned
      is still its valid pool afterwards. */
  lemma OldPoolSurvivesPinning(server: Server, pins: Option<seq<DestinationPeerEntry>>, q: PeerId)
    ensures PoolOf(Remember(map[], server.port, server.Fingerprint(), q, server.maxTotal),
            server.(destinationPeers := pins)) == [q]
  {
    RememberView(map[], server.port, server.Fingerprint(), q, server.maxTotal);
    assert Without([], q) == [];
  }
}

/** Where the `sticky` switch reaches: pinned servers are meant to ignore it, and a server
    with it off is meant to remember nothing. */
module StickyScopes {
  import opened Wrappers
  import opened Selection
  import opened Sequences
  import opened Sticky
  import opened Config
  import opened Environments
  import opened ConnectSpec
  import opened ConnectPools
  import opened ConnectSummaries
  import opened DiscoverySpec
  import opened Moves
  import opened PoolInvariants
  import opened Runs
  import opened Returns
  import Backoffs

  // ---------- pinned servers ----------

  /** The same server with the switch set. */
  function Switched(server: Server, sticky: bool): Server {
    server.(sticky := sticky)
  }

  lemma SamePass(w: World, t: Trace, server: Server)
    ensures PinnedPass(w, t, Switched(server, true)) == PinnedPass(w, t, Switched(server, false))
  {
    assert Switched(server, true).Pinned() == Switched(server, false).Pinned();
    hide TryRanks, PinnedRoutes, PinnedPrelude;
  }

  lemma {:induction false} HardPinIgnores(w: World, s: Store, t: Trace, server: Server, pass: nat)
    requires !server.fallbackToDiscovery
    ensures ConnectPinned(w, s, t, Switched(server, true), pass)
            == ConnectPinned(w, s, t, Switched(server, false), pass)
    decreases MAX_PINNED_PASSES - pass
  {
    var on, off := Switched(server, true), Switched(server, false);
    SamePass(w, t, server);
    assert on.Pinned() == off.Pinned();
    hide PinnedPass, AdoptBest, ConnectDiscovered;
    if pass < MAX_PINNED_PASSES && PinnedPass(w, t, on).peer.None? {
      HardPinIgnores(w, s, PinnedPass(w, t, on).trace + [Sleeping(Backoffs.SECOND)], server, pass + 1);
    }
  }

  /** The connect of this server does not depend on the switch. */
  ghost predicate Ignores(net: Net, relay: Multiaddr, s: Store, server: Server, avoid: Option<PeerId>) {
    Connect(World(net, relay), s, [], Switched(server, true), avoid)
    == Connect(World(net, relay), s, [], Switched(server, false), avoid)
  }

  /** A store that remembers `p` for this server. */
  function Remembering(server: Server, p: PeerId): Store {
    Remember(map[], server.port, server.Fingerprint(), p, server.maxTotal)
  }

  lemma RemembersOne(server: Server, p: PeerId)
    ensures Distinct(Remembering(server, p)) && p in PoolOf(Remembering(server, p), server)
  {
    RememberView(map[], server.port, server.Fingerprint(), p, server.maxTotal);
    MoveToFrontMembers(PoolOf(map[], server), p, server.maxTotal);
  }

  lemma FallbackHeeds(relay: Multiaddr, server: Server, p: PeerId)
    requires server.Pinned() != [] && server.fallbackToDiscovery && server.Valid()
    ensures !Ignores(ReachNet(p), relay, Remembering(server, p), server, Some(p))
  {
    var on, off, s := Switched(server, true), Switched(server, false), Remembering(server, p);
    var w := World(ReachNet(p), relay);
    ReachNetKeepsContracts(p);
    RemembersOne(server, p);
    assert PoolOf(s, on) == PoolOf(s, server) && on.Pinned() == server.Pinned() == off.Pinned();
    hide ReachNet, Connect, PoolOf, Remembering, Honest, Reaching;
    FallbackReusesDropped(w, s, [], on, p);
    if HandsBack(w.net, relay, s, off, p, StickyReuse) { ReuseIsAllowed(w, s, off, p); }
  }

  /** The exact condition: a pinned server ignores the switch, in every contract-keeping
      world and with every store, if and only if it has no fallback. */
  lemma PinnedIgnoresStickyIff(relay: Multiaddr, server: Server)
    requires server.Pinned() != [] && server.Valid()
    ensures (forall net, s, avoid :: Honest(net) && Distinct(s) ==> Ignores(net, relay, s, server, avoid))
            <==> !server.fallbackToDiscovery
  {
    if server.fallbackToDiscovery {
      var p := PeerId(0);
      ReachNetKeepsContracts(p);
      RemembersOne(server, p);
      FallbackHeeds(relay, server, p);
    } else {
      forall net, s, avoid | Honest(net) && Distinct(s) ensures Ignores(net, relay, s, server, avoid) {
        HardPinIgnores(World(net, relay), s, [], server, 0);
      }
    }
  }

  // ---------- servers that are not sticky ----------

  ghost predicate PoolWithin(s: Server, a: Actor, allowed: set<PeerId>) {
    forall x :: x in PoolOf(a.store, s) ==> x in allowed
  }

  /** No connect of a server that is not sticky touches the store. */
  lemma ConnectForgetsNothing(w: World, s: Store, t: Trace, server: Server, avoid: Option<PeerId>)
    requires !server.sticky
    ensures Connect(w, s, t, server, avoid).store == s
  {
    if server.Pinned() == [] {
      NotStickyUntouched(w, s, t, server, avoid);
    } else if server.fallbackToDiscovery {
      NotStickyUntouched(w, s, PinnedPass(w, t, server).trace, server, None);
    } else {
      HardPinUntouched(w, s, t, server, 0);
    }
  }

  lemma ChooseWithin(g: Setting, a: Actor, port: Port, avoid: Option<PeerId>, s: Server, allowed: set<PeerId>)
    requires Honest(g.net) && WellSet(g) && Distinct(a.store) && s in g.servers && !s.sticky
             && PoolWithin(s, a, allowed)
    ensures var b := DiscoverPort(g, a, port, avoid).actor; Distinct(b.store) && PoolWithin(s, b, allowed)
  {
    var found := FindServer(g.servers, port);
    if found.Some? {
      var b := a.(pending := a.pending - {port});
      SelectEffect(g, b, found.value, avoid);
      if port != s.port {
        OtherPool(a.store, Select(g, b, found.value, avoid).actor.store, port, s);
      } else {
        assert found.value == s;
        ConnectForgetsNothing(g.W(), a.store, a.trace + [Selecting(port)], s, avoid);
      }
    }
  }

  lemma SwitchWithin(g: Setting, a: Actor, e: DiscoveryEvent, m: Move, s: Server, allowed: set<PeerId>)
    requires WellSet(g) && Distinct(a.store) && m.Switch? && Allowed(g, a, e, m) && s in g.servers
             && PoolWithin(s, a, allowed)
    requires e.SelectPeer? && e.port == s.port ==> e.peer in allowed
    ensures var b := Do(g, a, m); Distinct(b.store) && PoolWithin(s, b, allowed)
  {
    SwitchEffect(g, a, m.server, m.peer, m.source);
    if m.server.port != s.port {
      OtherPool(a.store, Do(g, a, m).store, m.server.port, s);
    } else {
      assert m.server == s;
    }
  }

  lemma MoveWithin(g: Setting, a: Actor, e: DiscoveryEvent, m: Move, s: Server, allowed: set<PeerId>)
    requires Sound(g) && WellSet(g) && Distinct(a.store) && Allowed(g, a, e, m)
    requires s in g.servers && !s.sticky && PoolWithin(s, a, allowed)
    requires e.SelectPeer? && e.port == s.port ==> e.peer in allowed
    ensures Distinct(Do(g, a, m).store) && PoolWithin(s, Do(g, a, m), allowed)
  {
    hide DiscoverPort, WellSet;
    match m
    case Choose(port, avoid) => ChooseWithin(g, a, port, avoid, s, allowed);
    case Switch(_, _, _) => SwitchWithin(g, a, e, m, s, allowed);
    case Reread(server) => InvalidateView(a.store, server.port, server.Fingerprint());
    case Learn(peer, address) => NoteView(a.store, peer, address);
    case Unlearn(port, peer) =>
      ForgetView(a.store, port, s.Fingerprint(), peer);
      WithoutMembers(PoolOf(a.store, s), peer);
    case _ =>
  }

  lemma {:induction false} MovesWithin(g: Setting, a: Actor, e: DiscoveryEvent, ms: seq<Move>, s: Server,
                                       allowed: set<PeerId>)
    requires Sound(g) && WellSet(g) && Distinct(a.store) && AllAllowed(g, a, e, ms)
    requires s in g.servers && !s.sticky && PoolWithin(s, a, allowed)
    requires e.SelectPeer? && e.port == s.port ==> e.peer in allowed
    ensures Distinct(DoAll(g, a, ms).store) && PoolWithin(s, DoAll(g, a, ms), allowed)
    decreases |ms|
  {
    if ms != [] {
      MoveWithin(g, a, e, ms[0], s, allowed);
      MovesWithin(g, Do(g, a, ms[0]), e, ms[1..], s, allowed);
    }
  }

  /** Over every run a server that is not sticky remembers nobody but what its store began
      with and the operator's own picks for its port. */
  lemma {:induction false} NotStickyRemembersPicks(g: Setting, start: System, run: seq<Step>, server: Server)
    requires Scenario(g, start, run) && server in g.servers && !server.sticky
    ensures var sys := Execute(g, start, run);
            && Distinct(sys.actor.store)
            && forall x :: x in PoolOf(sys.actor.store, server) ==>
                 x in PoolOf(start.actor.store, server) || x in Picks(sys.delivered, server.port)
  {
    if run != [] {
      var sys, step := Execute(g, start, run[..|run| - 1]), run[|run| - 1];
      NotStickyRemembersPicks(g, start, run[..|run| - 1], server);
      hide Handle, PoolOf, Picks;
      if step.Deliver? {
        var known := set x | x in PoolOf(start.actor.store, server);
        var allowed := known + Picks(sys.delivered + [step.event], server.port);
        PicksGrow(sys.delivered, step.event, server.port);
        HandleIsMoves(g, sys.actor, step.event);
        var ms :| AllAllowed(g, sys.actor, step.event, ms)
          && DoAll(g, sys.actor, ms) == Handle(g, sys.actor, step.event);
        MovesWithin(g, sys.actor, step.event, ms, server, allowed);
      }
    }
  }
}

/** The sticky pool and the destination handle agree, through every move. */
module PoolInvariants {
  import opened Wrappers
  import opened Selection
  import opened Sequences
  import opened Sticky
  import opened Config
  import opened Environments
  import opened ConnectPools
  import opened ConnectSummaries
  import opened DiscoverySpec
  import opened Moves

  /** Configured ports are distinct and every pinned entry was parsed. */
  ghost predicate WellSet(g: Setting) {
    && (forall s, s' :: s in g.servers && s' in g.servers && s.port == s'.port ==> s == s')
    && (forall s :: s in g.servers ==> s.Valid())
  }

  /** The peers that were once the exit of a port. */
  function Exits(t: Trace, port: Port): set<PeerId> {
    if t == [] then {}
    else Exits(t[..|t| - 1], port) + ExitOf(t[|t| - 1], port)
  }

  function ExitOf(act: Act, port: Port): set<PeerId> {
    if act.Emitting? && act.event.ActiveDestination? && act.event.port == port && act.event.peer.Some?
    then {act.event.peer.value} else {}
  }

  lemma {:induction false} ExitsGrow(t: Trace, u: Trace, port: Port)
    requires t <= u
    ensures Exits(t, port) <= Exits(u, port)
    decreases |u|
  {
    if |t| < |u| {
      ExitsGrow(t, u[..|u| - 1], port);
    } else {
      assert t == u;
    }
  }

  lemma ExitsSnoc(t: Trace, act: Act, port: Port)
    ensures Exits(t + [act], port) == Exits(t, port) + ExitOf(act, port)
  {
    assert (t + [act])[..|t|] == t;
  }

  /** Per server: every member was there at the start or was once this port's exit, and
      the pool respects its cap unless it started above it. */
  ghost predicate PoolInv(g: Setting, init: Store, a: Actor) {
    Distinct(a.store) && forall s :: s in g.servers ==> PoolInvAt(s, init, a)
  }

  ghost predicate PoolInvAt(s: Server, init: Store, a: Actor) {
    && (forall x :: x in PoolOf(a.store, s) ==> x in PoolOf(init, s) || x in Exits(a.trace, s.port))
    && (|PoolOf(init, s)| <= Cap(s) ==> |PoolOf(a.store, s)| <= Cap(s))
  }

  predicate Tracked(s: Server) {
    s.Pinned() == [] && s.sticky
  }

  /** The exit of a discovery-driven sticky server is the front of its valid pool. */
  ghost predicate FrontAt(s: Server, a: Actor) {
    Tracked(s) && s.port in a.destinations && a.destinations[s.port].Some? ==>
      PoolOf(a.store, s) != [] && PoolOf(a.store, s)[0] == a.destinations[s.port].value
  }

  ghost predicate FrontInv(g: Setting, a: Actor, exempt: set<Port>) {
    forall s :: s in g.servers && s.port !in exempt ==> FrontAt(s, a)
  }

  // ---------- a selection ----------

  lemma PointedTo(a: Actor, port: Port, peer: Option<PeerId>, source: Option<DestinationSource>)
    ensures var b := PointTo(a, port, peer, source);
            && b.store == a.store
            && (forall p :: p in a.destinations ==> b.destinations[p] == if p == port then peer else a.destinations[p])
            && (peer.Some? ==> peer.value in Exits(b.trace, port))
  {
    ExitsSnoc(a.trace, Emitting(ActiveDestination(port, peer, source)), port);
  }

  /** What selecting an exit for a configured server leaves behind. */
  lemma SelectEffect(g: Setting, a: Actor, server: Server, avoid: Option<PeerId>)
    requires Honest(g.net) && Distinct(a.store) && server.Valid()
    ensures var r := Select(g, a, server, avoid);
            && PoolKept(server, a.store, r.actor.store, r.peer)
            && (forall p :: p in a.destinations ==>
              r.actor.destinations[p] == if p == server.port then r.peer else a.destinations[p])
            && (r.peer.Some? ==> r.peer.value in Exits(r.actor.trace, server.port))
            && (Tracked(server) && r.peer.Some? ==>
              PoolOf(r.actor.store, server) != [] && PoolOf(r.actor.store, server)[0] == r.peer.value)
            && (server.Pinned() != [] && !server.fallbackToDiscovery ==>
                  r.actor.store == a.store && (r.peer.Some? ==> r.peer.value in server.PinnedIds()))
  {
    var o := ConnectFor(g, a, server, avoid);
    ConnectSummary(g.W(), a.store, a.trace + [Selecting(server.port)], server, avoid);
    var b := AfterConnect(a, server, o);
    match o.result
    case Ok(d) => PointedTo(b, server.port, Some(d.peer), Some(d.source));
    case Err(_) => PointedTo(b, server.port, None, None);
  }

  lemma OtherPool(s: Store, s': Store, port: Port, other: Server)
    requires OnlyPort(s, s', port) && other.port != port
    ensures PoolOf(s', other) == PoolOf(s, other)
  {
  }

  lemma SelectKeepsPools(g: Setting, init: Store, a: Actor, server: Server, avoid: Option<PeerId>)
    requires Honest(g.net) && WellSet(g) && server in g.servers && PoolInv(g, init, a)
    ensures PoolInv(g, init, Select(g, a, server, avoid).actor)
  {
    var b := Select(g, a, server, avoid).actor;
    SelectEffect(g, a, server, avoid);
    forall s | s in g.servers ensures PoolInvAt(s, init, b) {
      assert PoolInvAt(s, init, a);
      ExitsGrow(a.trace, b.trace, s.port);
      if s.port != server.port { OtherPool(a.store, b.store, server.port, s); }
    }
  }

  lemma SelectKeepsFronts(g: Setting, a: Actor, server: Server, avoid: Option<PeerId>, exempt: set<Port>)
    requires Honest(g.net) && WellSet(g) && server in g.servers && Distinct(a.store) && FrontInv(g, a, exempt)
    ensures FrontInv(g, Select(g, a, server, avoid).actor, exempt - {server.port})
  {
    var b := Select(g, a, server, avoid).actor;
    SelectEffect(g, a, server, avoid);
    forall s | s in g.servers && s.port !in exempt - {server.port} ensures FrontAt(s, b) {
      if s.port != server.port {
        assert FrontAt(s, a);
        OtherPool(a.store, b.store, server.port, s);
      } else {
        assert s == server;
      }
    }
  }

  lemma ChooseKeeps(g: Setting, init: Store, a: Actor, port: Port, avoid: Option<PeerId>, exempt: set<Port>)
    requires Honest(g.net) && WellSet(g) && PoolInv(g, init, a) && FrontInv(g, a, exempt)
    ensures var b := DiscoverPort(g, a, port, avoid).actor;
            PoolInv(g, init, b) && FrontInv(g, b, exempt - {port})
  {
    var b := a.(pending := a.pending - {port});
    assert PoolInv(g, init, b) by {
      forall s | s in g.servers ensures PoolInvAt(s, init, b) { assert PoolInvAt(s, init, a); }
    }
    assert FrontInv(g, b, exempt) by {
      forall s | s in g.servers && s.port !in exempt ensures FrontAt(s, b) { assert FrontAt(s, a); }
    }
    var found := FindServer(g.servers, port);
    if found.Some? {
      SelectKeepsPools(g, init, b, found.value, avoid);
      SelectKeepsFronts(g, b, found.value, avoid, exempt);
    } else {
      assert FrontInv(g, b, exempt - {port});
    }
  }

  // ---------- the other moves ----------

  lemma SwitchEffect(g: Setting, a: Actor, server: Server, peer: PeerId, source: DestinationSource)
    requires Distinct(a.store)
    ensures var b := Do(g, a, Switch(server, peer, source));
            && PoolKept(server, a.store, b.store, Some(peer))
            && PoolOf(b.store, server) != [] && PoolOf(b.store, server)[0] == peer
            && (forall p :: p in a.destinations ==>
              b.destinations[p] == if p == server.port then Some(peer) else a.destinations[p])
            && peer in Exits(b.trace, server.port)
  {
    var fp := server.Fingerprint();
    RememberView(a.store, server.port, fp, peer, server.maxTotal);
    MoveToFrontMembers(PoolIds(a.store, server.port, fp), peer, server.maxTotal);
    PointedTo(a.(store := Remember(a.store, server.port, fp, peer, server.maxTotal)), server.port, Some(peer),
      Some(source));
  }

  lemma SwitchKeeps(g: Setting, init: Store, a: Actor, server: Server, peer: PeerId, source: DestinationSource,
                    exempt: set<Port>)
    requires WellSet(g) && server in g.servers && PoolInv(g, init, a) && FrontInv(g, a, exempt)
    ensures var b := Do(g, a, Switch(server, peer, source));
            PoolInv(g, init, b) && FrontInv(g, b, exempt)
  {
    var b := Do(g, a, Switch(server, peer, source));
    SwitchEffect(g, a, server, peer, source);
    forall s | s in g.servers ensures PoolInvAt(s, init, b) && (s.port !in exempt ==> FrontAt(s, b)) {
      assert PoolInvAt(s, init, a) && (s.port !in exempt ==> FrontAt(s, a));
      ExitsGrow(a.trace, b.trace, s.port);
      if s.port != server.port { OtherPool(a.store, b.store, server.port, s); } else { assert s == server; }
    }
  }

  lemma HoldKeeps(g: Setting, init: Store, a: Actor, port: Port, now: nat, exempt: set<Port>)
    requires PoolInv(g, init, a) && FrontInv(g, a, exempt)
    ensures var b := Do(g, a, Hold(port, now));
            PoolInv(g, init, b) && FrontInv(g, b, exempt)
  {
    hide Exits, PoolOf;
    var b := Do(g, a, Hold(port, now));
    PointedTo(a.Noting(Throttling(port)), port, None, None);
    assert b.store == a.store && forall p :: p in a.destinations ==>
           b.destinations[p] == if p == port then None else a.destinations[p];
    forall s | s in g.servers ensures PoolInvAt(s, init, b) && (s.port !in exempt ==> FrontAt(s, b)) {
      assert PoolInvAt(s, init, a) && (s.port !in exempt ==> FrontAt(s, a));
      ExitsGrow(a.trace, b.trace, s.port);
    }
  }

  /** A move that leaves every valid pool and every destination alone. */
  lemma StillKeeps(g: Setting, init: Store, a: Actor, b: Actor, exempt: set<Port>)
    requires PoolInv(g, init, a) && FrontInv(g, a, exempt)
    requires Distinct(b.store) && b.destinations == a.destinations && a.trace <= b.trace
    requires forall s :: s in g.servers ==> PoolOf(b.store, s) == PoolOf(a.store, s)
    ensures PoolInv(g, init, b) && FrontInv(g, b, exempt)
  {
    forall s | s in g.servers ensures PoolInvAt(s, init, b) && (s.port !in exempt ==> FrontAt(s, b)) {
      assert PoolInvAt(s, init, a) && (s.port !in exempt ==> FrontAt(s, a));
      ExitsGrow(a.trace, b.trace, s.port);
    }
  }

  lemma RereadKeeps(g: Setting, init: Store, a: Actor, server: Server, exempt: set<Port>)
    requires WellSet(g) && server in g.servers && PoolInv(g, init, a) && FrontInv(g, a, exempt)
    ensures var b := Do(g, a, Reread(server)); PoolInv(g, init, b) && FrontInv(g, b, exempt)
  {
    var b := Do(g, a, Reread(server));
    InvalidateView(a.store, server.port, server.Fingerprint());
    forall s | s in g.servers ensures PoolOf(b.store, s) == PoolOf(a.store, s) {
      if s.port == server.port { assert s == server; }
    }
    StillKeeps(g, init, a, b, exempt);
  }

  /** Every move except forgetting keeps both invariants; a selection lifts the
      exemption of its port. */
  lemma MoveKeeps(g: Setting, init: Store, a: Actor, e: DiscoveryEvent, m: Move, exempt: set<Port>)
    requires Sound(g) && WellSet(g) && Allowed(g, a, e, m) && !m.Unlearn?
    requires PoolInv(g, init, a) && FrontInv(g, a, exempt)
    ensures PoolInv(g, init, Do(g, a, m)) && FrontInv(g, Do(g, a, m), exempt)
  {
    match m
    case Choose(port, avoid) => ChooseKeeps(g, init, a, port, avoid, exempt);
    case Hold(port, now) => HoldKeeps(g, init, a, port, now, exempt);
    case Switch(server, peer, source) => SwitchKeeps(g, init, a, server, peer, source, exempt);
    case Reread(server) => RereadKeeps(g, init, a, server, exempt);
    case Learn(peer, address) =>
      NoteView(a.store, peer, address);
      StillKeeps(g, init, a, Do(g, a, m), exempt);
    case Quiet(_) => StillKeeps(g, init, a, Do(g, a, m), exempt);
    case Mark(_, _) => StillKeeps(g, init, a, Do(g, a, m), exempt);
    case SetDirect(_) => StillKeeps(g, init, a, Do(g, a, m), exempt);
    case Probe(_, _) => StillKeeps(g, init, a, Do(g, a, m), exempt);
  }

  lemma {:induction false} MovesKeep(g: Setting, init: Store, a: Actor, e: DiscoveryEvent, ms: seq<Move>)
    requires Sound(g) && WellSet(g) && AllAllowed(g, a, e, ms) && !e.PeerUnusable?
    requires PoolInv(g, init, a) && FrontInv(g, a, {})
    ensures PoolInv(g, init, DoAll(g, a, ms)) && FrontInv(g, DoAll(g, a, ms), {})
    decreases |ms|
  {
    if ms != [] {
      MoveKeeps(g, init, a, e, ms[0], {});
      MovesKeep(g, init, Do(g, a, ms[0]), e, ms[1..]);
    }
  }

  // ---------- an unusable peer ----------

  lemma {:induction false} ForgetEverywhereEffect(s: Store, servers: seq<Server>, peer: PeerId, server: Server)
    requires Distinct(s)
    ensures var s' := ForgetEverywhere(s, servers, peer);
            && Distinct(s')
            && PoolOf(s', server) in {PoolOf(s, server), Without(PoolOf(s, server), peer)}
            && (server in servers ==> PoolOf(s', server) == Without(PoolOf(s, server), peer))
    decreases |servers|
  {
    if servers != [] {
      var s1 := Forget(s, servers[0].port, peer);
      ForgetView(s, servers[0].port, server.Fingerprint(), peer);
      ForgetEverywhereEffect(s1, servers[1..], peer, server);
      if server.port == servers[0].port {
        WithoutMembers(PoolOf(s, server), peer);
        WithoutAbsent(Without(PoolOf(s, server), peer), peer);
      }
    }
  }

  lemma ForgetKeeps(g: Setting, init: Store, a: Actor, peer: PeerId)
    requires PoolInv(g, init, a) && FrontInv(g, a, {})
    ensures var b := a.(store := ForgetEverywhere(a.store, g.servers, peer));
            PoolInv(g, init, b) && FrontInv(g, b, ServedBy(b.destinations, peer))
  {
    var b := a.(store := ForgetEverywhere(a.store, g.servers, peer));
    forall s | s in g.servers
      ensures Distinct(b.store) && PoolInvAt(s, init, b)
              && (s.port !in ServedBy(b.destinations, peer) ==> FrontAt(s, b))
    {
      assert PoolInvAt(s, init, a) && FrontAt(s, a);
      ForgetEverywhereEffect(a.store, g.servers, peer, s);
      var pool := PoolOf(a.store, s);
      WithoutMembers(pool, peer);
    }
    if g.servers == [] { assert b.store == a.store; } else { assert g.servers[0] in g.servers; }
  }

  lemma {:induction false} DiscoverPortsKeep(g: Setting, init: Store, a: Actor, ports: seq<Port>, exempt: set<Port>)
    requires Sound(g) && WellSet(g) && PoolInv(g, init, a) && FrontInv(g, a, exempt)
    ensures var b := DiscoverPorts(g, a, ports);
            PoolInv(g, init, b) && FrontInv(g, b, exempt - set p | p in ports)
    decreases |ports|
  {
    if ports == [] {
      assert exempt - (set p | p in ports) == exempt;
    } else {
      ChooseKeeps(g, init, a, ports[0], None, exempt);
      DiscoverPortsKeep(g, init, DiscoverPort(g, a, ports[0], None).actor, ports[1..], exempt - {ports[0]});
      assert exempt - (set p | p in ports) == exempt - {ports[0]} - (set p | p in ports[1..]);
    }
  }

  lemma UnusableKeeps(g: Setting, init: Store, a: Actor, peer: PeerId)
    requires Sound(g) && WellSet(g) && PoolInv(g, init, a) && FrontInv(g, a, {})
    ensures PoolInv(g, init, Unusable(g, a, peer)) && FrontInv(g, Unusable(g, a, peer), {})
  {
    var b := a.(store := ForgetEverywhere(a.store, g.servers, peer));
    var stale := ServedBy(b.destinations, peer);
    var ports := g.net.iterate(b.trace, stale);
    assert Lists(ports, stale);
    ForgetKeeps(g, init, a, peer);
    DiscoverPortsKeep(g, init, b, ports, stale);
    var c := DiscoverPorts(g, b, ports);
    assert stale - (set p | p in ports) == {};
    ShowPoolsMoves(g, c, DiscoverFor(0), g.servers);
    var ms :| AllAllowed(g, c, DiscoverFor(0), ms) && DoAll(g, c, ms) == ShowPools(c, g.servers);
    MovesKeep(g, init, c, DiscoverFor(0), ms);
  }

  /** Whatever the event, handling it keeps both invariants. */
  lemma HandleKeepsPools(g: Setting, init: Store, a: Actor, e: DiscoveryEvent)
    requires Sound(g) && WellSet(g) && PoolInv(g, init, a) && FrontInv(g, a, {})
    ensures PoolInv(g, init, Handle(g, a, e)) && FrontInv(g, Handle(g, a, e), {})
  {
    if e.PeerUnusable? {
      UnusableKeeps(g, init, a, e.peer);
    } else {
      HandleIsMoves(g, a, e);
      var ms :| AllAllowed(g, a, e, ms) && DoAll(g, a, ms) == Handle(g, a, e);
      MovesKeep(g, init, a, e, ms);
    }
  }
}

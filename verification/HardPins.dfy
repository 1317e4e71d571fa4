/** A hard pin over every move: the exit is a pinned id or the operator's own pick. */
module HardPins {
  import opened Wrappers
  import opened Selection
  import opened Sequences
  import opened Sticky
  import opened Config
  import opened ConnectPools
  import opened ConnectSummaries
  import opened DiscoverySpec
  import opened Moves
  import opened PoolInvariants

  predicate IsHardPin(s: Server) {
    s.Pinned() != [] && !s.fallbackToDiscovery
  }

  /** Exit and pool of the server lie within `allowed`. */
  ghost predicate Confined(s: Server, a: Actor, allowed: set<PeerId>) {
    && (forall x :: x in PoolOf(a.store, s) ==> x in allowed)
    && (s.port in a.destinations && a.destinations[s.port].Some? ==> a.destinations[s.port].value in allowed)
  }

  lemma ChooseConfined(g: Setting, a: Actor, port: Port, avoid: Option<PeerId>, s: Server, allowed: set<PeerId>)
    requires Honest(g.net) && WellSet(g) && Distinct(a.store)
    requires s in g.servers && IsHardPin(s) && s.PinnedIds() <= allowed && Confined(s, a, allowed)
    ensures var b := DiscoverPort(g, a, port, avoid).actor; Distinct(b.store) && Confined(s, b, allowed)
  {
    var found := FindServer(g.servers, port);
    if found.Some? {
      var b := a.(pending := a.pending - {port});
      SelectEffect(g, b, found.value, avoid);
      if port != s.port {
        OtherPool(a.store, Select(g, b, found.value, avoid).actor.store, port, s);
      } else {
        assert found.value == s;
      }
    }
  }

  lemma SwitchConfined(g: Setting, a: Actor, e: DiscoveryEvent, m: Move, s: Server, allowed: set<PeerId>)
    requires WellSet(g) && Distinct(a.store) && m.Switch? && Allowed(g, a, e, m)
    requires s in g.servers && Confined(s, a, allowed)
    requires e.SelectPeer? && e.port == s.port ==> e.peer in allowed
    ensures var b := Do(g, a, m); Distinct(b.store) && Confined(s, b, allowed)
  {
    SwitchEffect(g, a, m.server, m.peer, m.source);
    if m.server.port != s.port {
      OtherPool(a.store, Do(g, a, m).store, m.server.port, s);
    } else {
      assert m.server == s;
    }
  }

  lemma MoveConfined(g: Setting, a: Actor, e: DiscoveryEvent, m: Move, s: Server, allowed: set<PeerId>)
    requires Sound(g) && WellSet(g) && Distinct(a.store) && Allowed(g, a, e, m)
    requires s in g.servers && IsHardPin(s) && s.PinnedIds() <= allowed && Confined(s, a, allowed)
    requires e.SelectPeer? && e.port == s.port ==> e.peer in allowed
    ensures Distinct(Do(g, a, m).store) && Confined(s, Do(g, a, m), allowed)
  {
    hide DiscoverPort, PoolInvariants.WellSet;
    match m
    case Choose(port, avoid) => ChooseConfined(g, a, port, avoid, s, allowed);
    case Switch(_, _, _) => SwitchConfined(g, a, e, m, s, allowed);
    case Reread(server) => InvalidateView(a.store, server.port, server.Fingerprint());
    case Learn(peer, address) => NoteView(a.store, peer, address);
    case Unlearn(port, peer) =>
      ForgetView(a.store, port, s.Fingerprint(), peer);
      WithoutMembers(PoolOf(a.store, s), peer);
    case _ =>
  }

  lemma {:induction false} MovesConfined(g: Setting, a: Actor, e: DiscoveryEvent, ms: seq<Move>, s: Server,
                                         allowed: set<PeerId>)
    requires Sound(g) && WellSet(g) && Distinct(a.store) && AllAllowed(g, a, e, ms)
    requires s in g.servers && IsHardPin(s) && s.PinnedIds() <= allowed && Confined(s, a, allowed)
    requires e.SelectPeer? && e.port == s.port ==> e.peer in allowed
    ensures Distinct(DoAll(g, a, ms).store) && Confined(s, DoAll(g, a, ms), allowed)
    decreases |ms|
  {
    if ms != [] {
      MoveConfined(g, a, e, ms[0], s, allowed);
      MovesConfined(g, Do(g, a, ms[0]), e, ms[1..], s, allowed);
    }
  }

  lemma HandleConfined(g: Setting, a: Actor, e: DiscoveryEvent, s: Server, allowed: set<PeerId>)
    requires Sound(g) && WellSet(g) && Distinct(a.store)
    requires s in g.servers && IsHardPin(s) && s.PinnedIds() <= allowed && Confined(s, a, allowed)
    requires e.SelectPeer? && e.port == s.port ==> e.peer in allowed
    ensures Distinct(Handle(g, a, e).store) && Confined(s, Handle(g, a, e), allowed)
  {
    HandleIsMoves(g, a, e);
    var ms :| AllAllowed(g, a, e, ms) && DoAll(g, a, ms) == Handle(g, a, e);
    MovesConfined(g, a, e, ms, s, allowed);
  }
}

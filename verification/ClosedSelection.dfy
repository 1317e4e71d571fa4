/** What becomes of a port whose exit has closed, act by act: when it is held and until when,
    and that the selection it gets is told who closed. */
module ClosedSelections {
  import opened Wrappers
  import opened Selection
  import opened Sequences
  import opened Sticky
  import opened Config
  import opened Environments
  import opened ConnectSpec
  import opened ConnectPools
  import opened ConnectPins
  import opened ConnectSummaries
  import opened ConnectBeats
  import opened DiscoverySpec
  import opened Moves
  import opened PoolInvariants
  import opened Histories
  import opened CloseEffects
  import opened Runs

  // ---------- the fight ----------

  ghost predicate NobodyReached(u: Trace, from: nat, to: nat) {
    forall i :: from <= i < to <= |u| && u[i].Dialling? ==> Reached(u[i].reached).None?
  }

  lemma ReachLost(w: World, s: Store, t: Trace, port: Port, peer: PeerId)
    ensures var r := TryReach(w, s, t, port, peer); r.peer.None? ==> NobodyReached(r.trace, |t|, |r.trace|)
  {
  }

  lemma NobodyLater(t: Trace, u: Trace, v: Trace, from: nat)
    requires u <= v && from <= |u| && NobodyReached(u, from, |u|) && NobodyReached(v, |u|, |v|)
    ensures NobodyReached(v, from, |v|)
  {
  }

  lemma {:induction false} FightReachesNobody(w: World, s: Store, t: Trace, port: Port, peer: PeerId, attempt: nat)
    ensures var r := Reconnect(w, s, t, port, peer, attempt);
            r.peer.None? ==> NobodyReached(r.trace, |t|, |r.trace|)
    decreases STICKY_RECONNECT_ATTEMPTS - attempt
  {
    hide TryReach, NobodyReached;
    if attempt < STICKY_RECONNECT_ATTEMPTS {
      var u := TryReach(w, s, t, port, peer).trace;
      var v := AfterAttempt(u, attempt);
      ReachLost(w, s, t, port, peer);
      if TryReach(w, s, t, port, peer).peer.None? {
        FightReachesNobody(w, s, v, port, peer, attempt + 1);
        NapReachesNobody(u, attempt, |t|);
        var end := Reconnect(w, s, v, port, peer, attempt + 1);
        if end.peer.None? { NobodyLater(t, v, end.trace, |t|); }
      }
    } else {
      NobodyYet(t);
    }
  }

  lemma NobodyYet(t: Trace)
    ensures NobodyReached(t, |t|, |t|)
  {
  }

  lemma NapReachesNobody(u: Trace, attempt: nat, from: nat)
    requires NobodyReached(u, from, |u|)
    ensures var v := AfterAttempt(u, attempt); NobodyReached(v, from, |v|)
  {
  }

  /** The acts from `from` to `to` are a fight for the peer: up to three attempts at it, one
      second and then two seconds apart. It is won by a dial that reaches the peer, or lost
      after three attempts in which nobody answered. */
  ghost predicate FoughtFor(u: Trace, from: nat, to: nat, peer: PeerId, won: bool) {
    && from < to <= |u|
    && u[from].Resolving? && u[from].peers == [peer]
    && (exists k: nat :: FoughtOver(Beats(u[..from]), Beats(u[..to]), peer, k) && (!won ==> k == 3))
    && (if won then EndsInDial(u[..to], peer) else NobodyReached(u, from, to))
  }

  lemma FightIsFought(w: World, s: Store, t: Trace, port: Port, peer: PeerId, u: Trace)
    requires Honest(w.net) && Reconnect(w, s, t, port, peer, 0).trace <= u
    ensures var r := Reconnect(w, s, t, port, peer, 0);
            FoughtFor(u, |t|, |r.trace|, peer, r.peer.Some?) && (r.peer.Some? ==> r.peer == Some(peer))
  {
    var r := Reconnect(w, s, t, port, peer, 0);
    var k := FightIsExact(w, s, t, port, peer);
    ReconnectOnlyThatPeer(w, s, t, port, peer, 0);
    ReconnectEndsInDial(w, s, t, port, peer, 0);
    FightReachesNobody(w, s, t, port, peer, 0);
    FightOpens(w, s, t, port, peer);
    hide Reconnect, Beats, FightBeats;
    assert u[..|t|] == t && u[..|r.trace|] == r.trace;
    assert FoughtOver(Beats(u[..|t|]), Beats(u[..|r.trace|]), peer, k);
    if r.peer.None? { assert NobodyReached(u, |t|, |r.trace|); }
  }

  lemma FightOpens(w: World, s: Store, t: Trace, port: Port, peer: PeerId)
    ensures var u := Reconnect(w, s, t, port, peer, 0).trace;
            |t| < |u| && u[|t|].Resolving? && u[|t|].peers == [peer]
  {
    assert TryReach(w, s, t, port, peer).trace[|t|] == Resolving([peer], w.net.resolve(t, [peer]));
  }

  // ---------- the selection ----------

  /** The acts of the selection opened at i end, at j, in showing the pool and the exit. */
  predicate Announced(u: Trace, port: Port, i: nat, j: nat) {
    && i < j && j + 1 < |u| && u[i] == Selecting(port)
    && u[j].Emitting? && u[j].event.StickyPoolShown? && u[j].event.port == port
    && u[j + 1].Emitting? && u[j + 1].event.ActiveDestination? && u[j + 1].event.port == port
  }

  predicate IsReuseOf(event: Event, peer: PeerId) {
    event.ActiveDestination? && event.peer == Some(peer) && event.source == Some(StickyReuse)
  }

  /** A fight is the first thing that the selection opened at i does; the peer is reused if
      and only if it is won, and then nothing else is done. */
  ghost predicate FightDecides(u: Trace, i: nat, to: nat, won: bool, j: nat, peer: PeerId)
    requires j + 1 < |u| && u[j + 1].Emitting?
  {
    && FoughtFor(u, i + 1, to, peer, won)
    && to <= j && (won ==> to == j)
    && (won <==> IsReuseOf(u[j + 1].event, peer))
  }

  /** The selection opened at i and announced at j + 1 was told that `peer` closed: a server
      that fights fights for it at once, and reuses it exactly if it wins it back; any other
      server does not reuse it. */
  ghost predicate ToldWhoClosed(server: Server, u: Trace, i: nat, j: nat, peer: PeerId)
    requires Announced(u, server.port, i, j)
  {
    if Fights(server, Some(peer)) then
      exists to: nat, won :: FightDecides(u, i, to, won, j, peer)
    else !IsReuseOf(u[j + 1].event, peer)
  }

  lemma FreshPassesOver(w: World, s: Store, t: Trace, server: Server, peer: PeerId)
    requires Honest(w.net) && Distinct(s)
    ensures ConnectFresh(w, s, t, server, Some(peer)).result != Ok(ConnectedDestination(peer, StickyReuse))
  {
    if server.sticky {
      FreshPoolEffect(w, s, t, server, Some(peer));
    } else {
      DiscoverEffect(w, s, t, server, 0);
    }
  }

  /** What a connect told of the closed peer does about it, seen from any longer trace. */
  lemma ConnectIsTold(w: World, s: Store, t: Trace, server: Server, peer: PeerId, u: Trace)
    returns (to: nat, won: bool)
    requires Honest(w.net) && Distinct(s) && server.Pinned() == []
    requires Connect(w, s, t, server, Some(peer)).trace <= u
    ensures var r := Connect(w, s, t, server, Some(peer));
            var reused := r.result == Ok(ConnectedDestination(peer, StickyReuse));
            if Fights(server, Some(peer)) then
              FoughtFor(u, |t|, to, peer, won) && to <= |r.trace| && (won ==> to == |r.trace|) && (won <==> reused)
            else !reused
  {
    var r := Connect(w, s, t, server, Some(peer));
    to, won := 0, false;
    if Fights(server, Some(peer)) {
      var back := Reconnect(w, s, t, server.port, peer, 0);
      ForgetView(s, server.port, server.Fingerprint(), peer);
      hide Reconnect, ConnectFresh, FoughtFor;
      FightIsFought(w, s, t, server.port, peer, u);
      if back.peer.None? { FreshPassesOver(w, Forget(s, server.port, peer), back.trace, server, peer); }
      to, won := |back.trace|, back.peer.Some?;
    } else {
      FreshPassesOver(w, s, t, server, peer);
    }
  }

  /** A selection ends in showing the pool and the exit. */
  lemma SelectEnds(g: Setting, a: Actor, server: Server, avoid: Option<PeerId>)
    ensures var o, v := ConnectFor(g, a, server, avoid), Select(g, a, server, avoid).actor.trace;
            && a.trace + [Selecting(server.port)] <= o.trace && o.trace <= v && |v| == |o.trace| + 2
            && v[|o.trace|] == Emitting(StickyPoolShown(server.port,
                 Snapshot(o.store, server.port, server.Fingerprint())))
            && v[|o.trace| + 1] == Emitting(ActiveDestination(server.port, Chosen(o), SourceOf(o)))
            && (server.port in a.destinations ==>
                  Select(g, a, server, avoid).actor.destinations[server.port] == Chosen(o))
            && HistoryOf(v, server.port).source == SourceOf(o)
  {
    hide Connect, Snapshot, HistoryOf;
    SelectHistory(g, a, server, avoid, server.port);
  }

  /** A selection told of the closed peer, seen from any longer trace. */
  lemma SelectIsTold(g: Setting, a: Actor, server: Server, peer: PeerId, u: Trace) returns (j: nat)
    requires Honest(g.net) && Distinct(a.store) && server.port in a.destinations
    requires Select(g, a, server, Some(peer)).actor.trace <= u
    ensures var r := Select(g, a, server, Some(peer));
            && Announced(u, server.port, |a.trace|, j) && |r.actor.trace| == j + 2
            && r.actor.destinations[server.port] == u[j + 1].event.peer
            && HistoryOf(r.actor.trace, server.port).source == u[j + 1].event.source
            && (server.Pinned() == [] ==> ToldWhoClosed(server, u, |a.trace|, j, peer))
  {
    hide ConnectFor, Select, HistoryOf, Snapshot, ToldWhoClosed, SourceOf, Chosen;
    var t := a.trace + [Selecting(server.port)];
    var o := ConnectFor(g, a, server, Some(peer));
    j := |o.trace|;
    var v := Select(g, a, server, Some(peer)).actor.trace;
    SelectEnds(g, a, server, Some(peer));
    SeenLater(t, o.trace, v, u, |a.trace|);
    if server.Pinned() == [] { SelectDecides(g, a, server, peer, u); }
  }

  lemma SeenLater(t: Trace, o: Trace, v: Trace, u: Trace, i: nat)
    requires |t| == i + 1 && t <= o && o <= v && v <= u && |v| == |o| + 2
    ensures u[i] == t[i] && o <= u && u[|o|] == v[|o|] && u[|o| + 1] == v[|o| + 1]
  {
  }

  lemma ReuseIsShown(o: Outcome, port: Port, peer: PeerId)
    ensures IsReuseOf(ActiveDestination(port, Chosen(o), SourceOf(o)), peer)
            <==> o.result == Ok(ConnectedDestination(peer, StickyReuse))
  {
  }

  lemma SelectDecides(g: Setting, a: Actor, server: Server, peer: PeerId, u: Trace)
    requires Honest(g.net) && Distinct(a.store) && server.Pinned() == []
    requires var o := ConnectFor(g, a, server, Some(peer));
             && o.trace <= u && Announced(u, server.port, |a.trace|, |o.trace|)
             && u[|o.trace| + 1].event == ActiveDestination(server.port, Chosen(o), SourceOf(o))
    ensures ToldWhoClosed(server, u, |a.trace|, |ConnectFor(g, a, server, Some(peer)).trace|, peer)
  {
    var t := a.trace + [Selecting(server.port)];
    var o := ConnectFor(g, a, server, Some(peer));
    assert o == Connect(g.W(), a.store, t, server, Some(peer));
    hide Connect, ConnectFor, FoughtFor, Fights, SourceOf, Chosen, IsReuseOf, ToldWhoClosed;
    var to, won := ConnectIsTold(g.W(), a.store, t, server, peer, u);
    ReuseIsShown(o, server.port, peer);
    Decided(server, u, |a.trace|, |o.trace|, peer, to, won);
  }

  lemma Decided(server: Server, u: Trace, i: nat, j: nat, peer: PeerId, to: nat, won: bool)
    requires Announced(u, server.port, i, j)
    requires if Fights(server, Some(peer)) then
               FoughtFor(u, i + 1, to, peer, won) && to <= j && (won ==> to == j)
               && (won <==> IsReuseOf(u[j + 1].event, peer))
             else !IsReuseOf(u[j + 1].event, peer)
    ensures ToldWhoClosed(server, u, i, j, peer)
  {
    hide FoughtFor, IsReuseOf;
    if Fights(server, Some(peer)) { assert FightDecides(u, i, to, won, j, peer); }
  }

  // ---------- the decision ----------

  /** The port is held: less than 30 s after its last close-triggered rediscovery by the
      clock read at i, its exit is dropped, and unless a wake-up is pending one is scheduled
      for the instant those 30 s are over. */
  predicate HeldAt(a: Actor, b: Actor, port: Port, i: nat) {
    var u, past := b.trace, HistoryOf(a.trace, port).rediscoveries;
    && |a.trace| <= i && i + 2 < |u| && u[i].ReadingClock? && past != []
    && u[i].now < past[|past| - 1] + 30_000_000_000
    && u[i + 1] == Throttling(port)
    && u[i + 2] == Emitting(ActiveDestination(port, None, None))
    && port in b.destinations && b.destinations[port] == None && port in b.pending
    && (port !in a.pending ==>
          && i + 3 < |u| && u[i + 3].Spawning? && u[i + 3].timer.port == port
          && u[i].now + u[i + 3].timer.delay == past[|past| - 1] + 30_000_000_000)
  }

  /** The port is sought anew: at least 30 s after its last close-triggered rediscovery, if it
      had any, a selection is opened at once; its announcement is the exit served. */
  ghost predicate SoughtAt(a: Actor, b: Actor, server: Server, peer: PeerId, i: nat, j: nat) {
    var u, port, past := b.trace, server.port, HistoryOf(a.trace, server.port).rediscoveries;
    && |a.trace| <= i && i + 2 < |u| && u[i].ReadingClock?
    && (past != [] ==> past[|past| - 1] + 30_000_000_000 <= u[i].now)
    && u[i + 1] == Rediscovering(port, u[i].now)
    && Announced(u, port, i + 2, j)
    && port in b.destinations && b.destinations[port] == u[j + 1].event.peer && port !in b.pending
    && HistoryOf(b.trace, port).source == u[j + 1].event.source
    && (server.Pinned() == [] ==> ToldWhoClosed(server, u, i + 2, j, peer))
  }

  /** One of the two. */
  ghost predicate ClosedExactly(a: Actor, b: Actor, server: Server, peer: PeerId) {
    (exists i :: HeldAt(a, b, server.port, i)) || (exists i, j :: SoughtAt(a, b, server, peer, i, j))
  }

  lemma RediscoverSeeks(g: Setting, a: Actor, c: Actor, peer: PeerId, server: Server, b: Actor)
    requires Honest(g.net) && WellSet(g) && Distinct(c.store) && server in g.servers && server.port in c.destinations
    requires a.trace <= c.trace
    requires var past := HistoryOf(a.trace, server.port).rediscoveries;
             past != [] ==> past[|past| - 1] + 30_000_000_000 <= g.net.now(c.trace)
    requires var d := Rediscover(g, c, server.port, peer);
             d.trace <= b.trace && b.destinations.Keys == d.destinations.Keys
             && b.destinations[server.port] == d.destinations[server.port]
             && HistoryOf(b.trace, server.port) == HistoryOf(d.trace, server.port)
             && (server.port in b.pending <==> server.port in d.pending)
    ensures ClosedExactly(a, b, server, peer)
  {
    hide Select, HistoryOf, ToldWhoClosed;
    var port, now := server.port, g.net.now(c.trace);
    var d := c.(lastRediscovery := c.lastRediscovery[port := now]).Noting(ReadingClock(now))
              .Noting(Rediscovering(port, now));
    var e := d.(pending := d.pending - {port});
    assert FindServer(g.servers, port) == Some(server);
    SelectFrame(g, e, server, Some(peer));
    var j := SelectIsTold(g, e, server, peer, b.trace);
    assert d.trace <= b.trace && |d.trace| == |c.trace| + 2;
    assert b.trace[|c.trace|] == d.trace[|c.trace|] && b.trace[|c.trace| + 1] == d.trace[|c.trace| + 1];
    assert SoughtAt(a, b, server, peer, |c.trace|, j);
  }

  lemma ThrottleHolds(g: Setting, a: Actor, c: Actor, port: Port, remaining: nat, b: Actor)
    requires a.trace <= c.trace && port in c.destinations
    requires (port in c.pending <==> port in a.pending)
    requires var past, now := HistoryOf(a.trace, port).rediscoveries, g.net.now(c.trace);
             past != [] && now < past[|past| - 1] + 30_000_000_000 == now + remaining
    requires var d := Throttle(g, c.Noting(ReadingClock(g.net.now(c.trace))), port, remaining);
             && d.trace <= b.trace && b.destinations.Keys == d.destinations.Keys
             && b.destinations[port] == d.destinations[port]
             && (port in b.pending <==> port in d.pending)
    ensures HeldAt(a, b, port, |c.trace|)
  {
    hide HistoryOf;
    var now := g.net.now(c.trace);
    var read := c.Noting(ReadingClock(now));
    var d := Throttle(g, read, port, remaining);
    ThrottleActs(g, read, port, remaining);
    hide Throttle;
    var u, i := d.trace, |c.trace|;
    assert u[i] == ReadingClock(now);
    assert b.trace[i] == u[i] && b.trace[i + 1] == u[i + 1] && b.trace[i + 2] == u[i + 2];
    if port !in a.pending { assert b.trace[i + 3] == u[i + 3]; }
  }

  lemma ThrottleActs(g: Setting, a: Actor, port: Port, remaining: nat)
    requires port in a.destinations
    ensures var d := Throttle(g, a, port, remaining);
            var u, i := d.trace, |a.trace|;
            && i + 1 < |u| && u[i] == Throttling(port) && u[i + 1] == Emitting(ActiveDestination(port, None, None))
            && d.destinations[port] == None && port in d.pending
            && (port !in a.pending ==>
                  && i + 2 < |u| && u[i + 2].Spawning? && u[i + 2].timer.port == port
                  && u[i + 2].timer.delay == remaining)
  {
  }

  // ---------- one port among those of the closed peer ----------

  lemma ClosePortExtends(g: Setting, a: Actor, peer: PeerId, port: Port)
    ensures a.trace <= ClosePort(g, a, peer, port).trace
    ensures ClosePort(g, a, peer, port).destinations.Keys == a.destinations.Keys
  {
    hide DiscoverPort, Throttle;
  }

  lemma {:induction false} ClosePortsExtend(g: Setting, a: Actor, peer: PeerId, ports: seq<Port>)
    ensures a.trace <= ClosePorts(g, a, peer, ports).trace
    ensures ClosePorts(g, a, peer, ports).destinations.Keys == a.destinations.Keys
    decreases |ports|
  {
    hide ClosePort;
    if ports != [] {
      ClosePortExtends(g, a, peer, ports[0]);
      ClosePortsExtend(g, ClosePort(g, a, peer, ports[0]), peer, ports[1..]);
    }
  }

  lemma UntouchedThen(a: Actor, b: Actor, c: Actor, server: Server)
    requires Untouched(a, b, server) && Untouched(b, c, server)
    ensures Untouched(a, c, server)
  {
    hide HistoryOf, PoolOf;
  }

  /** The closes of the other ports leave this one as it was, before its turn and after. */
  lemma {:induction false} OwnTurn(g: Setting, a: Actor, peer: PeerId, ports: seq<Port>, server: Server)
    returns (c: Actor)
    requires Honest(g.net) && WellSet(g) && Distinct(a.store) && NoDuplicates(ports)
    requires server in g.servers && server.port in a.destinations && server.port in ports
    ensures var d, b := ClosePort(g, c, peer, server.port), ClosePorts(g, a, peer, ports);
            && a.trace <= c.trace && Distinct(c.store) && Untouched(a, c, server)
            && d.trace <= b.trace && Untouched(d, b, server)
    decreases |ports|
  {
    hide ClosePort, HistoryOf, PoolOf, Untouched, Attended;
    assert ports == [ports[0]] + ports[1..];
    assert ports[0] !in ports[1..];
    var d := ClosePort(g, a, peer, ports[0]);
    ClosePortExtends(g, a, peer, ports[0]);
    if ports[0] == server.port {
      c := a;
      Unchanged(a, server);
      CloseAttends(g, a, peer, server);
      ClosePortsEffect(g, d, peer, ports[1..], server);
      ClosePortsExtend(g, d, peer, ports[1..]);
    } else {
      CloseElsewhere(g, a, peer, ports[0], server);
      c := OwnTurn(g, d, peer, ports[1..], server);
      UntouchedThen(a, d, c, server);
    }
  }

  lemma Unchanged(a: Actor, server: Server)
    ensures Untouched(a, a, server)
  {
  }

  lemma OwnClose(g: Setting, a: Actor, c: Actor, peer: PeerId, server: Server, b: Actor)
    requires Sound(g) && WellSet(g) && server in g.servers && server.port in a.destinations
    requires PortInv(g, a, server.port)
    requires a.trace <= c.trace && Distinct(c.store) && Untouched(a, c, server)
    requires var d := ClosePort(g, c, peer, server.port); d.trace <= b.trace && Untouched(d, b, server)
    ensures ClosedExactly(a, b, server, peer)
  {
    hide HistoryOf, PoolOf, Rediscover, Throttle, SoughtAt, HeldAt, Spaced;
    var port := server.port;
    ClosePortExtends(g, c, peer, port);
    ClockAlong(g.net, a.trace, c.trace);
    if port !in c.lastRediscovery {
      RediscoverSeeks(g, a, c, peer, server, b);
    } else {
      var now := g.net.now(c.trace);
      var read := c.Noting(ReadingClock(now));
      assert read.trace[..|c.trace|] == c.trace;
      ClockAlong(g.net, c.trace, read.trace);
      if now < c.lastRediscovery[port] + 30_000_000_000 {
        assert Elapsed(read, port, now) < REDISCOVERY_COOLDOWN;
        ThrottleHolds(g, a, c, port, 30_000_000_000 - (now - c.lastRediscovery[port]), b);
      } else {
        RediscoverSeeks(g, a, read, peer, server, b);
      }
    }
  }

  /** When the exit of a port closes, either less than 30 s have passed since the last
      rediscovery that a close started for it: then it is dark, and its wake-up is due exactly
      when they have; or a selection starts at once, which is told who closed. Such a server
      fights for the peer if it is set to: it reuses the peer if and only if it wins it back,
      in at most three attempts. Otherwise it passes the peer over in its pool. */
  lemma ClosedPeerExactly(g: Setting, a: Actor, peer: PeerId, server: Server)
    requires Sound(g) && WellSet(g) && HandlesMatch(g, a) && Distinct(a.store) && server in g.servers
    requires PortInv(g, a, server.port)
    requires server.port in a.destinations && a.destinations[server.port] == Some(peer)
    ensures ClosedExactly(a, Handle(g, a, PeerClosed(peer)), server, peer)
  {
    hide ClosePorts, ClosePort, HistoryOf, PoolOf, PortInv, Untouched, SoughtAt, HeldAt;
    var a0 := a.(direct := a.direct - {peer});
    var ports := g.net.iterate(a.trace, ServedBy(a.destinations, peer));
    assert Lists(ports, ServedBy(a.destinations, peer));
    var c := OwnTurn(g, a0, peer, ports, server);
    SamePort(g, a, a0, server.port);
    OwnClose(g, a0, c, peer, server, Handle(g, a, PeerClosed(peer)));
    SameStart(a, a0, Handle(g, a, PeerClosed(peer)), server, peer);
  }

  lemma SamePort(g: Setting, a: Actor, a0: Actor, port: Port)
    requires PortInv(g, a, port) && a0 == a.(direct := a0.direct)
    ensures PortInv(g, a0, port)
  {
  }

  lemma SameStart(a: Actor, a0: Actor, b: Actor, server: Server, peer: PeerId)
    requires a0 == a.(direct := a0.direct) && ClosedExactly(a0, b, server, peer)
    ensures ClosedExactly(a, b, server, peer)
  {
    hide HistoryOf, Announced, ToldWhoClosed;
    if i :| HeldAt(a0, b, server.port, i) {
      assert HeldAt(a, b, server.port, i);
    } else {
      var i, j :| SoughtAt(a0, b, server, peer, i, j);
      assert SoughtAt(a, b, server, peer, i, j);
    }
  }

  /** The same in every reachable state. */
  lemma ClosedPeerIsDealtWith(g: Setting, start: System, run: seq<Step>, peer: PeerId, server: Server)
    requires Scenario(g, start, run) && server in g.servers
    requires var a := Execute(g, start, run).actor;
             server.port in a.destinations && a.destinations[server.port] == Some(peer)
    ensures var a := Execute(g, start, run).actor;
            ClosedExactly(a, Handle(g, a, PeerClosed(peer)), server, peer)
  {
    hide Handle, ClosedExactly;
    RunKeepsPools(g, start, run);
    RunKeepsPorts(g, start, run, server.port);
    ClosedPeerExactly(g, Execute(g, start, run).actor, peer, server);
  }

  /** So a server that does not fight never reuses the peer that closed. */
  lemma ClosedPeerIsPassedOver(g: Setting, start: System, run: seq<Step>, peer: PeerId, server: Server)
    requires Scenario(g, start, run) && server in g.servers
    requires server.Pinned() == [] && (!server.sticky || server.stickyReconnect == FailFast)
    requires var a := Execute(g, start, run).actor;
             server.port in a.destinations && a.destinations[server.port] == Some(peer)
    ensures var a := Execute(g, start, run).actor;
            var b := Handle(g, a, PeerClosed(peer));
            server.port in b.destinations && (b.destinations[server.port] == Some(peer) ==>
              HistoryOf(b.trace, server.port).source != Some(StickyReuse))
  {
    hide Handle, Execute, Scenario, HistoryOf, ToldWhoClosed;
    ClosedPeerIsDealtWith(g, start, run, peer, server);
    var a := Execute(g, start, run).actor;
    var b := Handle(g, a, PeerClosed(peer));
    if i: nat, j: nat :| SoughtAt(a, b, server, peer, i, j) {
      NotToldToFight(server, b.trace, i + 2, j, peer);
    }
  }

  lemma NotToldToFight(server: Server, u: Trace, i: nat, j: nat, peer: PeerId)
    requires Announced(u, server.port, i, j) && ToldWhoClosed(server, u, i, j, peer) && !Fights(server, Some(peer))
    ensures u[j + 1].event.peer == Some(peer) ==> u[j + 1].event.source != Some(StickyReuse)
  {
  }
}

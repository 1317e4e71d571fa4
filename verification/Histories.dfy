/** What the trace says of one port: its selections, cooldowns, timers and shown exit,
    and how the actor's own tables follow it. */
module Histories {
  import opened Wrappers
  import opened Selection
  import opened Sticky
  import opened Config
  import opened NetworkActors
  import opened Environments
  import opened ConnectSpec
  import opened ConnectEffort
  import opened ConnectSummaries
  import opened DiscoverySpec
  import opened Moves

  /** dark: its exit was dropped by the cooldown and none was sought or set since.
      shows: how often its exit was announced.
      honoured: every timer was due no earlier than the cooldown of the last
      close-triggered rediscovery before it. */
  datatype History = History(dark: bool, spawned: nat, selected: nat, rediscoveries: seq<Instant>,
                             shown: Option<Option<PeerId>>, source: Option<DestinationSource>, shows: nat,
                               honoured: bool)

  const BLANK := History(false, 0, 0, [], None, None, 0, true)

  function Due(timer: Timer): Instant {
    timer.spawned + timer.delay
  }

  function Advance(h: History, act: Act, port: Port): History {
    match act
    case Selecting(p) => if p == port then h.(dark := false, selected := h.selected + 1) else h
    case Throttling(p) => if p == port then h.(dark := true) else h
    case Spawning(timer) =>
      if timer.port == port then
        h.(spawned := h.spawned + 1,
           honoured := h.honoured
             && (forall i :: 0 <= i < |h.rediscoveries| ==> h.rediscoveries[i] + REDISCOVERY_COOLDOWN <= Due(timer)))
      else h
    case Rediscovering(p, at) => if p == port then h.(rediscoveries := h.rediscoveries + [at]) else h
    case Emitting(ActiveDestination(p, peer, source)) =>
      if p == port then h.(shown := Some(peer), source := source, shows := h.shows + 1, dark := h.dark && peer.None?)
        else h
    case _ => h
  }

  function HistoryOf(t: Trace, port: Port): History {
    if t == [] then BLANK else Advance(HistoryOf(t[..|t| - 1], port), t[|t| - 1], port)
  }

  lemma Snoc(t: Trace, act: Act, port: Port)
    ensures HistoryOf(t + [act], port) == Advance(HistoryOf(t, port), act, port)
  {
    assert (t + [act])[..|t|] == t;
  }

  lemma {:induction false} Stretch(t: Trace, u: Trace, port: Port)
    requires t <= u && forall i :: |t| <= i < |u| ==> ConnectAct(u[i])
    ensures HistoryOf(u, port) == HistoryOf(t, port)
    decreases |u|
  {
    if |t| < |u| {
      var v := u[..|u| - 1];
      assert forall i :: |t| <= i < |v| ==> v[i] == u[i];
      Stretch(t, v, port);
      assert ConnectAct(u[|u| - 1]);
    } else {
      assert t == u;
    }
  }

  // ---------- the invariant of one port ----------

  ghost predicate Spaced(times: seq<Instant>) {
    forall i, j :: 0 <= i < j < |times| ==> times[i] + REDISCOVERY_COOLDOWN <= times[j]
  }

  ghost predicate PortInv(g: Setting, a: Actor, port: Port) {
    var h := HistoryOf(a.trace, port);
    && (h.dark ==> port in a.pending && h.shown == Some(None))
    && h.spawned <= h.selected + (if port in a.pending then 1 else 0)
    && (port in a.pending ==> port in a.destinations)
    && (port in a.destinations ==> a.destinations[port] == if h.shown.Some? then h.shown.value else None)
    && (port in a.lastRediscovery <==> h.rediscoveries != [])
    && (port in a.lastRediscovery ==>
      a.lastRediscovery[port] == h.rediscoveries[|h.rediscoveries| - 1] <= g.net.now(a.trace))
    && Spaced(h.rediscoveries)
    && h.honoured
  }

  /** The destination handles are those of the configured ports. */
  ghost predicate HandlesMatch(g: Setting, a: Actor) {
    forall p :: p in a.destinations <==> exists s :: s in g.servers && s.port == p
  }

  lemma Unaffected(g: Setting, a: Actor, b: Actor, port: Port)
    requires MonotoneClock(g.net) && PortInv(g, a, port) && a.trace <= b.trace
    requires HistoryOf(b.trace, port) == HistoryOf(a.trace, port)
    requires b.destinations.Keys == a.destinations.Keys
             && (port in a.destinations ==> b.destinations[port] == a.destinations[port])
    requires (port in b.pending <==> port in a.pending)
    requires (port in b.lastRediscovery <==> port in a.lastRediscovery)
    requires port in a.lastRediscovery ==> b.lastRediscovery[port] == a.lastRediscovery[port]
    ensures PortInv(g, b, port)
  {
    ClockAlong(g.net, a.trace, b.trace);
  }

  lemma PointHistory(a: Actor, p: Port, peer: Option<PeerId>, source: Option<DestinationSource>, port: Port)
    ensures var h, h' := HistoryOf(a.trace, port), HistoryOf(PointTo(a, p, peer, source).trace, port);
            h' == if p != port then h
                  else h.(shown := Some(peer), source := source, shows := h.shows + 1, dark := h.dark && peer.None?)
  {
    Snoc(a.trace, Emitting(ActiveDestination(p, peer, source)), port);
  }

  function SourceOf(o: Outcome): Option<DestinationSource> {
    if o.result.Ok? then Some(o.result.value.source) else None
  }

  lemma ConnectStretch(g: Setting, a: Actor, server: Server, avoid: Option<PeerId>, port: Port)
    ensures HistoryOf(ConnectFor(g, a, server, avoid).trace, port)
            == HistoryOf(a.trace + [Selecting(server.port)], port)
  {
    var t := a.trace + [Selecting(server.port)];
    var u := ConnectFor(g, a, server, avoid).trace;
    forall i | |t| <= i < |u| ensures ConnectAct(u[i]) {
      ConnectIsDisciplined(g.W(), a.store, t, server, avoid, i);
    }
    Stretch(t, u, port);
  }

  lemma ShownPoolHistory(a: Actor, server: Server, port: Port)
    ensures HistoryOf(ShowPool(a, server).trace, port) == HistoryOf(a.trace, port)
  {
    Snoc(a.trace, Emitting(StickyPoolShown(server.port, Snapshot(a.store, server.port, server.Fingerprint()))), port);
  }

  lemma AfterConnectHistory(g: Setting, a: Actor, server: Server, avoid: Option<PeerId>, port: Port)
    ensures var h := HistoryOf(a.trace, port);
            HistoryOf(AfterConnect(a, server, ConnectFor(g, a, server, avoid)).trace, port)
            == if server.port == port then h.(dark := false, selected := h.selected + 1) else h
  {
    var o := ConnectFor(g, a, server, avoid);
    Snoc(a.trace, Selecting(server.port), port);
    ConnectStretch(g, a, server, avoid, port);
    ShownPoolHistory(a.(store := o.store, trace := o.trace), server, port);
  }

  /** A selection shows its outcome, ends the darkness and counts as one. */
  lemma SelectHistory(g: Setting, a: Actor, server: Server, avoid: Option<PeerId>, port: Port)
    ensures var r := Select(g, a, server, avoid);
            var h := HistoryOf(a.trace, port);
            HistoryOf(r.actor.trace, port)
            == if server.port != port then h
               else h.(dark := false, selected := h.selected + 1, shown := Some(r.peer), shows := h.shows + 1,
                       source := SourceOf(ConnectFor(g, a, server, avoid)))
  {
    var o := ConnectFor(g, a, server, avoid);
    var b := AfterConnect(a, server, o);
    AfterConnectHistory(g, a, server, avoid, port);
    PointHistory(b, server.port, Chosen(o), SourceOf(o), port);
  }

  lemma SelectFrame(g: Setting, a: Actor, server: Server, avoid: Option<PeerId>)
    ensures var r := Select(g, a, server, avoid);
            && r.actor.pending == a.pending && r.actor.lastRediscovery == a.lastRediscovery
            && r.actor.timers == a.timers && r.actor.direct == a.direct
            && (forall p :: p in a.destinations ==>
              r.actor.destinations[p] == if p == server.port then r.peer else a.destinations[p])
  {
  }

  lemma ChooseKeepsPort(g: Setting, a: Actor, p: Port, avoid: Option<PeerId>, port: Port)
    requires MonotoneClock(g.net) && HandlesMatch(g, a) && PortInv(g, a, port)
    ensures PortInv(g, DiscoverPort(g, a, p, avoid).actor, port)
  {
    hide Select, HistoryOf;
    var b := a.(pending := a.pending - {p});
    var found := FindServer(g.servers, p);
    if found.None? {
      assert p !in a.destinations;
      Unaffected(g, a, b, port);
    } else {
      SelectHistory(g, b, found.value, avoid, port);
      SelectFrame(g, b, found.value, avoid);
      if p == port {
        SelectedPort(g, a, Select(g, b, found.value, avoid), port, SourceOf(ConnectFor(g, b, found.value, avoid)));
      } else {
        Unaffected(g, a, Select(g, b, found.value, avoid).actor, port);
      }
    }
  }

  lemma SelectedPort(g: Setting, a: Actor, r: Selected, port: Port, source: Option<DestinationSource>)
    requires MonotoneClock(g.net) && PortInv(g, a, port) && a.trace <= r.actor.trace
    requires r.actor.destinations.Keys == a.destinations.Keys
             && (port in a.destinations ==> r.actor.destinations[port] == r.peer)
    requires r.actor.pending == a.pending - {port} && r.actor.lastRediscovery == a.lastRediscovery
    requires var h := HistoryOf(a.trace, port);
             HistoryOf(r.actor.trace, port)
               == h.(dark := false, selected := h.selected + 1, shown := Some(r.peer), shows := h.shows + 1,
                 source := source)
    ensures PortInv(g, r.actor, port)
  {
    hide HistoryOf;
    ClockAlong(g.net, a.trace, r.actor.trace);
  }

  lemma HoldHistory(g: Setting, a: Actor, p: Port, remaining: nat, port: Port)
    ensures var b := Throttle(g, a, p, remaining);
            var h := HistoryOf(a.trace, port);
            var timer := Timer(p, g.net.now(PointTo(a.Noting(Throttling(p)), p, None, None).trace), remaining);
            var cleared := h.(dark := true, shown := Some(None), shows := h.shows + 1, source := None);
            HistoryOf(b.trace, port)
            == if p != port then h
               else if p in a.pending then cleared
               else Advance(cleared, Spawning(timer), port)
  {
    Snoc(a.trace, Throttling(p), port);
    var c := PointTo(a.Noting(Throttling(p)), p, None, None);
    PointHistory(a.Noting(Throttling(p)), p, None, None, port);
    Snoc(c.trace, Spawning(Timer(p, g.net.now(c.trace), remaining)), port);
  }

  /** The put-off discovery is due no earlier than the cooldown it waits for. */
  lemma TimerHonours(g: Setting, a: Actor, port: Port, now: Instant)
    requires MonotoneClock(g.net) && PortInv(g, a, port) && port in a.lastRediscovery
    requires now <= g.net.now(a.trace) && Elapsed(a, port, now) < REDISCOVERY_COOLDOWN
    ensures var c := PointTo(a.Noting(Throttling(port)), port, None, None);
            var timer := Timer(port, g.net.now(c.trace), REDISCOVERY_COOLDOWN - Elapsed(a, port, now));
            var times := HistoryOf(a.trace, port).rediscoveries;
            forall i :: 0 <= i < |times| ==> times[i] + REDISCOVERY_COOLDOWN <= Due(timer)
  {
    var c := PointTo(a.Noting(Throttling(port)), port, None, None);
    ClockAlong(g.net, a.trace, c.trace);
    var times := HistoryOf(a.trace, port).rediscoveries;
    var last := times[|times| - 1];
    assert last == a.lastRediscovery[port];
    forall i | 0 <= i < |times| ensures times[i] <= last {}
  }

  lemma HoldFrame(g: Setting, a: Actor, p: Port, remaining: nat)
    ensures var b := Throttle(g, a, p, remaining);
            && b.pending == a.pending + {p} && b.lastRediscovery == a.lastRediscovery
            && (forall q :: q in a.destinations ==> b.destinations[q] == if q == p then None else a.destinations[q])
  {
  }

  lemma HeldPort(g: Setting, a: Actor, b: Actor, port: Port, timer: Timer)
    requires MonotoneClock(g.net) && PortInv(g, a, port) && port in a.destinations && a.trace <= b.trace
    requires b.destinations.Keys == a.destinations.Keys && b.destinations[port] == None
    requires b.pending == a.pending + {port} && b.lastRediscovery == a.lastRediscovery
    requires var h, h' := HistoryOf(a.trace, port), HistoryOf(b.trace, port);
             var cleared := h.(dark := true, shown := Some(None), shows := h.shows + 1, source := None);
             && h' == (if port in a.pending then cleared else Advance(cleared, Spawning(timer), port))
             && timer.port == port
             && forall i :: 0 <= i < |h.rediscoveries| ==> h.rediscoveries[i] + REDISCOVERY_COOLDOWN <= Due(timer)
    ensures PortInv(g, b, port)
  {
    hide HistoryOf;
    ClockAlong(g.net, a.trace, b.trace);
  }

  lemma HoldKeepsPort(g: Setting, a: Actor, p: Port, now: Instant, port: Port)
    requires MonotoneClock(g.net) && PortInv(g, a, port) && p in a.destinations && p in a.lastRediscovery
    requires now <= g.net.now(a.trace) && Elapsed(a, p, now) < REDISCOVERY_COOLDOWN
    ensures PortInv(g, Throttle(g, a, p, REDISCOVERY_COOLDOWN - Elapsed(a, p, now)), port)
  {
    hide PortInv, Throttle, HistoryOf, Advance, Elapsed;
    var remaining := REDISCOVERY_COOLDOWN - Elapsed(a, p, now);
    var b := Throttle(g, a, p, remaining);
    HoldHistory(g, a, p, remaining, port);
    HoldFrame(g, a, p, remaining);
    if p == port {
      TimerHonours(g, a, port, now);
      var c := PointTo(a.Noting(Throttling(port)), port, None, None);
      HeldPort(g, a, b, port, Timer(port, g.net.now(c.trace), remaining));
    } else {
      Unaffected(g, a, b, port);
    }
  }

  lemma MarkKeepsPort(g: Setting, a: Actor, p: Port, at: Instant, port: Port)
    requires MonotoneClock(g.net) && PortInv(g, a, port)
    requires at <= g.net.now(a.trace) && (p in a.lastRediscovery ==> a.lastRediscovery[p] + REDISCOVERY_COOLDOWN <= at)
    ensures PortInv(g, Do(g, a, Mark(p, at)), port)
  {
    var b := Do(g, a, Mark(p, at));
    Snoc(a.trace, Rediscovering(p, at), port);
    ClockAlong(g.net, a.trace, b.trace);
    if p != port {
      Unaffected(g, a, b, port);
    } else {
      var times := HistoryOf(a.trace, port).rediscoveries;
      SpacedSnoc(times, at);
    }
  }

  lemma SpacedSnoc(times: seq<Instant>, at: Instant)
    requires Spaced(times) && (times != [] ==> times[|times| - 1] + REDISCOVERY_COOLDOWN <= at)
    ensures Spaced(times + [at])
  {
    var longer := times + [at];
    forall i, j | 0 <= i < j < |longer| ensures longer[i] + REDISCOVERY_COOLDOWN <= longer[j] {
      if j == |times| && i < |times| - 1 { assert times[i] + REDISCOVERY_COOLDOWN <= times[|times| - 1]; }
    }
  }

  lemma SwitchKeepsPort(g: Setting, a: Actor, server: Server, peer: PeerId, source: DestinationSource, port: Port)
    requires MonotoneClock(g.net) && PortInv(g, a, port)
    ensures PortInv(g, Do(g, a, Switch(server, peer, source)), port)
  {
    hide HistoryOf, Remember;
    var b := Do(g, a, Switch(server, peer, source));
    var c := a.(store := Remember(a.store, server.port, server.Fingerprint(), peer, server.maxTotal));
    PointHistory(c, server.port, Some(peer), Some(source), port);
    ClockAlong(g.net, a.trace, b.trace);
    if server.port != port { Unaffected(g, a, b, port); }
  }

  lemma ProbeKeepsPort(g: Setting, a: Actor, server: Server, peer: PeerId, port: Port)
    requires MonotoneClock(g.net) && PortInv(g, a, port)
    ensures PortInv(g, Do(g, a, Probe(server, peer)), port)
  {
    ReachStretch(g, a, server.port, peer);
    Stretch(a.trace, Do(g, a, Probe(server, peer)).trace, port);
    Unaffected(g, a, Do(g, a, Probe(server, peer)), port);
  }

  lemma ReachStretch(g: Setting, a: Actor, port: Port, peer: PeerId)
    ensures var u := TryReach(g.W(), a.store, a.trace, port, peer).trace;
            forall i :: |a.trace| <= i < |u| ==> ConnectAct(u[i])
  {
    var u := TryReach(g.W(), a.store, a.trace, port, peer).trace;
    ReachWithin(g.W(), a.store, a.trace, port, peer);
    forall i | |a.trace| <= i < |u| ensures ConnectAct(u[i]) { assert Proper(u, i); }
  }

  lemma MoveKeepsPort(g: Setting, a: Actor, e: DiscoveryEvent, m: Move, port: Port)
    requires Sound(g) && HandlesMatch(g, a) && PortInv(g, a, port) && Allowed(g, a, e, m)
    ensures PortInv(g, Do(g, a, m), port)
  {
    match m
    case Choose(p, avoid) => ChooseKeepsPort(g, a, p, avoid, port);
    case Hold(p, now) => HoldKeepsPort(g, a, p, now, port);
    case Mark(p, at) => MarkKeepsPort(g, a, p, at, port);
    case Switch(server, peer, source) => SwitchKeepsPort(g, a, server, peer, source, port);
    case Probe(server, peer) => ProbeKeepsPort(g, a, server, peer, port);
    case Quiet(act) =>
      Snoc(a.trace, act, port);
      Unaffected(g, a, Do(g, a, m), port);
    case _ => Unaffected(g, a, Do(g, a, m), port);
  }

  lemma {:induction false} MovesKeepPort(g: Setting, a: Actor, e: DiscoveryEvent, ms: seq<Move>, port: Port)
    requires Sound(g) && HandlesMatch(g, a) && PortInv(g, a, port) && AllAllowed(g, a, e, ms)
    ensures PortInv(g, DoAll(g, a, ms), port)
    decreases |ms|
  {
    if ms != [] {
      MoveKeepsPort(g, a, e, ms[0], port);
      MovesKeepPort(g, Do(g, a, ms[0]), e, ms[1..], port);
    }
  }

  lemma HandleKeepsPort(g: Setting, a: Actor, e: DiscoveryEvent, port: Port)
    requires Sound(g) && HandlesMatch(g, a) && PortInv(g, a, port)
    ensures PortInv(g, Handle(g, a, e), port)
    ensures Handle(g, a, e).destinations.Keys == a.destinations.Keys
  {
    HandleIsMoves(g, a, e);
    var ms :| AllAllowed(g, a, e, ms) && DoAll(g, a, ms) == Handle(g, a, e);
    MovesKeepPort(g, a, e, ms, port);
  }

  // ---------- no pending port is left without a wake-up ----------

  ghost predicate HasTimer(timers: multiset<Timer>, port: Port) {
    exists timer :: timer in timers && timer.port == port
  }

  /** Each pending port has a timer in flight or is among those already being woken. */
  ghost predicate Covered(a: Actor, woken: set<Port>) {
    forall p :: p in a.pending ==> p in woken || HasTimer(a.timers, p)
  }

  lemma MoveKeepsCovered(g: Setting, a: Actor, m: Move, woken: set<Port>)
    requires Covered(a, woken)
    ensures Covered(Do(g, a, m), woken)
  {
    MoveTimers(g, a, m);
    hide Do;
    var b := Do(g, a, m);
    forall p | p in b.pending ensures p in woken || HasTimer(b.timers, p) {
      if p in a.pending && p !in woken {
        var timer :| timer in a.timers && timer.port == p;
        assert timer in b.timers;
      }
    }
  }

  /** A move drops no timer, and a port it newly marks pending has one. */
  lemma MoveTimers(g: Setting, a: Actor, m: Move)
    ensures var b := Do(g, a, m);
            && (forall timer :: timer in a.timers ==> timer in b.timers)
            && (forall p :: p in b.pending && p !in a.pending ==> HasTimer(b.timers, p))
  {
    hide Select;
    match m
    case Choose(port, avoid) =>
      var found := FindServer(g.servers, port);
      if found.Some? { SelectFrame(g, a.(pending := a.pending - {port}), found.value, avoid); }
    case Hold(port, now) =>
      var b := Do(g, a, m);
      if port !in a.pending { assert b.trace[|b.trace| - 1].timer in b.timers; }
    case _ =>
  }

  lemma {:induction false} MovesKeepCovered(g: Setting, a: Actor, ms: seq<Move>, woken: set<Port>)
    requires Covered(a, woken)
    ensures Covered(DoAll(g, a, ms), woken)
    decreases |ms|
  {
    if ms != [] {
      MoveKeepsCovered(g, a, ms[0], woken);
      MovesKeepCovered(g, Do(g, a, ms[0]), ms[1..], woken);
    }
  }

  /** A delivered discovery of a port takes that port, and no other, off the pending set. */
  lemma DiscoverForWakes(g: Setting, a: Actor, port: Port)
    ensures var b := Handle(g, a, DiscoverFor(port));
            b.pending == a.pending - {port} && b.timers == a.timers
  {
  }

  lemma HandleKeepsCovered(g: Setting, a: Actor, e: DiscoveryEvent, woken: set<Port>)
    requires Sound(g) && Covered(a, woken)
    ensures Covered(Handle(g, a, e), woken)
    ensures e.DiscoverFor? ==> Covered(Handle(g, a, e), woken - {e.port})
  {
    HandleIsMoves(g, a, e);
    var ms :| AllAllowed(g, a, e, ms) && DoAll(g, a, ms) == Handle(g, a, e);
    MovesKeepCovered(g, a, ms, woken);
    if e.DiscoverFor? { DiscoverForWakes(g, a, e.port); }
  }
}

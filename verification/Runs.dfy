/** Whole runs: messages queued in any order, timers in flight, a moving clock. */
module Runs {
  import opened Wrappers
  import opened Selection
  import opened Sequences
  import opened Sticky
  import opened Config
  import opened NetworkActors
  import opened Environments
  import opened ConnectSummaries
  import opened DiscoverySpec
  import opened Moves
  import opened PoolInvariants
  import opened Histories
  import opened HardPins

  datatype System = System(actor: Actor, queue: multiset<DiscoveryEvent>, delivered: seq<DiscoveryEvent>)

  /** Send: any message joins the queue. Deliver: any queued message is handled. Fire: a
      timer that is due queues its discovery. Tick: time passes. */
  datatype Step = Send(event: DiscoveryEvent) | Deliver(event: DiscoveryEvent) | Fire(timer: Timer) | Tick

  predicate Enabled(g: Setting, sys: System, step: Step) {
    match step
    case Send(_) => true
    case Deliver(e) => e in sys.queue
    case Fire(timer) => timer in sys.actor.timers && Due(timer) <= g.net.now(sys.actor.trace)
    case Tick => true
  }

  function Apply(g: Setting, sys: System, step: Step): System {
    match step
    case Send(e) => sys.(queue := sys.queue + multiset{e})
    case Deliver(e) => System(Handle(g, sys.actor, e), sys.queue - multiset{e}, sys.delivered + [e])
    case Fire(timer) =>
      sys.(actor := sys.actor.(timers := sys.actor.timers - multiset{timer}),
           queue := sys.queue + multiset{DiscoverFor(timer.port)})
    case Tick => sys.(actor := sys.actor.Noting(ReadingClock(g.net.now(sys.actor.trace))))
  }

  function Execute(g: Setting, start: System, run: seq<Step>): System {
    if run == [] then start else Apply(g, Execute(g, start, run[..|run| - 1]), run[|run| - 1])
  }

  predicate Feasible(g: Setting, start: System, run: seq<Step>) {
    run != [] ==>
      && Feasible(g, start, run[..|run| - 1])
      && Enabled(g, Execute(g, start, run[..|run| - 1]), run[|run| - 1])
  }

  lemma Extend(g: Setting, start: System, run: seq<Step>, step: Step)
    ensures Execute(g, start, run + [step]) == Apply(g, Execute(g, start, run), step)
    ensures Feasible(g, start, run + [step]) <==> Feasible(g, start, run) && Enabled(g, Execute(g, start, run), step)
  {
    assert (run + [step])[..|run|] == run;
  }

  /** A freshly built actor over any store of duplicate-free pools. */
  ghost predicate Initial(g: Setting, sys: System) {
    var a := sys.actor;
    && HandlesMatch(g, a) && (forall p :: p in a.destinations ==> a.destinations[p] == None)
    && Distinct(a.store)
    && a.lastRediscovery == map[] && a.pending == {} && a.direct == {} && a.timers == multiset{} && a.trace == []
    && sys.queue == multiset{} && sys.delivered == []
  }

  /** The protocol in a world that keeps its contracts, from a fresh start. */
  ghost predicate Scenario(g: Setting, start: System, run: seq<Step>) {
    Sound(g) && WellSet(g) && Initial(g, start) && Feasible(g, start, run)
  }

  // ---------- the pool and the exit ----------

  ghost predicate PoolsHold(g: Setting, initial: Store, a: Actor) {
    PoolInv(g, initial, a) && FrontInv(g, a, {})
  }

  lemma {:induction false} RunKeepsPools(g: Setting, start: System, run: seq<Step>)
    requires Scenario(g, start, run)
    ensures PoolsHold(g, start.actor.store, Execute(g, start, run).actor)
  {
    hide PoolsHold, Apply, Enabled;
    if run == [] {
      StartKeepsPools(g, start);
    } else {
      RunKeepsPools(g, start, run[..|run| - 1]);
      StepKeepsPools(g, start.actor.store, Execute(g, start, run[..|run| - 1]), run[|run| - 1]);
    }
  }

  lemma StartKeepsPools(g: Setting, start: System)
    requires Initial(g, start)
    ensures PoolsHold(g, start.actor.store, start.actor)
  {
    forall s | s in g.servers ensures PoolInvAt(s, start.actor.store, start.actor) && FrontAt(s, start.actor) {}
  }

  lemma StepKeepsPools(g: Setting, initial: Store, sys: System, step: Step)
    requires Sound(g) && WellSet(g) && Enabled(g, sys, step) && PoolsHold(g, initial, sys.actor)
    ensures PoolsHold(g, initial, Apply(g, sys, step).actor)
  {
    hide Handle;
    if step.Deliver? {
      HandleKeepsPools(g, initial, sys.actor, step.event);
    } else {
      StillKeeps(g, initial, sys.actor, Apply(g, sys, step).actor, {});
    }
  }

  /** In every reachable state: a discovery-driven sticky server's exit is the front of
      its pool, stored under the current fingerprint; and any server's pool is free of
      duplicates, holds only peers of the initial store and former exits of its port,
      and stays within its cap if it started there. */
  lemma ExitIsPoolFront(g: Setting, start: System, run: seq<Step>, server: Server)
    requires Scenario(g, start, run) && server in g.servers
    ensures var a := Execute(g, start, run).actor;
            var pool := PoolOf(a.store, server);
            && (Tracked(server) && server.port in a.destinations && a.destinations[server.port].Some? ==>
                  && server.port in a.store && a.store[server.port].fingerprint == server.Fingerprint()
                  && pool != [] && pool[0] == a.destinations[server.port].value)
            && NoDuplicates(pool)
            && (forall x :: x in pool ==> x in PoolOf(start.actor.store, server) || x in Exits(a.trace, server.port))
            && (|PoolOf(start.actor.store, server)| <= Cap(server) ==> |pool| <= Cap(server))
  {
    var a := Execute(g, start, run).actor;
    RunKeepsPools(g, start, run);
    assert PoolInvAt(server, start.actor.store, a) && FrontAt(server, a);
  }

  // ---------- cooldown and wake-ups ----------

  function Woken(queue: multiset<DiscoveryEvent>): set<Port> {
    set e | e in queue && e.DiscoverFor? :: e.port
  }

  lemma {:induction false} RunKeepsPorts(g: Setting, start: System, run: seq<Step>, port: Port)
    requires Scenario(g, start, run)
    ensures var sys := Execute(g, start, run);
            && HandlesMatch(g, sys.actor) && PortInv(g, sys.actor, port) && Covered(sys.actor, Woken(sys.queue))
  {
    if run != [] {
      var sys := Execute(g, start, run[..|run| - 1]);
      var step := run[|run| - 1];
      RunKeepsPorts(g, start, run[..|run| - 1], port);
      StepKeepsPort(g, sys, step, port);
      StepKeepsCovered(g, sys, step);
    }
  }

  lemma StepKeepsPort(g: Setting, sys: System, step: Step, port: Port)
    requires Sound(g) && Enabled(g, sys, step) && HandlesMatch(g, sys.actor) && PortInv(g, sys.actor, port)
    ensures var next := Apply(g, sys, step); HandlesMatch(g, next.actor) && PortInv(g, next.actor, port)
  {
    var next := Apply(g, sys, step);
    match step
    case Deliver(e) => HandleKeepsPort(g, sys.actor, e, port);
    case Tick =>
      Snoc(sys.actor.trace, ReadingClock(g.net.now(sys.actor.trace)), port);
      Unaffected(g, sys.actor, next.actor, port);
    case Fire(_) => Unaffected(g, sys.actor, next.actor, port);
    case Send(_) =>
  }

  lemma StepKeepsCovered(g: Setting, sys: System, step: Step)
    requires Sound(g) && Enabled(g, sys, step) && Covered(sys.actor, Woken(sys.queue))
    ensures var next := Apply(g, sys, step); Covered(next.actor, Woken(next.queue))
  {
    var next := Apply(g, sys, step);
    match step
    case Send(e) =>
      assert Woken(sys.queue) <= Woken(next.queue);
    case Deliver(e) =>
      HandleKeepsCovered(g, sys.actor, e, Woken(sys.queue));
      forall p | p in Woken(sys.queue) && e != DiscoverFor(p) ensures p in Woken(next.queue) {
        assert DiscoverFor(p) in next.queue;
      }
    case Fire(timer) =>
      forall p | p in next.actor.pending ensures p in Woken(next.queue) || HasTimer(next.actor.timers, p) {
        if p in Woken(sys.queue) {
          assert DiscoverFor(p) in next.queue;
        } else {
          var other :| other in sys.actor.timers && other.port == p;
          if other == timer { assert DiscoverFor(p) in next.queue; } else { assert other in next.actor.timers; }
        }
      }
    case Tick =>
  }

  /** No throttled port is abandoned, over every run and delivery order: a pending port
      has a timer in flight or its discovery queued; a port dark since a throttled close
      is pending and has no exit; and a port's timers never outnumber its selections by
      more than one. */
  lemma NoThrottledPortAbandoned(g: Setting, start: System, run: seq<Step>, port: Port)
    requires Scenario(g, start, run)
    ensures var sys := Execute(g, start, run);
            var a, h := sys.actor, HistoryOf(sys.actor.trace, port);
            && (port in a.pending ==> HasTimer(a.timers, port) || DiscoverFor(port) in sys.queue)
            && (h.dark ==> port in a.pending && port in a.destinations && a.destinations[port] == None)
            && h.spawned <= h.selected + 1
  {
    RunKeepsPorts(g, start, run, port);
  }

  /** The wake-up works: delivering a port's discovery selects an exit for it, takes it
      off the pending set and ends its darkness. */
  lemma WakeUpSelects(g: Setting, start: System, run: seq<Step>, server: Server)
    requires Scenario(g, start, run) && server in g.servers && DiscoverFor(server.port) in Execute(g, start, run).queue
    ensures var run' := run + [Deliver(DiscoverFor(server.port))];
            var before, after := Execute(g, start, run).actor, Execute(g, start, run').actor;
            && Feasible(g, start, run') && server.port !in after.pending
            && !HistoryOf(after.trace, server.port).dark
            && HistoryOf(after.trace, server.port).selected == HistoryOf(before.trace, server.port).selected + 1
  {
    var run' := run + [Deliver(DiscoverFor(server.port))];
    var before := Execute(g, start, run).actor;
    assert run'[..|run|] == run;
    var b := before.(pending := before.pending - {server.port});
    assert FindServer(g.servers, server.port) == Some(server);
    SelectHistory(g, b, server, None, server.port);
    SelectFrame(g, b, server, None);
  }

  /** A request for a new exit is answered last of all, with the exit that the selection made
      for it left in the handle; for a port without a server, with nobody. */
  lemma RequestIsAnswered(g: Setting, a: Actor, port: Port)
    requires HandlesMatch(g, a)
    ensures var b := Handle(g, a, RequestNewPeer(port));
            && b.trace != []
            && b.trace[|b.trace| - 1] == Replying(port, if port in b.destinations then b.destinations[port] else None)
            && (port in a.destinations ==>
                  && port in b.destinations && port !in b.pending
                  && HistoryOf(b.trace, port).selected == HistoryOf(a.trace, port).selected + 1
                  && HistoryOf(b.trace, port).shown == Some(b.destinations[port]))
  {
    hide Select, HistoryOf;
    var c := a.(pending := a.pending - {port});
    var found := FindServer(g.servers, port);
    var r := DiscoverPort(g, a, port, None);
    Snoc(r.actor.trace, Replying(port, r.peer), port);
    if found.Some? {
      SelectHistory(g, c, found.value, None, port);
      SelectFrame(g, c, found.value, None);
      assert port in a.destinations;
    } else {
      assert port !in a.destinations;
    }
  }

  /** The actor's events and its destination handles agree: the handle holds the exit last
      announced for its port. */
  lemma ShownIsServed(g: Setting, start: System, run: seq<Step>, port: Port)
    requires Scenario(g, start, run) && port in Execute(g, start, run).actor.destinations
    ensures var a := Execute(g, start, run).actor;
            var shown := HistoryOf(a.trace, port).shown;
            a.destinations[port] == if shown.Some? then shown.value else None
  {
    RunKeepsPorts(g, start, run, port);
  }

  /** How many of the times fall in a window of the given length. */
  function InWindow(times: seq<Instant>, from: Instant, length: nat): nat {
    if times == [] then 0
    else
      var last := times[|times| - 1];
      InWindow(times[..|times| - 1], from, length) + if from <= last <= from + length then 1 else 0
  }

  lemma {:induction false} WindowBound(times: seq<Instant>, from: Instant, length: nat)
    requires Spaced(times)
    ensures InWindow(times, from, length) <= length / REDISCOVERY_COOLDOWN + 1
  {
    LatestInWindow(times, from, length);
    var n := InWindow(times, from, length);
    if n > 0 {
      assert (n - 1) * REDISCOVERY_COOLDOWN <= length;
    }
  }

  lemma {:induction false} LatestInWindow(times: seq<Instant>, from: Instant, length: nat)
    requires Spaced(times)
    ensures LateEnough(times, from, length, InWindow(times, from, length))
  {
    if times != [] {
      var before := times[..|times| - 1];
      LatestInWindow(before, from, length);
      WindowGrows(times, from, length);
    }
  }

  ghost predicate LateEnough(times: seq<Instant>, from: Instant, length: nat, n: nat) {
    n > 0 ==> exists i :: 0 <= i < |times| && from + (n - 1) * REDISCOVERY_COOLDOWN <= times[i] <= from + length
  }

  lemma WindowGrows(times: seq<Instant>, from: Instant, length: nat)
    requires times != [] && Spaced(times)
    requires var before := times[..|times| - 1]; LateEnough(before, from, length, InWindow(before, from, length))
    ensures LateEnough(times, from, length, InWindow(times, from, length))
  {
    var before, last := times[..|times| - 1], times[|times| - 1];
    var m := InWindow(before, from, length);
    if m > 0 {
      var i :| 0 <= i < |before| && from + (m - 1) * REDISCOVERY_COOLDOWN <= before[i] <= from + length;
      assert times[i] == before[i] && times[i] + REDISCOVERY_COOLDOWN <= last;
    }
    if from <= last <= from + length {
      assert from + m * REDISCOVERY_COOLDOWN <= times[|times| - 1];
    }
  }

  /** Close-triggered rediscoveries of a port start at least 30 s apart, so a window of
      length L holds at most floor(L / 30 s) + 1 of them; and every put-off discovery was
      due no earlier than the cooldown of each rediscovery before it. */
  lemma CooldownHolds(g: Setting, start: System, run: seq<Step>, port: Port, from: Instant, length: nat)
    requires Scenario(g, start, run)
    ensures var h := HistoryOf(Execute(g, start, run).actor.trace, port);
            && Spaced(h.rediscoveries) && h.honoured
            && (forall i, j :: 0 <= i < j < |h.rediscoveries| ==>
                  h.rediscoveries[i] + 30_000_000_000 <= h.rediscoveries[j])
            && InWindow(h.rediscoveries, from, length) <= length / 30_000_000_000 + 1
  {
    RunKeepsPorts(g, start, run, port);
    WindowBound(HistoryOf(Execute(g, start, run).actor.trace, port).rediscoveries, from, length);
  }

  // ---------- hard pins ----------

  /** The peers an operator picked for a port. */
  function Picks(delivered: seq<DiscoveryEvent>, port: Port): set<PeerId> {
    set e | e in delivered && e.SelectPeer? && e.port == port :: e.peer
  }

  lemma {:induction false} RunConfined(g: Setting, start: System, run: seq<Step>, server: Server)
    requires Scenario(g, start, run) && server in g.servers && IsHardPin(server)
    requires forall x :: x in PoolOf(start.actor.store, server) ==> x in server.PinnedIds()
    ensures var sys := Execute(g, start, run);
            Distinct(sys.actor.store)
              && Confined(server, sys.actor, server.PinnedIds() + Picks(sys.delivered, server.port))
  {
    if run != [] {
      var sys := Execute(g, start, run[..|run| - 1]);
      var step := run[|run| - 1];
      var next := Apply(g, sys, step);
      RunConfined(g, start, run[..|run| - 1], server);
      if step.Deliver? {
        hide Handle, PoolOf;
        var allowed := server.PinnedIds() + Picks(next.delivered, server.port);
        PicksGrow(sys.delivered, step.event, server.port);
        HandleConfined(g, sys.actor, step.event, server, allowed);
      }
    }
  }

  lemma PicksGrow(delivered: seq<DiscoveryEvent>, e: DiscoveryEvent, port: Port)
    ensures Picks(delivered, port) <= Picks(delivered + [e], port)
    ensures e.SelectPeer? && e.port == port ==> e.peer in Picks(delivered + [e], port)
  {
    forall x | x in delivered ensures x in delivered + [e] {}
    assert e in delivered + [e];
  }

  /** Over every run, a hard-pinned server whose initial pool lies within its pins serves
      nobody, a pinned peer, or a peer the operator picked for it. */
  lemma HardPinHolds(g: Setting, start: System, run: seq<Step>, server: Server)
    requires Scenario(g, start, run) && server in g.servers && IsHardPin(server)
    requires forall x :: x in PoolOf(start.actor.store, server) ==> x in server.PinnedIds()
    ensures Obeys(g, start, run, server)
  {
    RunConfined(g, start, run, server);
  }

  ghost predicate Obeys(g: Setting, start: System, run: seq<Step>, server: Server) {
    var sys := Execute(g, start, run);
    server.port in sys.actor.destinations && sys.actor.destinations[server.port].Some? ==>
      sys.actor.destinations[server.port].value in server.PinnedIds() + Picks(sys.delivered, server.port)
  }
}

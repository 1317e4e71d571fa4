/** Why the view is not in lock-step with the handles: it learns of a disconnected peer
    before the discovery actor does, and it never learns of an event that the sink drops. */
module ViewGaps {
  import opened Wrappers
  import opened Selection
  import opened Config
  import opened NetworkActors
  import opened Environments
  import opened DiscoverySpec
  import opened Moves
  import opened Histories
  import opened HardPins
  import opened Runs
  import opened Tui
  import opened TuiLaws
  import opened JointRuns
  import opened HardPinExact

  /** The acts of a trace, and nothing beside them. */
  function Speak(acts: Trace): seq<Item> {
    if acts == [] then [] else Speak(acts[..|acts| - 1]) + [Own(acts[|acts| - 1])]
  }

  lemma {:induction false} SpeakIsActed(acts: Trace)
    ensures Acted(Speak(acts)) == acts && forall i :: 0 <= i < |Speak(acts)| ==> Speak(acts)[i].Own?
  {
    if acts != [] {
      var front := Speak(acts[..|acts| - 1]);
      SpeakIsActed(acts[..|acts| - 1]);
      assert Speak(acts)[..|front|] == front;
    }
  }

  lemma {:induction false} SpeakingOnly(j: Joint, items: seq<Item>)
    requires forall i :: 0 <= i < |items| ==> items[i].Own?
    ensures HearAll(j, items).sys == j.sys && HearAll(j, items).net == j.net
  {
    if items != [] { SpeakingOnly(j, items[..|items| - 1]); }
  }

  lemma ExtendJoint(g: Setting, start: Joint, run: seq<JointStep>, s: JointStep)
    ensures ExecuteJoint(g, start, run + [s]) == ApplyJoint(g, ExecuteJoint(g, start, run), s)
    ensures JointFeasible(g, start, run + [s])
            <==> JointFeasible(g, start, run) && JointEnabled(g, ExecuteJoint(g, start, run), s)
  {
    assert (run + [s])[..|run|] == run;
  }

  lemma EmptyStep(j: Joint)
    ensures HearAll(j, []) == j && Acted([]) == []
  {
  }

  /** An actor that serves `p`, with nothing queued and a view that shows it. */
  ghost predicate Serves(j: Joint, port: Port, p: PeerId) {
    && j.sys.queue == multiset{}
    && port in j.sys.actor.destinations && j.sys.actor.destinations[port] == Some(p)
    && ActiveAt(ViewOf(j), port) == Some(p)
  }

  /** One message sent and delivered, all that it emits being heard. */
  function Delivery(g: Setting, a: Actor, e: DiscoveryEvent): seq<JointStep> {
    [] + [Take(Send(e), [])] + [Take(Deliver(e), Speak(Handle(g, a, e).trace))]
  }

  ghost function Fresh(server: Server, hub: PeerId): Joint {
    Joint(System(FreshActor(server, map[]), multiset{}, []), Idle(hub), [])
  }

  lemma Delivered(g: Setting, start: Joint, e: DiscoveryEvent)
    requires start.sys == System(start.sys.actor, multiset{}, []) && start.sys.actor.trace == []
    ensures var run := Delivery(g, start.sys.actor, e);
            && JointFeasible(g, start, run)
            && ExecuteJoint(g, start, run).sys == System(Handle(g, start.sys.actor, e), multiset{}, [e])
  {
    var first, mid := Take(Send(e), []), start.(sys := System(start.sys.actor, multiset{e}, []));
    SentFirst(g, start, e);
    hide Handle, Speak, ApplyJoint, JointEnabled, ExecuteJoint, JointFeasible;
    ExtendJoint(g, start, [] + [first], Take(Deliver(e), Speak(Handle(g, start.sys.actor, e).trace)));
    DeliveredNow(g, mid, e);
  }

  lemma SentFirst(g: Setting, start: Joint, e: DiscoveryEvent)
    requires start.sys == System(start.sys.actor, multiset{}, [])
    ensures var run := [] + [Take(Send(e), [])];
            JointFeasible(g, start, run)
              && ExecuteJoint(g, start, run) == start.(sys := System(start.sys.actor, multiset{e}, []))
  {
    EmptyStep(start.(sys := System(start.sys.actor, multiset{e}, [])));
    assert Apply(g, start.sys, Send(e)) == System(start.sys.actor, multiset{e}, []);
    ExtendJoint(g, start, [], Take(Send(e), []));
  }

  lemma DeliveredNow(g: Setting, mid: Joint, e: DiscoveryEvent)
    requires mid.sys == System(mid.sys.actor, multiset{e}, []) && mid.sys.actor.trace == []
    ensures var s := Take(Deliver(e), Speak(Handle(g, mid.sys.actor, e).trace));
            JointEnabled(g, mid, s) && ApplyJoint(g, mid, s).sys == System(Handle(g, mid.sys.actor, e), multiset{}, [e])
  {
    var acts := Handle(g, mid.sys.actor, e).trace;
    LastDelivery(g, mid.sys, e);
    SpeakIsActed(acts);
    hide Handle, Apply, Enabled, HearAll, Acted, Speak;
    SpeakingAlong(g, mid, Deliver(e), acts, Speak(acts));
  }

  /** A step whose acts are all heard, and nothing else is. */
  lemma SpeakingAlong(g: Setting, j: Joint, step: Step, acts: Trace, items: seq<Item>)
    requires Enabled(g, j.sys, step) && Acted(items) == acts && forall i :: 0 <= i < |items| ==> items[i].Own?
    requires j.sys.actor.trace == [] && Apply(g, j.sys, step).actor.trace == acts
    ensures JointEnabled(g, j, Take(step, items)) && ApplyJoint(g, j, Take(step, items)).sys == Apply(g, j.sys, step)
  {
    hide Apply, Enabled, HearAll, Acted;
    assert [] + acts == acts;
    SpeakingOnly(j.(sys := Apply(g, j.sys, step)), items);
  }

  lemma LastDelivery(g: Setting, sys: System, e: DiscoveryEvent)
    requires sys == System(sys.actor, multiset{e}, [])
    ensures Enabled(g, sys, Deliver(e)) && Apply(g, sys, Deliver(e)) == System(Handle(g, sys.actor, e), multiset{}, [e])
  {
    hide Handle;
    assert multiset{e} - multiset{e} == multiset{};
  }

  /** The world of these runs: every peer resolves, only the first pin can be reached. */
  ghost function PinWorld(server: Server, relay: Multiaddr): Setting
    requires server.Pinned() != []
  {
    Setting(LoneNet(server.Pinned()[0].peerId), relay, [server])
  }

  /** The first selection of a pinned server, fully heard by the view: actor and view agree. */
  lemma Serving(server: Server, hub: PeerId, relay: Multiaddr)
    requires IsHardPin(server) && server.Valid()
    ensures var g, p := PinWorld(server, relay), server.Pinned()[0].peerId;
            var start, run := Fresh(server, hub),
              Delivery(PinWorld(server, relay), FreshActor(server, map[]), DiscoverFor(server.port));
            && JointScenario(g, start, run) && server in g.servers
            && Serves(ExecuteJoint(g, start, run), server.port, p)
  {
    var g, p := PinWorld(server, relay), server.Pinned()[0].peerId;
    var start, e := Fresh(server, hub), DiscoverFor(server.port);
    LoneNetIsSound(g, p);
    FreshIsInitial(g, server, map[]);
    FirstSelection(g, server, map[], p);
    hide LoneNet, Handle, Sound, IsHardPin, ExecuteJoint, JointFeasible, ActiveAt;
    Delivered(g, start, e);
    assert server in g.servers;
    ViewTracksTheHandle(g, start, Delivery(g, start.sys.actor, e), server);
  }

  /** The concrete gap: the exit disconnects. The network actor has told the view, the
      handle still holds the peer, and the message to the discovery actor is on its way. */
  lemma ViewRunsAhead(server: Server, hub: PeerId, relay: Multiaddr)
    returns (g: Setting, start: Joint, run: seq<JointStep>)
    requires IsHardPin(server) && server.Valid()
    ensures JointScenario(g, start, run) && server in g.servers
    ensures var j, p := ExecuteJoint(g, start, run), server.Pinned()[0].peerId;
            && server.port in j.sys.actor.destinations && j.sys.actor.destinations[server.port] == Some(p)
            && ActiveAt(ViewOf(j), server.port) == None && PeerClosed(p) in j.sys.queue
  {
    g, start := PinWorld(server, relay), Fresh(server, hub);
    Serving(server, hub, relay);
    hide PinWorld, Fresh, Delivery;
    var served := Delivery(g, FreshActor(server, map[]), DiscoverFor(server.port));
    run := served + [Meanwhile([Link(Closed(server.Pinned()[0].peerId))])];
    LinkLost(g, start, served, server.port, server.Pinned()[0].peerId);
  }

  lemma LinkLost(g: Setting, start: Joint, served: seq<JointStep>, port: Port, p: PeerId)
    requires JointFeasible(g, start, served) && Serves(ExecuteJoint(g, start, served), port, p)
    ensures var run := served + [Meanwhile([Link(Closed(p))])];
            var j := ExecuteJoint(g, start, run);
            && JointFeasible(g, start, run)
            && port in j.sys.actor.destinations && j.sys.actor.destinations[port] == Some(p)
            && ActiveAt(ViewOf(j), port) == None && PeerClosed(p) in j.sys.queue
  {
    hide Hear, Serves, ActiveAt, ExecuteJoint, JointFeasible;
    var item := Link(Closed(p));
    var j := ExecuteJoint(g, start, served);
    OneItem(j, item);
    ExtendJoint(g, start, served, Meanwhile([item]));
    HearsLoss(j, port, p);
  }

  lemma OneItem(j: Joint, item: Item)
    ensures HearAll(j, [item]) == Hear(j, item)
    ensures item.Link? ==> Acted([item]) == []
  {
    hide Hear;
    assert [item][..0] == [] && HearAll(j, []) == j && Acted([]) == [];
  }

  lemma HearsLoss(j: Joint, port: Port, p: PeerId)
    requires Serves(j, port, p)
    ensures var after := Hear(j, Link(Closed(p)));
            && after.sys.actor == j.sys.actor && port in j.sys.actor.destinations
            && j.sys.actor.destinations[port] == Some(p)
            && ActiveAt(ViewOf(after), port) == None && PeerClosed(p) in after.sys.queue
  {
    hide ReduceAll, ActiveAt, HeardOn, MessagesOn, React;
    HeardExactly(j, Closed(p));
    Heard(j, PeerDown(p), port);
  }

  /** And the sink's contract is needed: drop what one selection emits, and the view shows
      no exit although one is served, with no message in flight that would mend it. */
  lemma LostEventsAreNotMade(server: Server, hub: PeerId, relay: Multiaddr)
    requires IsHardPin(server) && server.Valid()
    ensures var g, p, e := PinWorld(server, relay), server.Pinned()[0].peerId, DiscoverFor(server.port);
            var j := Fresh(server, hub).(sys := System(FreshActor(server, map[]), multiset{e}, []));
            var s := Take(Deliver(e), []);
            var after := ApplyJoint(g, j, s);
            && Sound(g) && Enabled(g, j.sys, Deliver(e)) && !Lossless(g, j, s)
            && server.port in after.sys.actor.destinations && after.sys.actor.destinations[server.port] == Some(p)
            && ActiveAt(ViewOf(after), server.port) == None && after.sys.queue == multiset{}
  {
    var g, p, e := PinWorld(server, relay), server.Pinned()[0].peerId, DiscoverFor(server.port);
    var a := FreshActor(server, map[]);
    LoneNetIsSound(g, p);
    FreshIsInitial(g, server, map[]);
    FirstSelection(g, server, map[], p);
    hide LoneNet, Sound, Handle, IsHardPin;
    HandleKeepsPort(g, a, e, server.port);
    Announced(g, server, Handle(g, a, e), p);
    EmptyStep(Fresh(server, hub).(sys := System(Handle(g, a, e), multiset{}, [e])));
    assert multiset{e} - multiset{e} == multiset{};
  }

  /** An actor in step with its trace has announced the exit it serves. */
  lemma Announced(g: Setting, server: Server, b: Actor, p: PeerId)
    requires PortInv(g, b, server.port) && server.port in b.destinations && b.destinations[server.port] == Some(p)
    ensures b.trace != []
  {
    hide HistoryOf;
    EmittedHistory(b.trace, server.port);
  }
}

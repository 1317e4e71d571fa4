/** The discovery actor, the network actor and the operator's view in one run. The view
    hears both actors over one channel; what it hears while an event is being handled
    may interleave in any way. */
module JointRuns {
  import opened Wrappers
  import opened Selection
  import opened Sticky
  import opened Config
  import opened NetworkActors
  import opened Environments
  import opened DiscoverySpec
  import opened Moves
  import opened PoolInvariants
  import opened Histories
  import opened CloseEffects
  import opened Runs
  import opened Tui
  import opened TuiLaws

  /** One thing that happens while the protocol takes a step: the discovery actor does one
      of its acts, the network actor takes an input, or the view hears of a session. */
  datatype Item = Own(act: Act) | Link(input: NetInput) | Overheard(other: UiEvent)

  /** `heard` is everything the view was sent, in order. */
  datatype Joint = Joint(sys: System, net: NetState, heard: seq<UiEvent>)

  function ViewOf(j: Joint): UiState {
    ReduceAll(BLANK_UI, j.heard)
  }

  function HeardAs(r: Report): UiEvent {
    match r
    case LinkUp(peer) => PeerUp(peer)
    case Route(peer, address, relayed) => PeerRoute(peer, address, relayed)
    case LinkDown(peer) => PeerDown(peer)
  }

  function MessageOf(n: Notice): DiscoveryEvent {
    match n
    case CameUp(peer, address, relayed) => PeerConnected(peer, address, relayed)
    case WentDown(peer) => PeerClosed(peer)
  }

  /** What the network actor tells the view and the discovery actor on one input. */
  function HeardOn(input: NetInput): seq<UiEvent> {
    var reports := ReportsOf(input);
    seq(|reports|, i requires 0 <= i < |reports| => HeardAs(reports[i]))
  }

  function MessagesOn(hub: PeerId, input: NetInput): seq<DiscoveryEvent> {
    var notices := NoticesOf(hub, input);
    seq(|notices|, i requires 0 <= i < |notices| => MessageOf(notices[i]))
  }

  /** Events of the view that neither actor sends. */
  predicate Foreign(e: UiEvent) {
    e.LocalPeerKnown? || e.LinkPending? || e.SessionNew? || e.SessionEnd? || e.Upload? || e.Download?
  }

  function Hear(j: Joint, item: Item): Joint {
    match item
    case Own(act) => if act.Emitting? then j.(heard := j.heard + [Protocol(act.event)]) else j
    case Overheard(e) => j.(heard := j.heard + [e])
    case Link(input) =>
      Joint(j.sys.(queue := j.sys.queue + multiset(MessagesOn(j.net.bootstrap, input))),
            React(j.net, input), j.heard + HeardOn(input))
  }

  function HearAll(j: Joint, items: seq<Item>): Joint {
    if items == [] then j else Hear(HearAll(j, items[..|items| - 1]), items[|items| - 1])
  }

  /** The discovery actor's own acts among the items. */
  function Acted(items: seq<Item>): Trace {
    if items == [] then []
    else Acted(items[..|items| - 1]) + (if items[|items| - 1].Own? then [items[|items| - 1].act] else [])
  }

  function Owned(items: seq<Item>): seq<Event> {
    Emitted(Acted(items))
  }

  function Emitted(t: Trace): seq<Event> {
    if t == [] then []
    else Emitted(t[..|t| - 1]) + (if t[|t| - 1].Emitting? then [t[|t| - 1].event] else [])
  }

  datatype JointStep = Take(step: Step, items: seq<Item>) | Meanwhile(items: seq<Item>)

  /** The event sink loses nothing: the step's acts, and so all that it emits, are among the
      items in the order in which they happened. */
  predicate Lossless(g: Setting, j: Joint, s: JointStep) {
    match s
    case Take(step, items) => Apply(g, j.sys, step).actor.trace == j.sys.actor.trace + Acted(items)
    case Meanwhile(items) => Acted(items) == []
  }

  predicate JointEnabled(g: Setting, j: Joint, s: JointStep) {
    && (forall i :: 0 <= i < |s.items| && s.items[i].Overheard? ==> Foreign(s.items[i].other))
    && (s.Take? ==> Enabled(g, j.sys, s.step))
    && Lossless(g, j, s)
  }

  function ApplyJoint(g: Setting, j: Joint, s: JointStep): Joint {
    match s
    case Take(step, items) => HearAll(j.(sys := Apply(g, j.sys, step)), items)
    case Meanwhile(items) => HearAll(j, items)
  }

  function ExecuteJoint(g: Setting, start: Joint, run: seq<JointStep>): Joint {
    if run == [] then start else ApplyJoint(g, ExecuteJoint(g, start, run[..|run| - 1]), run[|run| - 1])
  }

  predicate JointFeasible(g: Setting, start: Joint, run: seq<JointStep>) {
    run != [] ==>
      && JointFeasible(g, start, run[..|run| - 1])
      && JointEnabled(g, ExecuteJoint(g, start, run[..|run| - 1]), run[|run| - 1])
  }

  ghost predicate JointScenario(g: Setting, start: Joint, run: seq<JointStep>) {
    && Sound(g) && WellSet(g) && Initial(g, start.sys)
    && start.net == Idle(start.net.bootstrap) && start.heard == []
    && JointFeasible(g, start, run)
  }

  // ---------- a joint run is a run of the discovery actor ----------

  function SendAll(events: seq<DiscoveryEvent>): seq<Step> {
    seq(|events|, i requires 0 <= i < |events| => Send(events[i]))
  }

  function SendsOf(hub: PeerId, items: seq<Item>): seq<Step> {
    if items == [] then []
    else SendsOf(hub, items[..|items| - 1]) + SendsOn(hub, items[|items| - 1])
  }

  function SendsOn(hub: PeerId, item: Item): seq<Step> {
    if item.Link? then SendAll(MessagesOn(hub, item.input)) else []
  }

  function Projected(hub: PeerId, run: seq<JointStep>): seq<Step> {
    if run == [] then []
    else
      var s := run[|run| - 1];
      Projected(hub, run[..|run| - 1]) + ((if s.Take? then [s.step] else []) + SendsOf(hub, s.items))
  }

  /** The steps lead from one feasible run to another, ending in `next`. */
  ghost predicate Continues(g: Setting, start: System, run: seq<Step>, more: seq<Step>, next: System) {
    Feasible(g, start, run + more) && Execute(g, start, run + more) == next
  }

  lemma SendsContinue(g: Setting, start: System, run: seq<Step>, hub: PeerId, input: NetInput)
    requires Feasible(g, start, run)
    ensures var sys := Execute(g, start, run);
            Continues(g, start, run, SendAll(MessagesOn(hub, input)),
              sys.(queue := sys.queue + multiset(MessagesOn(hub, input))))
  {
    var messages := MessagesOn(hub, input);
    if messages == [] {
      assert run + SendAll(messages) == run;
    } else {
      assert messages == [messages[0]] && SendAll(messages) == [Send(messages[0])];
      Extend(g, start, run, Send(messages[0]));
    }
  }

  lemma {:induction false} ItemsContinue(g: Setting, start: System, run: seq<Step>, j: Joint, items: seq<Item>)
    requires Feasible(g, start, run) && Execute(g, start, run) == j.sys
    ensures Continues(g, start, run, SendsOf(j.net.bootstrap, items), HearAll(j, items).sys)
    ensures HearAll(j, items).net.bootstrap == j.net.bootstrap
    decreases |items|
  {
    var hub := j.net.bootstrap;
    if items == [] {
      assert run + [] == run;
    } else {
      var front, item := items[..|items| - 1], items[|items| - 1];
      ItemsContinue(g, start, run, j, front);
      ItemContinues(g, start, run + SendsOf(hub, front), HearAll(j, front), item);
      hide Continues, Hear, SendsOn;
      ContinueOn(g, start, run, SendsOf(hub, front), SendsOn(hub, item), HearAll(j, items).sys);
    }
  }

  lemma ContinueOn(g: Setting, start: System, run: seq<Step>, more: seq<Step>, yet: seq<Step>, next: System)
    requires Continues(g, start, run + more, yet, next)
    ensures Continues(g, start, run, more + yet, next)
  {
    assert run + (more + yet) == run + more + yet;
  }

  lemma ItemContinues(g: Setting, start: System, run: seq<Step>, j: Joint, item: Item)
    requires Feasible(g, start, run) && Execute(g, start, run) == j.sys
    ensures Continues(g, start, run, SendsOn(j.net.bootstrap, item), Hear(j, item).sys)
    ensures Hear(j, item).net.bootstrap == j.net.bootstrap
  {
    hide React, MessagesOn, HeardOn, Execute, Feasible;
    if item.Link? {
      SendsContinue(g, start, run, j.net.bootstrap, item.input);
    } else {
      assert run + [] == run;
    }
  }

  /** Whatever the network actor and the sessions do, the discovery actor's side of a joint
      run is one of its own runs, so every law of those runs holds here. */
  lemma {:induction false} JointIsARun(g: Setting, start: Joint, run: seq<JointStep>)
    requires JointScenario(g, start, run)
    ensures var steps := Projected(start.net.bootstrap, run);
            && Scenario(g, start.sys, steps) && Execute(g, start.sys, steps) == ExecuteJoint(g, start, run).sys
            && ExecuteJoint(g, start, run).net.bootstrap == start.net.bootstrap
  {
    if run != [] {
      var front, s := run[..|run| - 1], run[|run| - 1];
      JointIsARun(g, start, front);
      var j := ExecuteJoint(g, start, front);
      var steps := Projected(start.net.bootstrap, front);
      StepContinues(g, start.sys, steps, j, s);
    }
  }

  lemma StepContinues(g: Setting, start: System, steps: seq<Step>, j: Joint, s: JointStep)
    requires Feasible(g, start, steps) && Execute(g, start, steps) == j.sys && JointEnabled(g, j, s)
    ensures Continues(g, start, steps, (if s.Take? then [s.step] else []) + SendsOf(j.net.bootstrap, s.items),
            ApplyJoint(g, j, s).sys)
    ensures ApplyJoint(g, j, s).net.bootstrap == j.net.bootstrap
  {
    hide Execute, Feasible, Apply, Enabled;
    var sends := SendsOf(j.net.bootstrap, s.items);
    if s.Take? {
      Extend(g, start, steps, s.step);
      ItemsContinue(g, start, steps + [s.step], j.(sys := Apply(g, j.sys, s.step)), s.items);
      ContinueOn(g, start, steps, [s.step], sends, ApplyJoint(g, j, s).sys);
    } else {
      ItemsContinue(g, start, steps, j, s.items);
      assert [] + sends == sends;
    }
  }

  // ---------- what the view shows ----------

  predicate AnnouncesExit(e: Event, port: Port) {
    e.ActiveDestination? && e.port == port
  }

  /** The exit shown after more events, and how often it was announced in them. */
  function ShownBy(was: Option<PeerId>, events: seq<Event>, port: Port): Option<PeerId> {
    if events == [] then was
    else
      var e := events[|events| - 1];
      if AnnouncesExit(e, port) then e.peer else ShownBy(was, events[..|events| - 1], port)
  }

  function Announcements(events: seq<Event>, port: Port): nat {
    if events == [] then 0
    else Announcements(events[..|events| - 1], port) + if AnnouncesExit(events[|events| - 1], port) then 1 else 0
  }

  lemma {:induction false} ShownAlong(was: Option<PeerId>, xs: seq<Event>, ys: seq<Event>, port: Port)
    ensures ShownBy(was, xs + ys, port) == ShownBy(ShownBy(was, xs, port), ys, port)
    ensures Announcements(xs + ys, port) == Announcements(xs, port) + Announcements(ys, port)
    decreases |ys|
  {
    if ys == [] {
      assert xs + ys == xs;
    } else {
      assert (xs + ys)[..|xs + ys| - 1] == xs + ys[..|ys| - 1];
      ShownAlong(was, xs, ys[..|ys| - 1], port);
    }
  }

  function Flat(shown: Option<Option<PeerId>>): Option<PeerId> {
    if shown.Some? then shown.value else None
  }

  lemma {:induction false} EmittedHistory(t: Trace, port: Port)
    ensures ShownBy(None, Emitted(t), port) == Flat(HistoryOf(t, port).shown)
    ensures Announcements(Emitted(t), port) == HistoryOf(t, port).shows
  {
    if t != [] {
      EmittedHistory(t[..|t| - 1], port);
      var front := Emitted(t[..|t| - 1]);
      if t[|t| - 1].Emitting? {
        assert (front + [t[|t| - 1].event])[..|front|] == front;
      } else {
        assert front + [] == front;
      }
    }
  }

  /** What a step emits is what its trace adds to the port's history. */
  lemma EmissionsAdvance(t: Trace, u: Trace, events: seq<Event>, port: Port)
    requires Emitted(u) == Emitted(t) + events
    ensures Flat(HistoryOf(u, port).shown) == ShownBy(Flat(HistoryOf(t, port).shown), events, port)
    ensures HistoryOf(u, port).shows == HistoryOf(t, port).shows + Announcements(events, port)
  {
    EmittedHistory(t, port);
    EmittedHistory(u, port);
    ShownAlong(None, Emitted(t), events, port);
  }

  /** The view shows the announced exit, or shows none because that exit disconnected and
      the discovery actor has yet to hear of it. `late` is a peer of whose end it is just
      being told. */
  ghost predicate Tracks(j: Joint, port: Port, shown: Option<PeerId>, late: Option<PeerId>) {
    var seen := ActiveAt(ViewOf(j), port);
    && LastShown(j.heard, port) == shown
    && (seen == shown || (seen == None && shown.Some? && (PeerClosed(shown.value) in j.sys.queue || shown == late)))
  }

  lemma Heard(j: Joint, e: UiEvent, port: Port)
    ensures var heard := j.heard + [e];
            && ActiveAt(ReduceAll(BLANK_UI, heard), port) == DueAfter(ActiveAt(ViewOf(j), port), e, port)
            && LastShown(heard, port) == if Announces(e, port) then e.event.peer else LastShown(j.heard, port)
  {
    assert (j.heard + [e])[..|j.heard|] == j.heard;
    ActiveAfter(ViewOf(j), e, port);
  }

  lemma LinkKeeps(j: Joint, input: NetInput, port: Port, shown: Option<PeerId>, late: Option<PeerId>)
    requires Tracks(j, port, shown, late)
    ensures Tracks(Hear(j, Link(input)), port, shown, late)
  {
    hide React, ReduceAll, LastShown, ActiveAt, HeardOn, MessagesOn;
    var after := Hear(j, Link(input));
    HeardExactly(j, input);
    assert forall m :: m in j.sys.queue ==> m in after.sys.queue;
    match input
    case Established(peer, address, relayed) =>
      var mid := j.(heard := j.heard + [PeerUp(peer)]);
      Heard(j, PeerUp(peer), port);
      Heard(mid, PeerRoute(peer, address, relayed), port);
    case Closed(peer) =>
      Heard(j, PeerDown(peer), port);
      assert PeerClosed(peer) in after.sys.queue;
    case _ =>
  }

  lemma HeardExactly(j: Joint, input: NetInput)
    ensures j.heard + HeardOn(input)
            == match input
               case Established(peer, address, relayed) => j.heard + [PeerUp(peer)]
                 + [PeerRoute(peer, address, relayed)]
               case Closed(peer) => j.heard + [PeerDown(peer)]
               case _ => j.heard
    ensures input.Closed? ==> PeerClosed(input.peer) in multiset(MessagesOn(j.net.bootstrap, input))
  {
    if input.Closed? { assert MessagesOn(j.net.bootstrap, input)[0] == PeerClosed(input.peer); }
  }

  lemma HearKeeps(j: Joint, item: Item, port: Port, shown: Option<PeerId>, late: Option<PeerId>)
    requires Tracks(j, port, shown, late) && (item.Overheard? ==> Foreign(item.other))
    ensures var announced := item.Own? && item.act.Emitting? && AnnouncesExit(item.act.event, port);
            Tracks(Hear(j, item), port, if announced then item.act.event.peer else shown,
                   if announced then None else late)
  {
    hide ReduceAll, LastShown, ActiveAt;
    match item
    case Own(act) => if act.Emitting? { Heard(j, Protocol(act.event), port); }
    case Overheard(e) => Heard(j, e, port);
    case Link(input) => LinkKeeps(j, input, port, shown, late);
  }

  lemma OwnedSnoc(items: seq<Item>)
    requires items != []
    ensures var front, item := items[..|items| - 1], items[|items| - 1];
            Owned(items) == Owned(front) + (if item.Own? && item.act.Emitting? then [item.act.event] else [])
  {
    var front, item := items[..|items| - 1], items[|items| - 1];
    if item.Own? {
      assert (Acted(front) + [item.act])[..|Acted(front)|] == Acted(front);
    } else {
      assert Acted(front) + [] == Acted(front);
    }
  }

  lemma {:induction false} EmittedAlong(t: Trace, u: Trace)
    ensures Emitted(t + u) == Emitted(t) + Emitted(u)
    decreases |u|
  {
    if u == [] {
      assert t + u == t;
    } else {
      assert (t + u)[..|t + u| - 1] == t + u[..|u| - 1];
      EmittedAlong(t, u[..|u| - 1]);
    }
  }

  lemma {:induction false} HearAllKeeps(j: Joint, items: seq<Item>, port: Port, shown: Option<PeerId>,
                                        late: Option<PeerId>)
    requires Tracks(j, port, shown, late)
    requires forall i :: 0 <= i < |items| && items[i].Overheard? ==> Foreign(items[i].other)
    ensures Tracks(HearAll(j, items), port, ShownBy(shown, Owned(items), port),
            if Announcements(Owned(items), port) > 0 then None else late)
    decreases |items|
  {
    hide Tracks, Hear, Foreign;
    if items != [] {
      var front, item := items[..|items| - 1], items[|items| - 1];
      HearAllKeeps(j, front, port, shown, late);
      var now, left := ShownBy(shown, Owned(front), port), if Announcements(Owned(front), port) > 0 then None else late;
      HearKeeps(HearAll(j, front), item, port, now, left);
      OwnedSnoc(items);
      if item.Own? && item.act.Emitting? {
        assert Owned(items)[..|Owned(front)|] == Owned(front);
      } else {
        assert Owned(items) == Owned(front);
      }
    }
  }

  /** The peer whose end a step tells the discovery actor of. */
  function ToldOf(step: Step): Option<PeerId> {
    if step.Deliver? && step.event.PeerClosed? then Some(step.event.peer) else None
  }

  lemma TakeOff(g: Setting, j: Joint, step: Step, port: Port, shown: Option<PeerId>)
    requires Enabled(g, j.sys, step) && Tracks(j, port, shown, None)
    ensures Tracks(j.(sys := Apply(g, j.sys, step)), port, shown, ToldOf(step))
  {
    hide Handle, ReduceAll, LastShown, ActiveAt;
  }

  /** Once it is told that the exit it serves is gone, it announces a new one. */
  lemma ToldAnnounces(g: Setting, sys: System, step: Step, server: Server)
    requires Sound(g) && WellSet(g) && HandlesMatch(g, sys.actor) && Distinct(sys.actor.store) && server in g.servers
    requires PortInv(g, sys.actor, server.port) && server.port in sys.actor.destinations
    requires var shown := Flat(HistoryOf(sys.actor.trace, server.port).shown); shown.Some? && shown == ToldOf(step)
    ensures HistoryOf(Apply(g, sys, step).actor.trace, server.port).shows > HistoryOf(sys.actor.trace,
            server.port).shows
  {
    hide Handle, HistoryOf;
    ClosedPeerEffect(g, sys.actor, step.event.peer, server);
  }

  lemma StepTracks(g: Setting, j: Joint, s: JointStep, server: Server)
    requires Sound(g) && WellSet(g) && JointEnabled(g, j, s) && server in g.servers
    requires HandlesMatch(g, j.sys.actor) && Distinct(j.sys.actor.store) && PortInv(g, j.sys.actor, server.port)
    requires Tracks(j, server.port, Flat(HistoryOf(j.sys.actor.trace, server.port).shown), None)
    ensures var next := ApplyJoint(g, j, s);
            Tracks(next, server.port, Flat(HistoryOf(next.sys.actor.trace, server.port).shown), None)
  {
    hide Tracks, HistoryOf, PortInv, WellSet, Sound, Apply, Enabled, Foreign;
    var port := server.port;
    var shown := Flat(HistoryOf(j.sys.actor.trace, port).shown);
    SameActor(ApplyJoint(g, j, Meanwhile([])), s.items);
    match s
    case Meanwhile(items) =>
      HearAllKeeps(j, items, port, shown, None);
    case Take(step, items) =>
      var mid := j.(sys := Apply(g, j.sys, step));
      SameActor(mid, items);
      TakeOff(g, j, step, port, shown);
      HearAllKeeps(mid, items, port, shown, ToldOf(step));
      EmittedAlong(j.sys.actor.trace, Acted(items));
      EmissionsAdvance(j.sys.actor.trace, mid.sys.actor.trace, Owned(items), port);
      if shown.Some? && shown == ToldOf(step) {
        assert server.port in j.sys.actor.destinations;
        ToldAnnounces(g, j.sys, step, server);
      }
      NobodyLate(HearAll(mid, items), port, ShownBy(shown, Owned(items), port), shown, ToldOf(step), Owned(items));
  }

  lemma NobodyLate(j: Joint, port: Port, now: Option<PeerId>, shown: Option<PeerId>, told: Option<PeerId>,
                   events: seq<Event>)
    requires Tracks(j, port, now, if Announcements(events, port) > 0 then None else told)
    requires now == ShownBy(shown, events, port)
    requires shown.Some? && shown == told ==> Announcements(events, port) > 0
    ensures Tracks(j, port, now, None)
  {
    if Announcements(events, port) == 0 { NothingAnnounced(shown, events, port); }
  }

  lemma {:induction false} NothingAnnounced(was: Option<PeerId>, events: seq<Event>, port: Port)
    requires Announcements(events, port) == 0
    ensures ShownBy(was, events, port) == was
  {
    if events != [] { NothingAnnounced(was, events[..|events| - 1], port); }
  }

  lemma {:induction false} SameActor(j: Joint, items: seq<Item>)
    ensures HearAll(j, items).sys.actor == j.sys.actor
  {
    if items != [] { SameActor(j, items[..|items| - 1]); }
  }

  lemma {:induction false} RunTracks(g: Setting, start: Joint, run: seq<JointStep>, server: Server)
    requires JointScenario(g, start, run) && server in g.servers
    ensures var j := ExecuteJoint(g, start, run);
            Tracks(j, server.port, Flat(HistoryOf(j.sys.actor.trace, server.port).shown), None)
  {
    if run != [] {
      var front := run[..|run| - 1];
      RunTracks(g, start, front, server);
      JointIsARun(g, start, front);
      var steps := Projected(start.net.bootstrap, front);
      RunKeepsPools(g, start.sys, steps);
      RunKeepsPorts(g, start.sys, steps, server.port);
      StepTracks(g, ExecuteJoint(g, start, front), run[|run| - 1], server);
    }
  }

  /** Over every joint run, for every port: the view shows exactly the peer its handle
      holds, or it shows none because that peer has disconnected and the message saying
      so still awaits the discovery actor. It differs from the handle if and only if the
      peer last announced has disconnected since. What it shows it also lists. */
  lemma ViewTracksTheHandle(g: Setting, start: Joint, run: seq<JointStep>, server: Server)
    requires JointScenario(g, start, run) && server in g.servers
    ensures var j := ExecuteJoint(g, start, run);
            var port, view := server.port, ViewOf(j);
            && port in j.sys.actor.destinations
            && var held, seen := j.sys.actor.destinations[port], ActiveAt(view, port);
            && (seen == held || (seen == None && held.Some? && PeerClosed(held.value) in j.sys.queue))
            && (seen == held <==> !DroppedSince(j.heard, port))
            && (seen.Some? ==> seen.value in OrderedPool(view, port))
  {
    var j := ExecuteJoint(g, start, run);
    JointIsARun(g, start, run);
    RunKeepsPorts(g, start.sys, Projected(start.net.bootstrap, run), server.port);
    RunTracks(g, start, run, server);
    ViewIsExact(j.heard, server.port);
    ActiveIsListed(j.heard, server.port);
    assert server.port in j.sys.actor.destinations;
  }
}

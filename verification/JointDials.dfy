/** Joint runs whose dials and connection tests are answered by the network actor of that
    very run: every exit is a peer whose link the view has heard come up. */
module JointDials {
  import opened Wrappers
  import opened Selection
  import opened Config
  import opened NetworkActors
  import opened Environments
  import opened ConnectSpec
  import opened DiscoverySpec
  import opened Histories
  import opened Runs
  import opened Tui
  import opened JointRuns
  import opened ReachedExits
  import DialLaws

  // ---------- the answers come from the run's own queue ----------

  /** The joint state just before item i. */
  function Before(j: Joint, items: seq<Item>, i: nat): Joint
    requires i <= |items|
  {
    HearAll(j, items[..i])
  }

  lemma OneMore(j: Joint, items: seq<Item>, i: nat)
    requires i < |items|
    ensures Before(j, items, i + 1) == Hear(Before(j, items, i), items[i])
  {
    assert items[..i + 1][..i] == items[..i];
  }

  /** The reply channel is new to the network actor. */
  ghost predicate Unused(n: NetState, reply: ReplyId) {
    && (forall x :: x in n.sent ==> x.reply != reply)
    && (forall d :: d in n.pending ==> d.reply != reply)
  }

  predicate DialsOn(item: Item, reply: ReplyId) {
    item.Link? && item.input.Dial? && item.input.reply == reply
  }

  /** Act i is a dial that the network actor took at k, on a channel of its own, and what the
      discovery actor is told is what was sent on that channel since. */
  ghost predicate AnsweredFrom(j: Joint, items: seq<Item>, k: nat, i: nat, reply: ReplyId) {
    && k < i < |items| && items[i].Own? && items[i].act.Dialling?
    && DialsOn(items[k], reply) && items[k].input.addresses == items[i].act.addresses
    && (forall m :: k < m < i ==> !items[m].Own? && !DialsOn(items[m], reply))
    && Unused(Before(j, items, k).net, reply)
    && (items[i].act.reached.Ok? ==> Sent(reply, items[i].act.reached.value) in Before(j, items, i).net.sent)
  }

  predicate IsDial(item: Item) {
    item.Own? && item.act.Dialling?
  }

  ghost predicate DialsAnswered(j: Joint, items: seq<Item>) {
    forall i: nat :: i < |items| && IsDial(items[i]) ==>
      exists k: nat, reply: ReplyId :: AnsweredFrom(j, items, k, i, reply)
  }

  /** The peer has more links that came up than went down. */
  ghost predicate Linked(n: NetState, peer: PeerId) {
    multiset(n.reports)[LinkUp(peer)] > multiset(n.reports)[LinkDown(peer)]
  }

  predicate FindsConnected(item: Item, peer: PeerId) {
    item.Own? && item.act == AskingConnected(peer, true)
  }

  ghost predicate TestsAnswered(j: Joint, items: seq<Item>) {
    forall i: nat, peer :: i < |items| && FindsConnected(items[i], peer) ==> Linked(Before(j, items, i).net, peer)
  }

  /** Dials and tests are answered by this run's network actor, and nobody else reports a
      connection. */
  ghost predicate Genuine(g: Setting, j: Joint, s: JointStep) {
    s.Take? ==>
      && (s.step.Send? ==> !s.step.event.PeerConnected?)
      && DialsAnswered(j.(sys := Apply(g, j.sys, s.step)), s.items)
      && TestsAnswered(j.(sys := Apply(g, j.sys, s.step)), s.items)
  }

  ghost predicate AllGenuine(g: Setting, start: Joint, run: seq<JointStep>) {
    run != [] ==>
      && AllGenuine(g, start, run[..|run| - 1])
      && Genuine(g, ExecuteJoint(g, start, run[..|run| - 1]), run[|run| - 1])
  }

  // ---------- an answered dial has its link ----------

  predicate ComesUp(item: Item, peer: PeerId) {
    item.Link? && item.input.Established? && item.input.peer == peer
  }

  ghost predicate CameUpIn(items: seq<Item>, from: nat, to: nat, peer: PeerId) {
    exists l: nat :: from <= l < to && l < |items| && ComesUp(items[l], peer)
  }

  lemma {:induction false} RepliesMembers(dials: seq<PendingDial>, answer: Option<PeerId>, x: Sent)
    requires x in Replies(dials, answer)
    ensures exists d :: d in dials && x == Sent(d.reply, answer)
  {
    if x == Sent(dials[0].reply, answer) {
      assert dials[0] in dials;
    } else {
      RepliesMembers(dials[1..], answer, x);
    }
  }

  /** The dials on this channel are for these targets. */
  ghost predicate WaitsFor(n: NetState, reply: ReplyId, targets: set<PeerId>) {
    forall d :: d in n.pending && d.reply == reply ==> d.candidates == targets
  }

  lemma SettleAnswers(n: NetState, e: NetInput, reply: ReplyId, targets: set<PeerId>, peer: PeerId)
    requires WaitsFor(n, reply, targets)
    ensures WaitsFor(Settle(n, e), reply, targets)
    ensures Sent(reply, Some(peer)) in Settle(n, e).sent ==>
              Sent(reply, Some(peer)) in n.sent || (e.Established? && e.peer == peer && peer in targets)
  {
    var swept := Sweep(n.pending, 0, e);
    DialLaws.SweepIsExact(n.pending, e);
    assert multiset(n.pending) == multiset(swept.kept) + multiset(swept.removed);
    forall d | d in swept.kept ensures d in n.pending { assert d in multiset(n.pending); }
    forall d | d in swept.removed ensures d in n.pending { assert d in multiset(n.pending); }
    if Sent(reply, Some(peer)) in Replies(swept.removed, AnswerOf(e)) {
      RepliesMembers(swept.removed, AnswerOf(e), Sent(reply, Some(peer)));
      var d :| d in swept.removed && Sent(reply, Some(peer)) == Sent(d.reply, AnswerOf(e));
      var k: nat :| k < |swept.removed| && swept.removed[k] == d;
      assert Settles(e, swept.removed[k]);
    }
  }

  lemma ReactAnswers(n: NetState, e: NetInput, reply: ReplyId, targets: set<PeerId>, peer: PeerId)
    requires WaitsFor(n, reply, targets) && !(e.Dial? && e.reply == reply)
    ensures WaitsFor(React(n, e), reply, targets)
    ensures Sent(reply, Some(peer)) in React(n, e).sent ==>
              Sent(reply, Some(peer)) in n.sent || (e.Established? && e.peer == peer && peer in targets)
  {
    hide Sweep, Settle;
    if e.Established? || e.ExpireDials? { SettleAnswers(n, e, reply, targets, peer); }
  }

  lemma DialStarts(n: NetState, e: NetInput, peer: PeerId)
    requires e.Dial? && Unused(n, e.reply)
    ensures WaitsFor(React(n, e), e.reply, DestinationPeerIds(e.addresses))
    ensures Sent(e.reply, Some(peer)) !in React(n, e).sent
  {
    hide Sweep;
  }

  lemma {:induction false} AnswerSoFar(j: Joint, items: seq<Item>, k: nat, i: nat, m: nat, reply: ReplyId, peer: PeerId)
    requires AnsweredFrom(j, items, k, i, reply) && k < m <= i
    ensures var n := Before(j, items, m).net;
            var targets := DestinationPeerIds(items[i].act.addresses);
            && WaitsFor(n, reply, targets)
            && (Sent(reply, Some(peer)) in n.sent ==> peer in targets && CameUpIn(items, k + 1, m, peer))
  {
    hide React, HearAll, DestinationPeerIds, Unused;
    OneMore(j, items, m - 1);
    if m == k + 1 {
      DialStarts(Before(j, items, k).net, items[k].input, peer);
    } else {
      AnswerSoFar(j, items, k, i, m - 1, reply, peer);
      if items[m - 1].Link? {
        ReactAnswers(Before(j, items, m - 1).net, items[m - 1].input, reply,
          DestinationPeerIds(items[i].act.addresses), peer);
      }
    }
  }

  /** A dial that reached somebody reached one of its targets, and that peer's link came up
      after the dial was begun and before it was answered. No contract on the dialer is
      used: the answer is the queue's own. */
  lemma AnsweredDialHasLink(j: Joint, items: seq<Item>, k: nat, i: nat, reply: ReplyId, peer: PeerId)
    requires AnsweredFrom(j, items, k, i, reply) && items[i].act.reached == Ok(Some(peer))
    ensures peer in DestinationPeerIds(items[i].act.addresses) && CameUpIn(items, k + 1, i, peer)
  {
    AnswerSoFar(j, items, k, i, i, reply, peer);
  }

  // ---------- acts and items ----------

  lemma {:induction false} ActedAlong(items: seq<Item>, i: nat)
    requires i <= |items|
    ensures Acted(items[..i]) <= Acted(items)
    ensures i < |items| && items[i].Own? ==>
            |Acted(items[..i])| < |Acted(items)| && Acted(items)[|Acted(items[..i])|] == items[i].act
    decreases |items|
  {
    if i < |items| {
      var front := items[..|items| - 1];
      ActedAlong(front, if i < |front| then i else |front|);
      assert front[..if i < |front| then i else |front|] == items[..i];
    } else {
      assert items[..i] == items;
    }
  }

  lemma {:induction false} ItemOfAct(items: seq<Item>, n: nat) returns (i: nat)
    requires n < |Acted(items)|
    ensures i < |items| && items[i] == Own(Acted(items)[n]) && |Acted(items[..i])| == n
    decreases |items|
  {
    var front := items[..|items| - 1];
    if n < |Acted(front)| {
      i := ItemOfAct(front, n);
      assert front[..i] == items[..i];
    } else {
      i := |items| - 1;
    }
  }

  lemma EarlierItem(items: seq<Item>, i: nat, m: nat)
    requires i < |items| && m < |items| && |Acted(items[..m])| < |Acted(items[..i])|
    ensures m < i
  {
    if i <= m {
      assert items[..m][..i] == items[..i];
      ActedAlong(items[..m], i);
    }
  }

  // ---------- an exit announced in a step ----------

  predicate AnnouncesOf(item: Item, peer: PeerId) {
    item.Own? && Announcement(item.act) && item.act.event.peer == Some(peer)
  }

  /** Before item i the peer's link came up in this step, or, for a pin, the peer was found
      connected in it. */
  ghost predicate Vouched(items: seq<Item>, i: nat, peer: PeerId, pinned: bool) {
    CameUpIn(items, 0, i, peer) || (pinned && exists m: nat :: m < i && m < |items| && FindsConnected(items[m], peer))
  }

  lemma ReachVouches(j: Joint, items: seq<Item>, i: nat, m: nat, peer: PeerId, pinned: bool)
    requires DialsAnswered(j, items) && m < i < |items| && items[m].Own? && Reaches(items[m].act, peer, pinned)
    ensures Vouched(items, i, peer, pinned)
  {
    hide AnsweredFrom, HearAll;
    if items[m].act.Dialling? && Reached(items[m].act.reached) == Some(peer) {
      assert IsDial(items[m]);
      var k: nat, reply: ReplyId :| AnsweredFrom(j, items, k, m, reply);
      AnsweredDialHasLink(j, items, k, m, reply, peer);
      var l: nat :| k + 1 <= l < m && l < |items| && ComesUp(items[l], peer);
      assert CameUpIn(items, 0, i, peer);
    } else {
      assert FindsConnected(items[m], peer);
    }
  }

  /** Every exit that an event announces, unless the event is a direct connection, was
      dialled in that event and its link came up during that dial; or it is a pin found
      connected in that event. Reused, discovered and picked exits are always dialled. */
  lemma AnnouncedExitHasLink(g: Setting, j: Joint, e: DiscoveryEvent, items: seq<Item>, i: nat, peer: PeerId)
    requires Lossless(g, j, Take(Deliver(e), items)) && Genuine(g, j, Take(Deliver(e), items))
    requires (e.PeerConnected? ==> e.relayed) && i < |items| && AnnouncesOf(items[i], peer)
    ensures items[i].act.event.source.Some?
    ensures Vouched(items, i, peer, items[i].act.event.source.value.Pinned?)
  {
    var t, u := j.sys.actor.trace, Handle(g, j.sys.actor, e).trace;
    HandleGrounded(g, j.sys.actor, e);
    hide Handle, ReachedIn, DialsAnswered, TestsAnswered;
    assert u == t + Acted(items);
    ActedAlong(items, i);
    var n := |Acted(items[..i])|;
    assert u[|t| + n] == items[i].act;
    var source := items[i].act.event.source.value;
    assert ExitAt(u, |t| + n, peer, source);
    TraceVouches(j.(sys := Apply(g, j.sys, Deliver(e))), t, items, i, peer, source.Pinned?);
  }

  lemma TraceVouches(j: Joint, t: Trace, items: seq<Item>, i: nat, peer: PeerId, pinned: bool)
    requires DialsAnswered(j, items) && i < |items| && items[i].Own?
    requires |t| + |Acted(items[..i])| <= |t + Acted(items)|
    requires ReachedIn(t, (t + Acted(items))[..|t| + |Acted(items[..i])|], peer, pinned)
    ensures Vouched(items, i, peer, pinned)
  {
    hide DialsAnswered;
    var u := (t + Acted(items))[..|t| + |Acted(items[..i])|];
    var k :| |t| <= k < |u| && Reaches(u[k], peer, pinned);
    var m := ItemOfAct(items, k - |t|);
    EarlierItem(items, i, m);
    assert u[k] == Acted(items)[k - |t|];
    ReachVouches(j, items, i, m, peer, pinned);
  }

  // ---------- what the view has heard ----------

  /** Whoever the network actor linked, or told the discovery actor of, the view heard of. */
  ghost predicate LinksHeard(j: Joint) {
    && (forall peer :: LinkUp(peer) in j.net.reports ==> PeerUp(peer) in j.heard)
    && (forall e :: e in j.sys.queue && e.PeerConnected? ==> PeerUp(e.peer) in j.heard)
  }

  lemma ItemHeard(j: Joint, item: Item)
    requires LinksHeard(j)
    ensures LinksHeard(Hear(j, item)) && j.heard <= Hear(j, item).heard
    ensures forall peer :: ComesUp(item, peer) ==> PeerUp(peer) in Hear(j, item).heard
  {
    if item.Link? { LinkHeard(j, item.input); }
  }

  lemma LinkHeard(j: Joint, input: NetInput)
    requires LinksHeard(j)
    ensures LinksHeard(Hear(j, Link(input))) && j.heard <= Hear(j, Link(input)).heard
    ensures input.Established? ==> PeerUp(input.peer) in Hear(j, Link(input)).heard
  {
    var after := Hear(j, Link(input));
    ReportsGrow(j.net, input);
    HeardExactly(j, input);
    if input.Established? {
      assert (j.heard + [PeerUp(input.peer)] + [PeerRoute(input.peer, input.address, input.relayed)])[|j.heard|]
             == PeerUp(input.peer);
    }
    hide React, HeardOn;
    assert forall x :: x in j.heard ==> x in after.heard;
    forall e | e in after.sys.queue && e.PeerConnected? ensures PeerUp(e.peer) in after.heard {
      if e !in j.sys.queue {
        assert e in multiset(MessagesOn(j.net.bootstrap, input));
        assert e in MessagesOn(j.net.bootstrap, input);
      }
    }
  }

  lemma ReportsGrow(n: NetState, input: NetInput)
    ensures React(n, input).reports == n.reports + ReportsOf(input)
  {
    hide Sweep, Replies;
  }

  lemma {:induction false} ItemsHeard(j: Joint, items: seq<Item>)
    requires LinksHeard(j)
    ensures LinksHeard(HearAll(j, items)) && j.heard <= HearAll(j, items).heard
    ensures forall peer :: CameUpIn(items, 0, |items|, peer) ==> PeerUp(peer) in HearAll(j, items).heard
    decreases |items|
  {
    if items != [] {
      var front, item := items[..|items| - 1], items[|items| - 1];
      ItemsHeard(j, front);
      ItemHeard(HearAll(j, front), item);
      hide Hear, LinksHeard;
      assert forall x :: x in HearAll(j, front).heard ==> x in HearAll(j, items).heard;
      forall peer | CameUpIn(items, 0, |items|, peer) ensures PeerUp(peer) in HearAll(j, items).heard {
        var l: nat :| l < |items| && ComesUp(items[l], peer);
        if l < |front| { assert front[l] == items[l] && CameUpIn(front, 0, |front|, peer); }
      }
    }
  }

  lemma SplitItems(j: Joint, items: seq<Item>, i: nat)
    requires i <= |items| && LinksHeard(j)
    ensures LinksHeard(Before(j, items, i)) && Before(j, items, i).heard <= HearAll(j, items).heard
    decreases |items| - i
  {
    if i == |items| {
      assert items[..i] == items;
      ItemsHeard(j, items);
    } else {
      SplitItems(j, items, i + 1);
      ItemsHeard(j, items[..i]);
      OneMore(j, items, i);
      ItemHeard(Before(j, items, i), items[i]);
    }
  }

  /** Whoever is vouched for in a step was heard by the view before the item in question. */
  lemma VouchedIsHeard(j: Joint, items: seq<Item>, i: nat, peer: PeerId, pinned: bool)
    requires LinksHeard(j) && TestsAnswered(j, items) && i <= |items| && Vouched(items, i, peer, pinned)
    ensures PeerUp(peer) in Before(j, items, i).heard
  {
    hide Hear;
    var before := items[..i];
    ItemsHeard(j, before);
    if CameUpIn(items, 0, i, peer) {
      var l: nat :| l < i && l < |items| && ComesUp(items[l], peer);
      assert before[l] == items[l] && CameUpIn(before, 0, |before|, peer);
    } else {
      var m: nat :| m < i && m < |items| && FindsConnected(items[m], peer);
      assert Linked(Before(j, items, m).net, peer);
      assert LinkUp(peer) in multiset(Before(j, items, m).net.reports);
      assert before[..m] == items[..m];
      SplitItems(j, before, m);
      ItemsHeard(j, items[..m]);
      assert PeerUp(peer) in Before(j, items, m).heard;
    }
  }

  // ---------- every exit was up ----------

  /** What the discovery actor serves on the port, the view has heard come up. */
  ghost predicate ExitHeard(j: Joint, port: Port) {
    var shown := Flat(HistoryOf(j.sys.actor.trace, port).shown);
    shown.Some? ==> PeerUp(shown.value) in j.heard
  }

  /** The exit shown at the end was shown at the start, or announced in between. */
  lemma {:induction false} ShownSince(t: Trace, u: Trace, port: Port)
    requires t <= u
    ensures var shown := Flat(HistoryOf(u, port).shown);
            shown.Some? ==>
              shown == Flat(HistoryOf(t, port).shown)
              || exists k :: |t| <= k < |u| && Announcement(u[k]) && u[k].event.peer == shown
    decreases |u|
  {
    if |t| < |u| {
      var v := u[..|u| - 1];
      ShownSince(t, v, port);
      var shown := Flat(HistoryOf(v, port).shown);
      if k :| |t| <= k < |v| && Announcement(v[k]) && v[k].event.peer == shown { assert u[k] == v[k]; }
      assert HistoryOf(u, port) == Advance(HistoryOf(v, port), u[|u| - 1], port);
    } else {
      assert t == u;
    }
  }

  lemma AnnouncedIsHeard(g: Setting, j: Joint, e: DiscoveryEvent, items: seq<Item>, i: nat, peer: PeerId)
    requires Lossless(g, j, Take(Deliver(e), items)) && Genuine(g, j, Take(Deliver(e), items))
    requires LinksHeard(j) && e in j.sys.queue && i < |items| && AnnouncesOf(items[i], peer)
    ensures PeerUp(peer) in ApplyJoint(g, j, Take(Deliver(e), items)).heard
  {
    var mid := j.(sys := Apply(g, j.sys, Deliver(e)));
    assert LinksHeard(mid);
    SplitItems(mid, items, i);
    if e.PeerConnected? && !e.relayed {
      ConnectedAnnounces(g, j.sys.actor, e.peer, e.address);
      hide Handle, HearAll;
      ActedAlong(items, i);
      assert Handle(g, j.sys.actor, e).trace[|j.sys.actor.trace| + |Acted(items[..i])|] == items[i].act;
      assert PeerUp(peer) in j.heard;
      ItemsHeard(mid, items);
    } else {
      AnnouncedExitHasLink(g, j, e, items, i, peer);
      hide Handle, HearAll;
      VouchedIsHeard(mid, items, i, peer, items[i].act.event.source.value.Pinned?);
    }
  }

  lemma DeliveryHeard(g: Setting, j: Joint, e: DiscoveryEvent, items: seq<Item>, port: Port)
    requires Lossless(g, j, Take(Deliver(e), items)) && Genuine(g, j, Take(Deliver(e), items))
    requires LinksHeard(j) && e in j.sys.queue && ExitHeard(j, port)
    ensures ExitHeard(ApplyJoint(g, j, Take(Deliver(e), items)), port)
  {
    var s := Take(Deliver(e), items);
    var mid, after := j.(sys := Apply(g, j.sys, Deliver(e))), ApplyJoint(g, j, s);
    SameActor(mid, items);
    assert LinksHeard(mid);
    ItemsHeard(mid, items);
    hide Handle, HearAll, Genuine, HistoryOf;
    var t, u := j.sys.actor.trace, after.sys.actor.trace;
    assert u == t + Acted(items);
    ShownSince(t, u, port);
    var shown := Flat(HistoryOf(u, port).shown);
    if shown.Some? && shown != Flat(HistoryOf(t, port).shown) {
      var k :| |t| <= k < |u| && Announcement(u[k]) && u[k].event.peer == shown;
      var i := ItemOfAct(items, k - |t|);
      AnnouncedIsHeard(g, j, e, items, i, shown.value);
    }
  }

  lemma StepHeard(g: Setting, j: Joint, s: JointStep, port: Port)
    requires JointEnabled(g, j, s) && Genuine(g, j, s) && LinksHeard(j) && ExitHeard(j, port)
    ensures LinksHeard(ApplyJoint(g, j, s)) && ExitHeard(ApplyJoint(g, j, s), port)
  {
    hide Handle, HearAll, HistoryOf, DialsAnswered, TestsAnswered;
    match s
    case Meanwhile(items) =>
      ItemsHeard(j, items);
      SameActor(j, items);
    case Take(step, items) =>
      var mid := j.(sys := Apply(g, j.sys, step));
      assert LinksHeard(mid);
      ItemsHeard(mid, items);
      SameActor(mid, items);
      if step.Deliver? { DeliveryHeard(g, j, step.event, items, port); } else { ExitKept(g, j, step, mid, port); }
  }

  lemma ExitKept(g: Setting, j: Joint, step: Step, mid: Joint, port: Port)
    requires !step.Deliver? && mid == j.(sys := Apply(g, j.sys, step))
    ensures HistoryOf(mid.sys.actor.trace, port).shown == HistoryOf(j.sys.actor.trace, port).shown
  {
    if step.Tick? { Snoc(j.sys.actor.trace, ReadingClock(g.net.now(j.sys.actor.trace)), port); }
  }

  lemma {:induction false} RunHeard(g: Setting, start: Joint, run: seq<JointStep>, port: Port)
    requires JointScenario(g, start, run) && AllGenuine(g, start, run)
    ensures LinksHeard(ExecuteJoint(g, start, run)) && ExitHeard(ExecuteJoint(g, start, run), port)
  {
    if run != [] {
      RunHeard(g, start, run[..|run| - 1], port);
      StepHeard(g, ExecuteJoint(g, start, run[..|run| - 1]), run[|run| - 1], port);
    }
  }

  /** Over every joint run whose dials and tests its own network actor answers: whatever a
      handle holds, by reuse, discovery, pick, pin or rotation, is a peer whose link came up
      in that run, and the view has heard so. */
  lemma EveryExitWasUp(g: Setting, start: Joint, run: seq<JointStep>, server: Server)
    requires JointScenario(g, start, run) && AllGenuine(g, start, run) && server in g.servers
    ensures var j := ExecuteJoint(g, start, run);
            && server.port in j.sys.actor.destinations
            && var held := j.sys.actor.destinations[server.port];
            held.Some? ==> PeerUp(held.value) in j.heard
  {
    RunHeard(g, start, run, server.port);
    JointIsARun(g, start, run);
    RunKeepsPorts(g, start.sys, Projected(start.net.bootstrap, run), server.port);
    assert server.port in ExecuteJoint(g, start, run).sys.actor.destinations;
  }
}

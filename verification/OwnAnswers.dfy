/** A step of the discovery actor can be answered by the network actor of its own run
    exactly when its dials keep the dialer contract: that tie costs no run. */
module OwnAnswers {
  import opened Wrappers
  import opened Selection
  import opened NetworkActors
  import opened Environments
  import opened DiscoverySpec
  import opened Runs
  import opened JointRuns
  import opened JointDials
  import opened ReachedExits
  import DialLaws

  // ---------- a channel that is still free ----------

  function Max(a: nat, b: nat): nat {
    if a >= b then a else b
  }

  function AboveSent(sent: seq<Sent>): nat {
    if sent == [] then 0 else Max(sent[0].reply + 1, AboveSent(sent[1..]))
  }

  function AbovePending(dials: seq<PendingDial>): nat {
    if dials == [] then 0 else Max(dials[0].reply + 1, AbovePending(dials[1..]))
  }

  lemma {:induction false} SentBelow(sent: seq<Sent>, x: Sent)
    requires x in sent
    ensures x.reply < AboveSent(sent)
  {
    if x != sent[0] { SentBelow(sent[1..], x); }
  }

  lemma {:induction false} PendingBelow(dials: seq<PendingDial>, d: PendingDial)
    requires d in dials
    ensures d.reply < AbovePending(dials)
  {
    if d != dials[0] { PendingBelow(dials[1..], d); }
  }

  function FreeReply(n: NetState): ReplyId {
    Max(AboveSent(n.sent), AbovePending(n.pending))
  }

  lemma FreeIsUnused(n: NetState)
    ensures Unused(n, FreeReply(n))
  {
    forall x | x in n.sent ensures x.reply != FreeReply(n) { SentBelow(n.sent, x); }
    forall d | d in n.pending ensures d.reply != FreeReply(n) { PendingBelow(n.pending, d); }
  }

  // ---------- what the network actor does to give an answer ----------

  /** The input that settles a dial of these targets with this answer. */
  function SettledBy(answer: Option<PeerId>): NetInput {
    if answer.Some? then Established(answer.value, [], false) else ExpireDials(DIAL_TIMEOUT)
  }

  /** One more link than ever went down. */
  function Relink(n: NetState, peer: PeerId): seq<Item> {
    seq(multiset(n.reports)[LinkDown(peer)] + 1, _ => Link(Established(peer, [], false)))
  }

  /** What precedes the act for its answer to be the network actor's own. */
  function Answering(n: NetState, act: Act): seq<Item> {
    match act
    case Dialling(addresses, reached) =>
      [Link(Dial(addresses, FreeReply(n), 0))] + (if reached.Ok? then [Link(SettledBy(reached.value))] else [])
    case AskingConnected(peer, connected) => if connected then Relink(n, peer) else []
    case _ => []
  }

  function Woven(j: Joint, acts: Trace): seq<Item> {
    if acts == [] then []
    else
      var front := Woven(j, acts[..|acts| - 1]);
      front + Answering(HearAll(j, front).net, acts[|acts| - 1]) + [Own(acts[|acts| - 1])]
  }

  // ---------- that this works ----------

  lemma {:induction false} HearAllAlong(j: Joint, xs: seq<Item>, ys: seq<Item>)
    ensures HearAll(j, xs + ys) == HearAll(HearAll(j, xs), ys)
    decreases |ys|
  {
    if ys == [] {
      assert xs + ys == xs;
    } else {
      assert (xs + ys)[..|xs + ys| - 1] == xs + ys[..|ys| - 1];
      HearAllAlong(j, xs, ys[..|ys| - 1]);
    }
  }

  lemma {:induction false} ActedConcat(xs: seq<Item>, ys: seq<Item>)
    ensures Acted(xs + ys) == Acted(xs) + Acted(ys)
    decreases |ys|
  {
    if ys == [] {
      assert xs + ys == xs;
    } else {
      assert (xs + ys)[..|xs + ys| - 1] == xs + ys[..|ys| - 1];
      ActedConcat(xs, ys[..|ys| - 1]);
    }
  }

  lemma {:induction false} NoActs(items: seq<Item>)
    requires forall i :: 0 <= i < |items| ==> !items[i].Own?
    ensures Acted(items) == []
  {
    if items != [] { NoActs(items[..|items| - 1]); }
  }

  lemma AnsweringIsOthers(n: NetState, act: Act)
    ensures AllLinks(Answering(n, act))
  {
  }

  ghost predicate AllLinks(items: seq<Item>) {
    forall i :: 0 <= i < |items| ==> items[i].Link?
  }

  ghost predicate NoneOverheard(items: seq<Item>) {
    forall i :: 0 <= i < |items| ==> !items[i].Overheard?
  }

  lemma ThenAct(front: seq<Item>, more: seq<Item>, act: Act)
    requires AllLinks(more)
    ensures Acted(front + more + [Own(act)]) == Acted(front) + [act]
    ensures NoneOverheard(front) ==> NoneOverheard(front + more + [Own(act)])
  {
    NoActs(more);
    ActedConcat(front, more);
    ActedConcat(front + more, [Own(act)]);
    assert [Own(act)][..0] == [] && Acted([Own(act)]) == Acted([]) + [act];
  }

  lemma {:induction false} WovenActs(j: Joint, acts: Trace)
    ensures Acted(Woven(j, acts)) == acts && NoneOverheard(Woven(j, acts))
  {
    if acts != [] {
      var front, last := Woven(j, acts[..|acts| - 1]), acts[|acts| - 1];
      WovenActs(j, acts[..|acts| - 1]);
      AnsweringIsOthers(HearAll(j, front).net, last);
      hide Answering, HearAll, Acted, NoneOverheard, AllLinks;
      ThenAct(front, Answering(HearAll(j, front).net, last), last);
    }
  }

  lemma {:induction false} InReplies(dials: seq<PendingDial>, d: PendingDial, answer: Option<PeerId>)
    requires d in dials
    ensures Sent(d.reply, answer) in Replies(dials, answer)
  {
    if d != dials[0] { InReplies(dials[1..], d, answer); }
  }

  /** A queued dial that the input settles has its answer sent. */
  lemma SettlingSends(n: NetState, e: NetInput, d: PendingDial)
    requires d in n.pending && Settles(e, d)
    ensures Sent(d.reply, AnswerOf(e)) in Settle(n, e).sent
  {
    var swept := Sweep(n.pending, 0, e);
    DialLaws.SweepIsExact(n.pending, e);
    assert forall x :: x in swept.kept ==> !Settles(e, x);
    assert d in multiset(n.pending) && d in multiset(swept.kept) + multiset(swept.removed);
    InReplies(swept.removed, d, AnswerOf(e));
  }

  lemma DialIsAnswered(n: NetState, addresses: set<Multiaddr>, answer: Option<PeerId>)
    requires AnswerAllowed(addresses, answer)
    ensures var reply := FreeReply(n);
            Sent(reply, answer) in React(React(n, Dial(addresses, reply, 0)), SettledBy(answer)).sent
  {
    var d, e := Dial(addresses, FreeReply(n), 0), SettledBy(answer);
    var queued := React(n, d);
    if DestinationPeerIds(addresses) != {} {
      assert DialOf(d) in queued.pending && Settles(e, DialOf(d));
      SettlingSends(queued, e, DialOf(d));
    } else {
      assert Sent(d.reply, None) in queued.sent;
    }
    hide Sweep;
    assert React(queued, e).sent == Settle(queued, e).sent;
  }

  lemma NewDialAnswered(j: Joint, front: seq<Item>, act: Act)
    requires act.Dialling? && (act.reached.Ok? ==> AnswerAllowed(act.addresses, act.reached.value))
    ensures var n := HearAll(j, front).net;
            var items := front + Answering(n, act) + [Own(act)];
            AnsweredFrom(j, items, |front|, |items| - 1, FreeReply(n))
  {
    var n := HearAll(j, front).net;
    var reply, more := FreeReply(n), Answering(n, act);
    FreeIsUnused(n);
    if act.reached.Ok? { AnswerArrives(j, front, act); }
    hide HearAll, React, FreeReply, Unused;
    var dial := Link(Dial(act.addresses, reply, 0));
    assert more == [dial] + more[1..] && |more| <= 2;
    if act.reached.Ok? { assert more[1] == Link(SettledBy(act.reached.value)); }
    Assembled(j, front, more, act, reply);
  }

  lemma Assembled(j: Joint, front: seq<Item>, more: seq<Item>, act: Act, reply: ReplyId)
    requires act.Dialling? && 1 <= |more| <= 2 && more[0] == Link(Dial(act.addresses, reply, 0))
    requires |more| == 2 ==> more[1].Link? && !more[1].input.Dial?
    requires Unused(HearAll(j, front).net, reply)
    requires act.reached.Ok? ==> Sent(reply, act.reached.value) in HearAll(j, front + more).net.sent
    ensures var items := front + more + [Own(act)]; AnsweredFrom(j, items, |front|, |items| - 1, reply)
  {
    hide HearAll, Unused;
    var items := front + more + [Own(act)];
    assert items[..|front|] == front && items[..|items| - 1] == front + more;
    assert forall m :: |front| <= m < |items| - 1 ==> items[m] == more[m - |front|];
    assert items[|items| - 1] == Own(act);
  }

  lemma AnswerArrives(j: Joint, front: seq<Item>, act: Act)
    requires act.Dialling? && act.reached.Ok? && AnswerAllowed(act.addresses, act.reached.value)
    ensures var n := HearAll(j, front).net;
            Sent(FreeReply(n), act.reached.value) in HearAll(j, front + Answering(n, act)).net.sent
  {
    var n := HearAll(j, front).net;
    var dial, settle := Dial(act.addresses, FreeReply(n), 0), SettledBy(act.reached.value);
    DialIsAnswered(n, act.addresses, act.reached.value);
    assert Answering(n, act) == [Link(dial), Link(settle)];
    hide HearAll, React, FreeReply;
    HearAllAlong(j, front, Answering(n, act));
    TwoInputs(HearAll(j, front), dial, settle);
  }

  lemma TwoInputs(j: Joint, first: NetInput, second: NetInput)
    ensures HearAll(j, [Link(first), Link(second)]).net == React(React(j.net, first), second)
  {
    hide React, HeardOn, MessagesOn;
    var items := [Link(first), Link(second)];
    assert items[..1] == [Link(first)] && [Link(first)][..0] == [];
    assert HearAll(j, [Link(first)]) == Hear(HearAll(j, []), Link(first));
  }

  lemma {:induction false} Relinked(j: Joint, peer: PeerId, k: nat)
    ensures var after := HearAll(j, seq(k, _ => Link(Established(peer, [], false))));
            && multiset(after.net.reports)[LinkUp(peer)] == multiset(j.net.reports)[LinkUp(peer)] + k
            && multiset(after.net.reports)[LinkDown(peer)] == multiset(j.net.reports)[LinkDown(peer)]
  {
    if k > 0 {
      var item := Link(Established(peer, [], false));
      var items := seq(k, _ => item);
      var before := seq(k - 1, _ => item);
      assert items[..k - 1] == before;
      Relinked(j, peer, k - 1);
      ReportsGrow(HearAll(j, before).net, item.input);
      hide React;
      var n := HearAll(j, before).net;
      assert multiset(n.reports + ReportsOf(item.input)) == multiset(n.reports) + multiset(ReportsOf(item.input));
    }
  }

  lemma NewTestAnswered(j: Joint, front: seq<Item>, peer: PeerId)
    ensures var more := Answering(HearAll(j, front).net, AskingConnected(peer, true));
            Linked(HearAll(j, front + more).net, peer)
  {
    hide HearAll;
    var n := HearAll(j, front).net;
    var k := multiset(n.reports)[LinkDown(peer)] + 1;
    HearAllAlong(j, front, Relink(n, peer));
    assert Relink(n, peer) == seq(k, _ => Link(Established(peer, [], false)));
    Relinked(HearAll(j, front), peer, k);
  }

  lemma StillAnswered(j: Joint, items: seq<Item>, more: seq<Item>, k: nat, i: nat, reply: ReplyId)
    requires AnsweredFrom(j, items, k, i, reply)
    ensures AnsweredFrom(j, items + more, k, i, reply)
  {
    hide HearAll, Unused;
    var all := items + more;
    assert all[..k] == items[..k] && all[..i] == items[..i];
    assert forall m :: 0 <= m < |items| ==> all[m] == items[m];
  }

  /** The act's reply is one the dialer contract allows. */
  predicate KeepsContract(act: Act) {
    act.Dialling? && act.reached.Ok? ==> AnswerAllowed(act.addresses, act.reached.value)
  }

  lemma {:induction false} WovenDials(j: Joint, acts: Trace)
    requires forall i :: 0 <= i < |acts| ==> KeepsContract(acts[i])
    ensures DialsAnswered(j, Woven(j, acts))
  {
    if acts != [] {
      var before, last := acts[..|acts| - 1], acts[|acts| - 1];
      assert forall i :: 0 <= i < |before| ==> before[i] == acts[i];
      assert KeepsContract(acts[|acts| - 1]);
      hide AnsweredFrom, HearAll, Answering, DialsAnswered, FreeReply;
      WovenDials(j, before);
      var front := Woven(j, before);
      var more := Answering(HearAll(j, front).net, last);
      AnsweringIsOthers(HearAll(j, front).net, last);
      if last.Dialling? { NewDialAnswered(j, front, last); }
      MoreDials(j, front, more, last, FreeReply(HearAll(j, front).net));
    }
  }

  lemma MoreDials(j: Joint, front: seq<Item>, more: seq<Item>, act: Act, reply: ReplyId)
    requires DialsAnswered(j, front) && AllLinks(more)
    requires var items := front + more + [Own(act)];
             act.Dialling? ==> AnsweredFrom(j, items, |front|, |items| - 1, reply)
    ensures DialsAnswered(j, front + more + [Own(act)])
  {
    hide AnsweredFrom;
    var items := front + more + [Own(act)];
    assert forall i :: |front| <= i < |items| - 1 ==> items[i] == more[i - |front|];
    assert items[|items| - 1] == Own(act) && items == front + (more + [Own(act)]);
    forall i: nat | i < |items| && IsDial(items[i])
      ensures exists k: nat, r: ReplyId :: AnsweredFrom(j, items, k, i, r)
    {
      if i < |front| {
        assert items[i] == front[i];
        var k: nat, r: ReplyId :| AnsweredFrom(j, front, k, i, r);
        StillAnswered(j, front, more + [Own(act)], k, i, r);
      }
    }
  }

  lemma {:induction false} WovenTests(j: Joint, acts: Trace)
    ensures TestsAnswered(j, Woven(j, acts))
  {
    if acts != [] {
      var before, last := acts[..|acts| - 1], acts[|acts| - 1];
      WovenTests(j, before);
      var front := Woven(j, before);
      var more := Answering(HearAll(j, front).net, last);
      AnsweringIsOthers(HearAll(j, front).net, last);
      if last.AskingConnected? && last.connected { NewTestAnswered(j, front, last.peer); }
      hide HearAll, Answering, Linked, TestsAnswered;
      MoreTests(j, front, more, last);
    }
  }

  lemma MoreTests(j: Joint, front: seq<Item>, more: seq<Item>, act: Act)
    requires TestsAnswered(j, front) && AllLinks(more)
    requires act.AskingConnected? && act.connected ==> Linked(HearAll(j, front + more).net, act.peer)
    ensures TestsAnswered(j, front + more + [Own(act)])
  {
    hide HearAll, Linked;
    var items := front + more + [Own(act)];
    assert forall i :: |front| <= i < |items| - 1 ==> items[i] == more[i - |front|];
    assert items[|items| - 1] == Own(act) && items[..|items| - 1] == front + more;
    forall i: nat, peer | i < |items| && FindsConnected(items[i], peer) ensures Linked(Before(j, items, i).net, peer) {
      if i < |front| {
        assert items[i] == front[i] && items[..i] == front[..i];
        assert FindsConnected(front[i], peer);
      }
    }
  }

  /** The acts that a step adds. */
  function ActsOf(g: Setting, j: Joint, step: Step): Trace {
    var t, u := j.sys.actor.trace, Apply(g, j.sys, step).actor.trace;
    if |t| <= |u| then u[|t|..] else []
  }

  lemma StepExtends(g: Setting, j: Joint, step: Step)
    ensures Apply(g, j.sys, step).actor.trace == j.sys.actor.trace + ActsOf(g, j, step)
  {
    if step.Deliver? {
      var a, e := j.sys.actor, step.event;
      if e.PeerConnected? && !e.relayed {
        ConnectedAnnounces(g, a, e.peer, e.address);
      } else {
        HandleGrounded(g, a, e);
      }
    }
    hide Handle, Grounded, OnlyExit;
    assert j.sys.actor.trace <= Apply(g, j.sys, step).actor.trace;
  }

  lemma AnsweredKeepsContract(j: Joint, items: seq<Item>, n: nat)
    requires DialsAnswered(j, items) && n < |Acted(items)|
    ensures KeepsContract(Acted(items)[n])
  {
    hide AnsweredFrom, HearAll;
    var act := Acted(items)[n];
    if act.Dialling? && act.reached.Ok? && act.reached.value.Some? {
      var i := ItemOfAct(items, n);
      assert IsDial(items[i]);
      var k: nat, reply: ReplyId :| AnsweredFrom(j, items, k, i, reply);
      AnsweredDialHasLink(j, items, k, i, reply, act.reached.value.value);
    }
  }

  /** The exact price of tying the two actors together in one run: a step can be taken with
      every dial and test answered by the run's own network actor if and only if each of
      its dial replies is one that the dialer contract allows. */
  lemma StepIsAnswerableIff(g: Setting, j: Joint, step: Step)
    requires Enabled(g, j.sys, step) && (step.Send? ==> !step.event.PeerConnected?)
    ensures (exists items :: JointEnabled(g, j, Take(step, items)) && Genuine(g, j, Take(step, items)))
            <==> forall i :: 0 <= i < |ActsOf(g, j, step)| ==> KeepsContract(ActsOf(g, j, step)[i])
  {
    hide JointEnabled, Genuine, KeepsContract;
    var acts := ActsOf(g, j, step);
    if items :| JointEnabled(g, j, Take(step, items)) && Genuine(g, j, Take(step, items)) {
      forall i | 0 <= i < |acts| ensures KeepsContract(acts[i]) { GenuineKeepsContract(g, j, step, items, i); }
    }
    if forall i :: 0 <= i < |acts| ==> KeepsContract(acts[i]) {
      ContractIsGenuine(g, j, step);
    }
  }

  lemma GenuineKeepsContract(g: Setting, j: Joint, step: Step, items: seq<Item>, i: nat)
    requires JointEnabled(g, j, Take(step, items)) && Genuine(g, j, Take(step, items))
    requires i < |ActsOf(g, j, step)|
    ensures KeepsContract(ActsOf(g, j, step)[i])
  {
    hide Apply, Enabled, KeepsContract, DialsAnswered, TestsAnswered, Acted;
    var t := j.sys.actor.trace;
    assert (t + Acted(items))[|t|..] == Acted(items);
    AnsweredKeepsContract(j.(sys := Apply(g, j.sys, step)), items, i);
  }

  lemma NothingLost(g: Setting, j: Joint, step: Step, items: seq<Item>)
    requires Enabled(g, j.sys, step) && NoneOverheard(items)
    requires Apply(g, j.sys, step).actor.trace == j.sys.actor.trace + Acted(items)
    ensures JointEnabled(g, j, Take(step, items))
  {
    hide Apply, Enabled, Acted;
  }

  lemma ContractIsGenuine(g: Setting, j: Joint, step: Step)
    requires Enabled(g, j.sys, step) && (step.Send? ==> !step.event.PeerConnected?)
    requires forall i :: 0 <= i < |ActsOf(g, j, step)| ==> KeepsContract(ActsOf(g, j, step)[i])
    ensures var s := Take(step, Woven(j.(sys := Apply(g, j.sys, step)), ActsOf(g, j, step)));
            JointEnabled(g, j, s) && Genuine(g, j, s)
  {
    StepExtends(g, j, step);
    hide Apply, Enabled, KeepsContract, DialsAnswered, TestsAnswered, Woven, Acted, ActsOf, NoneOverheard, Lossless;
    var mid, acts := j.(sys := Apply(g, j.sys, step)), ActsOf(g, j, step);
    WovenActs(mid, acts);
    WovenDials(mid, acts);
    WovenTests(mid, acts);
    NothingLost(g, j, step, Woven(mid, acts));
  }
}

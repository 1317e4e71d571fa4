/** What every run of the network actor keeps: each dial is answered exactly once,
    with the answer its event history dictates; strikes count consecutive failures. */
module DialLaws {
  import opened Wrappers
  import opened Selection
  import opened NetworkActors

  datatype Verdict = Waiting | Answered(answer: Option<PeerId>)

  /** The fate of one dial, read off the events after it: the first event that
      settles it decides. */
  function VerdictOf(d: PendingDial, events: seq<NetInput>): Verdict {
    if events == [] then Waiting
    else if Settles(events[0], d) then Answered(AnswerOf(events[0]))
    else VerdictOf(d, events[1..])
  }

  /** A dial's standing at the end of a run: still open, or answered. */
  datatype Outcome = Open(dial: PendingDial) | Replied(sent: Sent)

  function OutcomeOf(d: PendingDial, events: seq<NetInput>): Outcome {
    match VerdictOf(d, events)
    case Waiting => Open(d)
    case Answered(answer) => Replied(Sent(d.reply, answer))
  }

  ghost function OpenAll(dials: seq<PendingDial>): multiset<Outcome> {
    if dials == [] then multiset{} else multiset{Open(dials[0])} + OpenAll(dials[1..])
  }

  ghost function RepliedAll(sent: seq<Sent>): multiset<Outcome> {
    if sent == [] then multiset{} else multiset{Replied(sent[0])} + RepliedAll(sent[1..])
  }

  ghost function Outcomes(n: NetState): multiset<Outcome> {
    RepliedAll(n.sent) + OpenAll(n.pending)
  }

  /** The outcomes that the dials in flight, and those still to come, are due. */
  ghost function Due(dials: seq<PendingDial>, events: seq<NetInput>): multiset<Outcome> {
    if dials == [] then multiset{} else multiset{OutcomeOf(dials[0], events)} + Due(dials[1..], events)
  }

  ghost function DueLater(events: seq<NetInput>): multiset<Outcome> {
    if events == [] then multiset{}
    else DueFor(events[0], events[1..]) + DueLater(events[1..])
  }

  ghost function DueFor(e: NetInput, rest: seq<NetInput>): multiset<Outcome> {
    if !e.Dial? then multiset{}
    else if DestinationPeerIds(e.addresses) == {} then multiset{Replied(Sent(e.reply, None))}
    else multiset{OutcomeOf(DialOf(e), rest)}
  }

  // ---------- the walk removes exactly the settled dials ----------

  ghost predicate AllSettled(e: NetInput, dials: seq<PendingDial>) {
    forall k :: 0 <= k < |dials| ==> Settles(e, dials[k])
  }

  ghost predicate NoneSettled(e: NetInput, dials: seq<PendingDial>) {
    forall k :: 0 <= k < |dials| ==> !Settles(e, dials[k])
  }

  /** The walk splits the dials in flight into exactly the settled and the others. */
  lemma SweepIsExact(pending: seq<PendingDial>, e: NetInput)
    ensures var s := Sweep(pending, 0, e);
            && multiset(s.kept) + multiset(s.removed) == multiset(pending)
            && NoneSettled(e, s.kept) && AllSettled(e, s.removed)
  {
    SweepConserves(pending, 0, e);
    SweepKeepsUnsettled(pending, 0, e);
    SweepRemovesSettled(pending, 0, e);
  }

  lemma {:induction false} SweepConserves(pending: seq<PendingDial>, i: nat, e: NetInput)
    requires i <= |pending|
    ensures var s := Sweep(pending, i, e); multiset(s.kept) + multiset(s.removed) == multiset(pending)
    decreases |pending| - i
  {
    hide Settles, SwapRemove;
    if i < |pending| {
      if Settles(e, pending[i]) {
        SweepConserves(SwapRemove(pending, i), i, e);
        SwapRemoveMultiset(pending, i);
      } else {
        SweepConserves(pending, i + 1, e);
      }
    }
  }

  lemma {:induction false} SweepKeepsUnsettled(pending: seq<PendingDial>, i: nat, e: NetInput)
    requires i <= |pending|
    requires forall k :: 0 <= k < i ==> !Settles(e, pending[k])
    ensures NoneSettled(e, Sweep(pending, i, e).kept)
    decreases |pending| - i
  {
    if i < |pending| {
      if Settles(e, pending[i]) {
        var smaller := SwapRemove(pending, i);
        assert forall k :: 0 <= k < i ==> smaller[k] == pending[k];
        SweepKeepsUnsettled(smaller, i, e);
      } else {
        SweepKeepsUnsettled(pending, i + 1, e);
      }
    }
  }

  lemma {:induction false} SweepRemovesSettled(pending: seq<PendingDial>, i: nat, e: NetInput)
    requires i <= |pending|
    ensures AllSettled(e, Sweep(pending, i, e).removed)
    decreases |pending| - i
  {
    hide SwapRemove;
    if i < |pending| {
      if Settles(e, pending[i]) {
        var smaller := SwapRemove(pending, i);
        SweepRemovesSettled(smaller, i, e);
      } else {
        SweepRemovesSettled(pending, i + 1, e);
      }
    }
  }

  lemma SwapRemoveMultiset<T>(s: seq<T>, i: nat)
    requires i < |s|
    ensures multiset(SwapRemove(s, i)) + multiset{s[i]} == multiset(s)
  {
    var last := |s| - 1;
    if i == last {
      assert s == s[..last] + [s[last]];
      assert SwapRemove(s, i) == s[..last];
    } else {
      assert s == s[..i] + [s[i]] + s[i + 1..last] + [s[last]];
      assert SwapRemove(s, i) == s[..i] + [s[last]] + s[i + 1..last];
    }
  }

  lemma {:induction false} DueConcat(a: seq<PendingDial>, b: seq<PendingDial>, events: seq<NetInput>)
    ensures Due(a + b, events) == Due(a, events) + Due(b, events)
  {
    if a == [] {
      assert a + b == b;
    } else {
      assert (a + b)[1..] == a[1..] + b;
      DueConcat(a[1..], b, events);
    }
  }

  lemma DueOne(d: PendingDial, events: seq<NetInput>)
    ensures Due([d], events) == multiset{OutcomeOf(d, events)}
  {
    assert Due([d][1..], events) == multiset{};
  }

  lemma DueSwapRemove(s: seq<PendingDial>, i: nat, events: seq<NetInput>)
    requires i < |s|
    ensures Due(s, events) == Due(SwapRemove(s, i), events) + Due([s[i]], events)
  {
    var last := |s| - 1;
    if i == last {
      assert s == s[..last] + [s[last]];
      assert SwapRemove(s, i) == s[..last];
      DueConcat(s[..last], [s[last]], events);
    } else {
      var a, b := s[..i], s[i + 1..last];
      hide Due;
      assert s == a + ([s[i]] + (b + [s[last]]));
      assert SwapRemove(s, i) == a + ([s[last]] + b);
      DueConcat(a, [s[i]] + (b + [s[last]]), events);
      DueConcat([s[i]], b + [s[last]], events);
      DueConcat(b, [s[last]], events);
      DueConcat(a, [s[last]] + b, events);
      DueConcat([s[last]], b, events);
    }
  }

  lemma Regroup<T>(a: multiset<T>, b: multiset<T>, c: multiset<T>)
    ensures (a + b) + c == a + (c + b)
  {
  }

  lemma DueNone(events: seq<NetInput>)
    ensures Due([], events) == multiset{}
  {
  }

  lemma {:induction false} DueSweep(pending: seq<PendingDial>, i: nat, e: NetInput, events: seq<NetInput>)
    requires i <= |pending|
    ensures var s := Sweep(pending, i, e);
            Due(pending, events) == Due(s.kept, events) + Due(s.removed, events)
    decreases |pending| - i
  {
    hide SwapRemove, Due;
    if i == |pending| {
      DueNone(events);
    } else {
      if Settles(e, pending[i]) {
        var smaller := SwapRemove(pending, i);
        var rest := Sweep(smaller, i, e);
        DueSweep(smaller, i, e, events);
        DueSwapRemove(pending, i, events);
        DueConcat([pending[i]], rest.removed, events);
        Regroup(Due(rest.kept, events), Due(rest.removed, events), Due([pending[i]], events));
      } else {
        DueSweep(pending, i + 1, e, events);
      }
    }
  }

  lemma {:induction false} DueSettled(dials: seq<PendingDial>, e: NetInput, rest: seq<NetInput>)
    requires AllSettled(e, dials)
    ensures Due(dials, [e] + rest) == RepliedAll(Replies(dials, AnswerOf(e)))
  {
    if dials != [] {
      DueSettled(dials[1..], e, rest);
    }
  }

  lemma {:induction false} DueUnsettled(dials: seq<PendingDial>, e: NetInput, rest: seq<NetInput>)
    requires NoneSettled(e, dials)
    ensures Due(dials, [e] + rest) == Due(dials, rest)
  {
    if dials != [] {
      DueUnsettled(dials[1..], e, rest);
      assert ([e] + rest)[1..] == rest;
    }
  }

  lemma {:induction false} DueNow(dials: seq<PendingDial>)
    ensures Due(dials, []) == OpenAll(dials)
  {
    if dials != [] { DueNow(dials[1..]); }
  }

  lemma {:induction false} RepliedConcat(a: seq<Sent>, b: seq<Sent>)
    ensures RepliedAll(a + b) == RepliedAll(a) + RepliedAll(b)
  {
    if a == [] {
      assert a + b == b;
    } else {
      assert (a + b)[1..] == a[1..] + b;
      RepliedConcat(a[1..], b);
    }
  }

  // ---------- conservation over every run ----------

  lemma {:induction false} RunFront(n: NetState, e: NetInput, rest: seq<NetInput>)
    ensures Run(n, [e] + rest) == Run(React(n, e), rest)
  {
    var events := [e] + rest;
    if rest == [] {
      assert events[..0] == [];
    } else {
      RunFront(n, e, rest[..|rest| - 1]);
      assert events[..|events| - 1] == [e] + rest[..|rest| - 1];
    }
  }

  /** Over every run and from every state, the answers sent plus the dials left open
      are exactly one outcome per dial, each the one its events dictate. */
  lemma {:induction false} EveryDialHasItsOutcome(n: NetState, events: seq<NetInput>)
    ensures Outcomes(Run(n, events)) == RepliedAll(n.sent) + Due(n.pending, events) + DueLater(events)
    decreases |events|
  {
    if events == [] {
      DueNow(n.pending);
    } else {
      var e, rest := events[0], events[1..];
      assert events == [e] + rest;
      RunFront(n, e, rest);
      EveryDialHasItsOutcome(React(n, e), rest);
      StepConserves(n, e, rest);
    }
  }

  lemma StepConserves(n: NetState, e: NetInput, rest: seq<NetInput>)
    ensures RepliedAll(React(n, e).sent) + Due(React(n, e).pending, rest)
            == RepliedAll(n.sent) + Due(n.pending, [e] + rest) + DueFor(e, rest)
  {
    if e.Established? || e.ExpireDials? {
      SettleConserves(n, e, rest);
    } else {
      DueUnsettled(n.pending, e, rest);
      if e.Dial? {
        DialConserves(n, e, rest);
      }
    }
  }

  lemma SettleConserves(n: NetState, e: NetInput, rest: seq<NetInput>)
    ensures RepliedAll(Settle(n, e).sent) + Due(Settle(n, e).pending, rest)
            == RepliedAll(n.sent) + Due(n.pending, [e] + rest)
  {
    var s := Sweep(n.pending, 0, e);
    SweepIsExact(n.pending, e);
    DueSweep(n.pending, 0, e, [e] + rest);
    DueSettled(s.removed, e, rest);
    DueUnsettled(s.kept, e, rest);
    RepliedConcat(n.sent, Replies(s.removed, AnswerOf(e)));
  }

  lemma DialConserves(n: NetState, e: NetInput, rest: seq<NetInput>)
    requires e.Dial?
    ensures RepliedAll(React(n, e).sent) + Due(React(n, e).pending, rest)
            == RepliedAll(n.sent) + Due(n.pending, rest) + DueFor(e, rest)
  {
    if DestinationPeerIds(e.addresses) == {} {
      var refusal := Sent(e.reply, None);
      RepliedConcat(n.sent, [refusal]);
      assert [refusal][1..] == [];
      assert RepliedAll([refusal]) == multiset{Replied(refusal)};
    } else {
      DueConcat(n.pending, [DialOf(e)], rest);
      DueOne(DialOf(e), rest);
    }
  }

  /** The event at i is the first to settle the dial. */
  predicate FirstSettledAt(d: PendingDial, events: seq<NetInput>, i: nat) {
    i < |events| && Settles(events[i], d) && forall j :: 0 <= j < i ==> !Settles(events[j], d)
  }

  lemma {:induction false} VerdictByFirst(d: PendingDial, events: seq<NetInput>, i: nat)
    requires FirstSettledAt(d, events, i)
    ensures VerdictOf(d, events) == Answered(AnswerOf(events[i]))
  {
    if i > 0 {
      assert FirstSettledAt(d, events[1..], i - 1);
      VerdictByFirst(d, events[1..], i - 1);
    }
  }

  lemma {:induction false} FirstSettled(d: PendingDial, events: seq<NetInput>) returns (i: nat)
    ensures if VerdictOf(d, events) == Waiting then forall j :: 0 <= j < |events| ==> !Settles(events[j], d)
            else FirstSettledAt(d, events, i)
  {
    i := 0;
    if events != [] && !Settles(events[0], d) {
      var k := FirstSettled(d, events[1..]);
      assert forall j :: 0 < j < |events| ==> events[j] == events[1..][j - 1];
      i := k + 1;
    }
  }

  /** The verdict is decided by the first settling event, in both directions. */
  lemma {:induction false} VerdictMeaning(d: PendingDial, events: seq<NetInput>, q: PeerId)
    ensures VerdictOf(d, events) == Waiting <==> forall i :: 0 <= i < |events| ==> !Settles(events[i], d)
    ensures VerdictOf(d, events) == Answered(Some(q)) <==>
            exists i :: 0 <= i < |events| && events[i].Established? && events[i].peer == q && q in d.candidates
                        && forall j :: 0 <= j < i ==> !Settles(events[j], d)
    ensures VerdictOf(d, events) == Answered(None) <==>
            exists i :: 0 <= i < |events| && events[i].ExpireDials? && d.deadline <= events[i].now
                        && forall j :: 0 <= j < i ==> !Settles(events[j], d)
  {
    var first := FirstSettled(d, events);
    hide VerdictOf;
    forall i: nat | FirstSettledAt(d, events, i) ensures VerdictOf(d, events) == Answered(AnswerOf(events[i])) {
      VerdictByFirst(d, events, i);
    }
    assert forall i :: 0 <= i < |events| && Settles(events[i], d) && (forall j :: 0 <= j < i ==> !Settles(events[j], d))
                       ==> FirstSettledAt(d, events, i);
  }

  // ---------- one request, one answer ----------

  ghost predicate ReplyUsedOnce(events: seq<NetInput>, d: nat) {
    d < |events| && events[d].Dial?
    && forall i :: 0 <= i < |events| && events[i].Dial? && events[i].reply == events[d].reply ==> i == d
  }

  function ReplyOf(o: Outcome): ReplyId {
    if o.Open? then o.dial.reply else o.sent.reply
  }

  /** The one outcome a dial command is due. */
  ghost function DueOutcome(events: seq<NetInput>, d: nat): Outcome
    requires d < |events| && events[d].Dial?
  {
    if DestinationPeerIds(events[d].addresses) == {} then Replied(Sent(events[d].reply, None))
    else OutcomeOf(DialOf(events[d]), events[d + 1..])
  }

  lemma {:induction false} DueLaterOnce(events: seq<NetInput>, d: nat, o: Outcome)
    requires ReplyUsedOnce(events, d) && ReplyOf(o) == events[d].reply
    ensures DueLater(events)[o] == if o == DueOutcome(events, d) then 1 else 0
  {
    var rest := events[1..];
    if d == 0 {
      DueLaterNone(rest, o);
      assert DueFor(events[0], rest) == multiset{DueOutcome(events, 0)};
    } else {
      hide OutcomeOf, DueFor;
      UsedOnceLater(events, d);
      DueLaterOnce(rest, d - 1, o);
      DueForOther(events[0], rest, o);
    }
  }

  lemma UsedOnceLater(events: seq<NetInput>, d: nat)
    requires d >= 1 && ReplyUsedOnce(events, d)
    ensures ReplyUsedOnce(events[1..], d - 1) && events[1..][d - 1] == events[d]
    ensures events[1..][d - 1 + 1..] == events[d + 1..]
    ensures events[0].Dial? ==> events[0].reply != events[d].reply
  {
    var rest := events[1..];
    forall i | 0 <= i < |rest| && rest[i].Dial? && rest[i].reply == rest[d - 1].reply ensures i == d - 1 {
      assert events[i + 1] == rest[i];
    }
  }

  lemma DueForOther(e: NetInput, rest: seq<NetInput>, o: Outcome)
    requires e.Dial? ==> e.reply != ReplyOf(o)
    ensures DueFor(e, rest)[o] == 0
  {
  }

  lemma {:induction false} DueLaterNone(events: seq<NetInput>, o: Outcome)
    requires forall i :: 0 <= i < |events| && events[i].Dial? ==> events[i].reply != ReplyOf(o)
    ensures DueLater(events)[o] == 0
  {
    if events != [] {
      DueLaterNone(events[1..], o);
      assert events[0].Dial? ==> events[0].reply != ReplyOf(o);
    }
  }

  lemma {:induction false} SentCounted(sent: seq<Sent>, x: Sent)
    ensures RepliedAll(sent)[Replied(x)] == multiset(sent)[x]
    ensures forall d :: RepliedAll(sent)[Open(d)] == 0
  {
    if sent != [] {
      SentCounted(sent[1..], x);
      assert sent == [sent[0]] + sent[1..];
    }
  }

  lemma {:induction false} OpenCounted(dials: seq<PendingDial>, d: PendingDial)
    ensures OpenAll(dials)[Open(d)] == multiset(dials)[d]
    ensures forall x :: OpenAll(dials)[Replied(x)] == 0
  {
    if dials != [] {
      OpenCounted(dials[1..], d);
      assert dials == [dials[0]] + dials[1..];
    }
  }

  lemma OutcomeCount(hub: PeerId, events: seq<NetInput>, d: nat, o: Outcome)
    requires ReplyUsedOnce(events, d) && ReplyOf(o) == events[d].reply
    ensures Outcomes(Run(Idle(hub), events))[o] == if o == DueOutcome(events, d) then 1 else 0
  {
    EveryDialHasItsOutcome(Idle(hub), events);
    DueLaterOnce(events, d, o);
    assert RepliedAll([]) + Due([], events) + DueLater(events) == DueLater(events);
  }

  /** From an idle actor and over any run, a dial whose reply channel is used once
      (channels are consumed when sent on) gets the answer x exactly once if x is its
      due outcome, never otherwise; and it is in flight exactly when it is due none. */
  lemma DialAnsweredExactlyOnce(hub: PeerId, events: seq<NetInput>, d: nat, answer: Option<PeerId>)
    requires ReplyUsedOnce(events, d)
    ensures var end := Run(Idle(hub), events);
            var x := Sent(events[d].reply, answer);
            && multiset(end.sent)[x] == (if DueOutcome(events, d) == Replied(x) then 1 else 0)
            && multiset(end.pending)[DialOf(events[d])]
              == (if DueOutcome(events, d) == Open(DialOf(events[d])) then 1 else 0)
  {
    var end := Run(Idle(hub), events);
    var x := Sent(events[d].reply, answer);
    var dial := DialOf(events[d]);
    OutcomeCount(hub, events, d, Replied(x));
    OutcomeCount(hub, events, d, Open(dial));
    SentCounted(end.sent, x);
    OpenCounted(end.pending, dial);
  }

  /** The window of a dial is ten seconds: as long as no target of it connects, it is in flight
      until the first look at the clock at which those are over, and is answered nobody then. */
  lemma DialWindow(hub: PeerId, events: seq<NetInput>, d: nat)
    requires ReplyUsedOnce(events, d) && DestinationPeerIds(events[d].addresses) != {}
    requires forall i :: d < i < |events| && events[i].Established? ==>
               events[i].peer !in DestinationPeerIds(events[d].addresses)
    ensures var end := Run(Idle(hub), events);
            var dial := events[d];
            var over := exists i :: d < i < |events| && events[i].ExpireDials?
                                    && dial.now + 10_000_000_000 <= events[i].now;
            && multiset(end.sent)[Sent(dial.reply, None)] == (if over then 1 else 0)
            && multiset(end.pending)[PendingDial(DestinationPeerIds(dial.addresses), dial.reply,
                 dial.now + 10_000_000_000)] == (if over then 0 else 1)
  {
    var dial, rest := DialOf(events[d]), events[d + 1..];
    assert forall i :: 0 <= i < |rest| ==> rest[i] == events[d + 1 + i];
    DialAnsweredExactlyOnce(hub, events, d, None);
    var first := FirstSettled(dial, rest);
    if VerdictOf(dial, rest) == Waiting {
      forall i | d < i < |events| && events[i].ExpireDials? ensures events[i].now < dial.deadline {
        assert !Settles(rest[i - d - 1], dial);
      }
    } else {
      VerdictByFirst(dial, rest, first);
      assert rest[first] == events[d + 1 + first] && Settles(rest[first], dial);
    }
  }

  /** Discharges the dialer contract: whatever is answered to a dial of these
      addresses is one of their targets, or nobody. */
  lemma AnswersAreCandidates(hub: PeerId, events: seq<NetInput>, d: nat, answer: Option<PeerId>)
    requires ReplyUsedOnce(events, d)
    requires Sent(events[d].reply, answer) in Run(Idle(hub), events).sent
    ensures AnswerAllowed(events[d].addresses, answer)
  {
    DialAnsweredExactlyOnce(hub, events, d, answer);
    if answer.Some? && DestinationPeerIds(events[d].addresses) != {} {
      VerdictMeaning(DialOf(events[d]), events[d + 1..], answer.value);
    }
  }

  // ---------- ping strikes ----------

  /** Consecutive failures of a peer since its last good ping or close, no matter
      how many disconnects were issued in between. */
  function Fails(events: seq<NetInput>, peer: PeerId): nat {
    if events == [] then 0
    else
      var e, before := events[|events| - 1], events[..|events| - 1];
      if e == PingFailed(peer) then Fails(before, peer) + 1
      else if e == PingOk(peer) || e == Closed(peer) then 0
      else Fails(before, peer)
  }

  /** The peers to be torn down over a run: one at every third consecutive failure. */
  function TornDown(events: seq<NetInput>): seq<PeerId> {
    if events == [] then []
    else
      var e, before := events[|events| - 1], TornDown(events[..|events| - 1]);
      if e.PingFailed? && Fails(events, e.peer) % 3 == 0 then before + [e.peer] else before
  }

  lemma CycleStep(n: nat)
    ensures (n + 1) % 3 == if n % 3 + 1 < 3
            then n % 3 + 1 else 0
  {
  }

  lemma NoStrikes(hub: PeerId)
    ensures Idle(hub).strikes == map[] && Idle(hub).disconnected == []
  {
  }

  lemma StrikeStep(n: NetState, e: NetInput, peer: PeerId)
    ensures var m := React(n, e);
            && (e == PingFailed(peer) ==>
                  if Strikes(n.strikes, peer) + 1 < 3
                  then peer in m.strikes && Strikes(m.strikes, peer) == Strikes(n.strikes, peer) + 1
                    else peer !in m.strikes)
            && (e == PingOk(peer) || e == Closed(peer) ==> peer !in m.strikes)
            && (e != PingFailed(peer) && e != PingOk(peer) && e != Closed(peer) ==>
                  (peer in m.strikes <==> peer in n.strikes) && Strikes(m.strikes, peer) == Strikes(n.strikes, peer))
            && m.disconnected == n.disconnected
              + (if e.PingFailed? && Strikes(n.strikes, e.peer) + 1 >= 3 then [e.peer] else [])
  {
  }

  /** Over every run the strike table holds each peer's consecutive failures modulo
      three (absent when zero), and exactly the third ones disconnect. */
  lemma {:induction false} StrikesCountConsecutiveFailures(hub: PeerId, events: seq<NetInput>, peer: PeerId)
    ensures var end := Run(Idle(hub), events);
            && Strikes(end.strikes, peer) == Fails(events, peer) % 3
            && (peer in end.strikes <==> Fails(events, peer) % 3 != 0)
            && end.disconnected == TornDown(events)
  {
    hide React, Idle;
    if events == [] {
      NoStrikes(hub);
    } else {
      var e, before := events[|events| - 1], events[..|events| - 1];
      StrikesCountConsecutiveFailures(hub, before, peer);
      if e.PingFailed? { StrikesCountConsecutiveFailures(hub, before, e.peer); }
      StrikeStep(Run(Idle(hub), before), e, peer);
      CycleStep(Fails(before, peer));
      if e.PingFailed? { CycleStep(Fails(before, e.peer)); }
      assert Run(Idle(hub), events) == React(Run(Idle(hub), before), e);
    }
  }

  // ---------- every link is told ----------

  function SubmittedBy(events: seq<NetInput>): multiset<Multiaddr> {
    if events == [] then multiset{}
    else
      var e, before := events[|events| - 1], SubmittedBy(events[..|events| - 1]);
      if e.Dial? && DestinationPeerIds(e.addresses) != {} then before + multiset(e.addresses) else before
  }

  /** Over every run: a link's end is shown to the operator and told to the discovery
      actor once each; so is its start, unless it is the bootstrap link, which is only
      shown; and the swarm is handed each address of each dial that has a target. */
  lemma {:induction false} LinksAreTold(hub: PeerId, events: seq<NetInput>, peer: PeerId, address: Multiaddr,
                                        relayed: bool)
    ensures var end := Run(Idle(hub), events);
            var ups := multiset(events)[Established(peer, address, relayed)];
            && end.bootstrap == hub
            && multiset(end.reports)[LinkDown(peer)] == multiset(end.notices)[WentDown(peer)]
              == multiset(events)[Closed(peer)]
            && multiset(end.reports)[Route(peer, address, relayed)] == ups
            && multiset(end.notices)[CameUp(peer, address, relayed)] == (if peer == hub then 0 else ups)
            && end.submitted == SubmittedBy(events)
  {
    hide React;
    if events != [] {
      var e, before := events[|events| - 1], events[..|events| - 1];
      SubmittedOne(e);
      LinksAreTold(hub, before, peer, address, relayed);
      assert events == before + [e];
      ToldStep(Run(Idle(hub), before), e, peer, address, relayed);
    }
  }

  lemma ToldStep(n: NetState, e: NetInput, peer: PeerId, address: Multiaddr, relayed: bool)
    ensures var m := React(n, e);
            && multiset(m.reports)[LinkDown(peer)]
              == multiset(n.reports)[LinkDown(peer)] + (if e == Closed(peer) then 1 else 0)
            && multiset(m.notices)[WentDown(peer)]
              == multiset(n.notices)[WentDown(peer)] + (if e == Closed(peer) then 1 else 0)
            && multiset(m.reports)[Route(peer, address, relayed)]
               == multiset(n.reports)[Route(peer, address, relayed)]
                 + (if e == Established(peer, address, relayed) then 1 else 0)
            && multiset(m.notices)[CameUp(peer, address, relayed)]
               == multiset(n.notices)[CameUp(peer, address, relayed)]
                  + (if e == Established(peer, address, relayed) && peer != n.bootstrap then 1 else 0)
            && m.submitted == n.submitted + SubmittedBy([e])
  {
    ToldTo(n, e);
    SubmittedOne(e);
    hide React, SubmittedBy;
    assert multiset(n.reports + ReportsOf(e)) == multiset(n.reports) + multiset(ReportsOf(e));
    assert multiset(n.notices + NoticesOf(n.bootstrap, e)) == multiset(n.notices) + multiset(NoticesOf(n.bootstrap, e));
  }

  lemma ToldTo(n: NetState, e: NetInput)
    ensures var m := React(n, e);
            && m.reports == n.reports + ReportsOf(e) && m.notices == n.notices + NoticesOf(n.bootstrap, e)
            && m.submitted == n.submitted
              + (if e.Dial? && DestinationPeerIds(e.addresses) != {} then multiset(e.addresses) else multiset{})
  {
    hide Sweep, Replies;
  }

  lemma SubmittedOne(e: NetInput)
    ensures SubmittedBy([e]) == if e.Dial? && DestinationPeerIds(e.addresses) != {} then multiset(e.addresses)
            else multiset{}
  {
    assert SubmittedBy([e][..0]) == multiset{};
  }
}

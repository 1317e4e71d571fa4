/** The dialer contract that the connect flow assumes is exactly what the network
    actor's dial queue delivers. */
module DialerContracts {
  import opened Wrappers
  import opened Selection
  import opened Sequences
  import opened NetworkActors
  import opened Sticky
  import opened Config
  import opened Environments
  import opened ConnectSpec
  import opened ConnectEffort
  import opened ConnectPools
  import opened DiscoverySpec
  import opened PoolInvariants
  import opened Runs
  import DialLaws

  /** Some run of the network actor sends this answer to a dial of these addresses. */
  ghost predicate QueueAnswers(addresses: set<Multiaddr>, answer: Option<PeerId>) {
    exists hub, events, d :: SentTo(hub, events, d, addresses, answer)
  }

  ghost predicate SentTo(hub: PeerId, events: seq<NetInput>, d: nat, addresses: set<Multiaddr>,
                         answer: Option<PeerId>) {
    && DialLaws.ReplyUsedOnce(events, d) && events[d].addresses == addresses
    && Sent(events[d].reply, answer) in Run(Idle(hub), events).sent
  }

  /** Every reply of the dialer is one that the network actor sent. */
  ghost predicate AnsweredByQueue(net: Net) {
    forall t, a :: net.dial(t, a).Ok? ==> QueueAnswers(a, net.dial(t, a).value)
  }

  lemma QueueKeepsContract(addresses: set<Multiaddr>, answer: Option<PeerId>)
    requires QueueAnswers(addresses, answer)
    ensures AnswerAllowed(addresses, answer)
  {
    var hub, events, d :| SentTo(hub, events, d, addresses, answer);
    DialLaws.AnswersAreCandidates(hub, events, d, answer);
  }

  /** A dial, and the event that settles it with the given answer. */
  function Settling(addresses: set<Multiaddr>, answer: Option<PeerId>): seq<NetInput> {
    [Dial(addresses, 0, 0), if answer.Some? then Established(answer.value, [], false) else ExpireDials(DIAL_TIMEOUT)]
  }

  lemma LoneSettled(dial: PendingDial, e: NetInput)
    requires Settles(e, dial)
    ensures Sweep([dial], 0, e) == Swept([], [dial])
    ensures Replies([dial], AnswerOf(e)) == [Sent(dial.reply, AnswerOf(e))]
  {
    assert SwapRemove([dial], 0) == [];
    assert Sweep([], 0, e) == Swept([], []);
    assert Replies([dial][1..], AnswerOf(e)) == [];
  }

  lemma AllowedIsSent(hub: PeerId, addresses: set<Multiaddr>, answer: Option<PeerId>)
    requires AnswerAllowed(addresses, answer)
    ensures SentTo(hub, Settling(addresses, answer), 0, addresses, answer)
  {
    var events := Settling(addresses, answer);
    var d, e := events[0], events[1];
    var queued := React(Idle(hub), d);
    assert events[..1] == [d] && [d][..0] == [];
    assert Run(Idle(hub), [d]) == React(Run(Idle(hub), []), d) == queued;
    assert Run(Idle(hub), events) == React(queued, e);
    if DestinationPeerIds(addresses) != {} {
      LoneSettled(DialOf(d), e);
      assert queued.pending == [DialOf(d)];
    }
    assert Sent(0, answer) in Run(Idle(hub), events).sent;
  }

  /** The contract and the queue agree exactly: a dialer keeps the contract if and only if
      each of its replies is one that some run of the queue sends to that very dial. */
  lemma QueueIsTheContract(net: Net)
    ensures AnsweredByQueue(net) <==> HonestDialer(net)
  {
    if AnsweredByQueue(net) {
      forall t, a | net.dial(t, a).Ok? ensures AnswerAllowed(a, net.dial(t, a).value) {
        QueueKeepsContract(a, net.dial(t, a).value);
      }
    }
    if HonestDialer(net) {
      forall t, a | net.dial(t, a).Ok? ensures QueueAnswers(a, net.dial(t, a).value) {
        AllowedIsSent(PeerId(0), a, net.dial(t, a).value);
      }
    }
  }

  // ---------- the main results, over the queue ----------

  /** Through the queue, reaching a peer dials at least once, dials only that peer's
      routes, and returns nobody else. */
  lemma ReachThroughQueue(w: World, s: Store, t: Trace, port: Port, peer: PeerId)
    requires AnsweredByQueue(w.net) && HonestHub(w.net)
    ensures var r := TryReach(w, s, t, port, peer);
            && (r.peer.Some? ==> r.peer.value == peer)
            && Dials(r.trace) > Dials(t)
            && forall i :: |t| <= i < |r.trace| && r.trace[i].Dialling? ==>
              DestinationPeerIds(r.trace[i].addresses) <= {peer}
  {
    QueueIsTheContract(w.net);
    ReachOnlyThatPeer(w, s, t, port, peer);
  }

  /** Through the queue, the exact effect of a discovery-driven connect on the pool. */
  lemma PoolThroughQueue(w: World, s: Store, t: Trace, server: Server, avoid: Option<PeerId>)
    requires AnsweredByQueue(w.net) && HonestHub(w.net) && Distinct(s) && server.sticky
    ensures var r := ConnectDiscovered(w, s, t, server, avoid);
            var pool := PoolIds(s, server.port, server.Fingerprint());
            && Distinct(r.store) && OnlyPort(s, r.store, server.port)
            && ( || ( && Fights(server, avoid) && r.result == Ok(ConnectedDestination(avoid.value, StickyReuse))
                      && PoolIds(r.store, server.port, server.Fingerprint())
                        == MoveToFront(pool, avoid.value, server.maxTotal))
                 || FreshEffect(server, AfterFight(server, pool, avoid), avoid, r))
  {
    QueueIsTheContract(w.net);
    DiscoveredPoolEffect(w, s, t, server, avoid);
  }

  /** A run whose dials are answered by the queue: no contract on the dialer is left. */
  ghost predicate QueueScenario(g: Setting, start: System, run: seq<Step>) {
    && AnsweredByQueue(g.net) && HonestHub(g.net) && MonotoneClock(g.net) && FaithfulIteration(g.net)
    && WellSet(g) && Initial(g, start) && Feasible(g, start, run)
  }

  /** So every law of runs holds with the queue in place of the dialer contract. */
  lemma ScenarioThroughQueue(g: Setting, start: System, run: seq<Step>)
    ensures QueueScenario(g, start, run) <==> Scenario(g, start, run)
  {
    QueueIsTheContract(g.net);
  }
}

/** What one attempt at a peer, one query of the hub and one pass over the pins put on the
    trace, act by act, and which addresses they dial. */
module ConnectShapes {
  import opened Wrappers
  import opened Selection
  import opened Sticky
  import opened StickyLaws
  import opened Config
  import opened NetworkActors
  import opened Environments
  import opened ConnectSpec

  // ---------- a race ----------

  predicate HasHalf(routes: set<Multiaddr>, relayed: bool) {
    exists a :: a in routes && (P2pCircuit in a <==> relayed)
  }

  /** Act k dials every route that passes a relay, or every one that does not, and carries
      the dialer's reply. */
  ghost predicate DialsHalf(w: World, u: Trace, k: nat, routes: set<Multiaddr>, relayed: bool) {
    && k < |u| && u[k].Dialling?
    && (forall a :: a in u[k].addresses <==> a in routes && (P2pCircuit in a <==> relayed))
    && u[k].reached == w.net.dial(u[..k], u[k].addresses)
  }

  /** The trace u is t and one race: first the routes without a relay, then, if nobody
      answered those, the relayed ones; an empty half is not dialled. */
  ghost predicate RacedTo(w: World, t: Trace, routes: set<Multiaddr>, u: Trace, peer: Option<PeerId>) {
    var i := |t| + 1;
    && t + [Racing(routes)] <= u
    && (routes == {} ==> |u| == i && peer == None)
    && (routes != {} ==> DialsHalf(w, u, i, routes, !HasHalf(routes, false)))
    && (routes != {} ==>
          if HasHalf(routes, false) && HasHalf(routes, true) && Reached(u[i].reached).None?
          then |u| == i + 2 && DialsHalf(w, u, i + 1, routes, true) && peer == Reached(u[i + 1].reached)
          else |u| == i + 1 && peer == Reached(u[i].reached))
  }

  lemma RaceShape(w: World, t: Trace, routes: set<Multiaddr>)
    ensures var r := DialRoutes(w, t, routes); RacedTo(w, t, routes, r.trace, r.peer)
  {
    HalvesAreHalves(routes);
    var t0 := t + [Racing(routes)];
    var direct, relayed := Direct(routes), Relayed(routes);
    var u := DialRoutes(w, t, routes).trace;
    assert u[..|t0|] == t0;
    if direct != {} {
      var t1 := t0 + [Dialling(direct, w.net.dial(t0, direct))];
      assert u[..|t1|] == t1;
      HalfDialled(w, t0, u, routes, direct, false);
      if relayed != {} && DialSet(w, t0, direct).peer.None? { HalfDialled(w, t1, u, routes, relayed, true); }
    } else if relayed != {} {
      HalfDialled(w, t0, u, routes, relayed, true);
    }
  }

  lemma HalvesAreHalves(routes: set<Multiaddr>)
    ensures forall a :: a in Direct(routes) <==> a in routes && (P2pCircuit in a <==> false)
    ensures forall a :: a in Relayed(routes) <==> a in routes && (P2pCircuit in a <==> true)
    ensures HasHalf(routes, false) <==> Direct(routes) != {}
    ensures HasHalf(routes, true) <==> Relayed(routes) != {}
    ensures routes != {} <==> HasHalf(routes, false) || HasHalf(routes, true)
  {
    if a :| a in routes { assert P2pCircuit in a <==> (P2pCircuit in a); }
  }

  lemma HalfDialled(w: World, t: Trace, u: Trace, routes: set<Multiaddr>, half: set<Multiaddr>, relayed: bool)
    requires t + [Dialling(half, w.net.dial(t, half))] <= u
    requires forall a :: a in half <==> a in routes && (P2pCircuit in a <==> relayed)
    ensures DialsHalf(w, u, |t|, routes, relayed)
  {
    assert u[..|t|] == t;
  }

  // ---------- one attempt at a peer ----------

  function CircuitTo(relay: Multiaddr, peer: PeerId): Multiaddr {
    relay + [P2pCircuit, P2p(peer)]
  }

  lemma CircuitIsSynthesized(relay: Multiaddr, peer: PeerId)
    ensures SynthesizeCircuit(relay, peer) == Some(CircuitTo(relay, peer))
  {
    assert relay + [P2pCircuit] + [P2p(peer)] == CircuitTo(relay, peer);
    assert (relay + [P2pCircuit])[|relay|] == P2pCircuit;
  }

  /** The address is the one remembered for the peer, which ends in the peer's id or, if it
      ended in no id, has it appended. */
  predicate Remembered(s: Store, port: Port, peer: PeerId, a: Multiaddr) {
    var known := DirectAddress(s, port, peer);
    known.Some? && Tagged(known.value, peer, a)
  }

  predicate Tagged(known: Multiaddr, peer: PeerId, a: Multiaddr) {
    if known != [] && known[|known| - 1].P2p? then known[|known| - 1] == P2p(peer) && a == known
    else a == known + [P2p(peer)]
  }

  /** The hub's reply to a question about the peer lists the address; of a hub that does
      not resolve peers, the circuit to it is taken. */
  predicate Resolved(relay: Multiaddr, peer: PeerId, reply: Result<Routes, DirectoryError>, a: Multiaddr) {
    match reply
    case Ok(routes) => exists p :: p in routes && a in routes[p]
    case Err(e) => e == Unsupported && a == CircuitTo(relay, peer)
  }

  /** What an attempt dials: what is remembered, what the hub gives, and the circuit when
      there is neither. */
  ghost predicate Reachable(w: World, s: Store, port: Port, peer: PeerId, reply: Result<Routes, DirectoryError>,
                            a: Multiaddr) {
    || Remembered(s, port, peer, a)
    || Resolved(w.relay, peer, reply, a)
    || (a == CircuitTo(w.relay, peer)
        && forall b :: !Remembered(s, port, peer, b) && !Resolved(w.relay, peer, reply, b))
  }

  lemma TaggedExactly(s: Store, port: Port, peer: PeerId, a: Multiaddr)
    ensures var known := DirectAddress(s, port, peer);
            Remembered(s, port, peer, a) <==> known.Some? && WithP2p(known.value, peer) == Some(a)
  {
  }

  lemma ResolvedExactly(relay: Multiaddr, peer: PeerId, reply: Result<Routes, DirectoryError>, a: Multiaddr)
    ensures Resolved(relay, peer, reply, a) <==> a in AllRoutes(UsableRoutes(relay, [peer], reply))
  {
    CircuitIsSynthesized(relay, peer);
    assert peer in [peer];
    if reply.Err? && reply.error == Unsupported {
      var circuits := Circuits(relay, [peer]);
      assert peer in circuits && circuits[peer] == [CircuitTo(relay, peer)];
      assert CircuitTo(relay, peer) in circuits[peer];
    }
  }

  lemma ReachRoutesExactly(w: World, s: Store, port: Port, peer: PeerId, reply: Result<Routes, DirectoryError>)
    ensures var routes := ReachRoutes(w.relay, s, port, peer, UsableRoutes(w.relay, [peer], reply));
            routes != {} && forall a :: a in routes <==> Reachable(w, s, port, peer, reply, a)
  {
    CircuitIsSynthesized(w.relay, peer);
    var known := DirectAddress(s, port, peer);
    var tagged := if known.Some? then WithP2p(known.value, peer) else None;
    var found := (if tagged.Some? then {tagged.value} else {}) + AllRoutes(UsableRoutes(w.relay, [peer], reply));
    forall a
      ensures a in found <==> Remembered(s, port, peer, a) || Resolved(w.relay, peer, reply, a)
    {
      TaggedExactly(s, port, peer, a);
      ResolvedExactly(w.relay, peer, reply, a);
    }
    hide Remembered, Resolved, UsableRoutes, AllRoutes;
    if found == {} {
      forall b ensures !Remembered(s, port, peer, b) && !Resolved(w.relay, peer, reply, b) { assert b !in found; }
    } else {
      var b :| b in found;
      assert Remembered(s, port, peer, b) || Resolved(w.relay, peer, reply, b);
    }
  }

  /** One attempt at a peer, act by act: the hub is asked about the peer alone; then one
      race is held over exactly the address remembered for it, tagged with its id, and every
      address the hub gives for it, or over the circuit to it if there is none of these. */
  lemma ReachShape(w: World, s: Store, t: Trace, port: Port, peer: PeerId) returns (routes: set<Multiaddr>)
    ensures var r := TryReach(w, s, t, port, peer);
            var reply := w.net.resolve(t, [peer]);
            && RacedTo(w, t + [Resolving([peer], reply)], routes, r.trace, r.peer)
            && routes != {} && forall a :: a in routes <==> Reachable(w, s, port, peer, reply, a)
  {
    var reply := w.net.resolve(t, [peer]);
    routes := ReachRoutes(w.relay, s, port, peer, UsableRoutes(w.relay, [peer], reply));
    ReachRoutesExactly(w, s, port, peer, reply);
    RaceShape(w, t + [Resolving([peer], reply)], routes);
  }

  /** A remembered address that passes no relay is dialled at once, whatever the hub says,
      unless it ends in another peer's id. */
  lemma RememberedIsDialled(w: World, s: Store, t: Trace, port: Port, peer: PeerId, a: Multiaddr)
    requires Remembered(s, port, peer, a) && P2pCircuit !in a
    ensures var u := TryReach(w, s, t, port, peer).trace;
            |t| + 2 < |u| && u[|t| + 2].Dialling? && a in u[|t| + 2].addresses
  {
    var routes := ReachShape(w, s, t, port, peer);
    assert Reachable(w, s, port, peer, w.net.resolve(t, [peer]), a);
    assert a in routes && (P2pCircuit in a <==> false);
    assert HasHalf(routes, false);
  }

  /** The direct address observed for a pool member is dialled by a later attempt at it,
      through any history in which the peer stays in that pool and is not observed elsewhere. */
  lemma ObservedAddressIsDialled(w: World, s: Store, t: Trace, port: Port, fp: string, peer: PeerId,
                                 known: Multiaddr, a: Multiaddr, ops: seq<Op>, large: bool)
    requires Distinct(s) && Tagged(known, peer, a) && P2pCircuit !in a
    requires forall k :: 0 <= k <= |ops| ==> peer in PoolIds(NotedThen(s, peer, known, ops[..k], large), port, fp)
    requires forall i :: 0 <= i < |ops| && ops[i].NoteOp? ==> ops[i].peer != peer
    ensures var u := TryReach(w, NotedThen(s, peer, known, ops, large), t, port, peer).trace;
            |t| + 2 < |u| && u[|t| + 2].Dialling? && a in u[|t| + 2].addresses
  {
    ObservedAddressIsRecalled(s, port, fp, peer, known, ops, large);
    RememberedIsDialled(w, NotedThen(s, peer, known, ops, large), t, port, peer, a);
  }

  /** The hub does not answer, and the peer can be reached through the relay alone. */
  ghost predicate OnlyCircuitAnswers(w: World, peer: PeerId) {
    && (forall t, peers :: w.net.resolve(t, peers) == Err(Timeout))
    && (forall t, a :: w.net.dial(t, a) == Ok(if CircuitTo(w.relay, peer) in a then Some(peer) else None))
  }

  /** When the hub does not answer, a remembered address is dialled without the circuit to the
      peer beside it: a peer that only the circuit reaches is reached if and only if no other
      address is remembered for it. */
  lemma StaleAddressHidesCircuit(w: World, s: Store, t: Trace, port: Port, peer: PeerId)
    requires OnlyCircuitAnswers(w, peer)
    ensures TryReach(w, s, t, port, peer).peer
            == if forall a :: Remembered(s, port, peer, a) ==> a == CircuitTo(w.relay, peer) then Some(peer) else None
  {
    var circuit := CircuitTo(w.relay, peer);
    var reply := w.net.resolve(t, [peer]);
    var routes := ReachShape(w, s, t, port, peer);
    assert circuit[|w.relay|] == P2pCircuit;
    forall a ensures a in routes <==> Reachable(w, s, port, peer, reply, a) {}
    if forall a :: Remembered(s, port, peer, a) ==> a == circuit {
      assert Reachable(w, s, port, peer, reply, circuit);
      assert forall a :: a in routes ==> a == circuit;
      assert !HasHalf(routes, false);
    } else {
      var a :| Remembered(s, port, peer, a) && a != circuit;
      assert !Reachable(w, s, port, peer, reply, circuit);
    }
  }

  /** There is such a world, and it keeps the contracts. */
  ghost function CircuitNet(relay: Multiaddr, peer: PeerId): Net {
    Net((t, peers) => Err(Timeout), (t, server, n) => Err(Timeout),
        (t, a) => Ok(if CircuitTo(relay, peer) in a then Some(peer) else None),
        (t, x) => false, t => |t|, (t, ports) => [])
  }

  lemma CircuitNetIsHonest(relay: Multiaddr, peer: PeerId)
    ensures var net := CircuitNet(relay, peer);
            HonestDialer(net) && HonestHub(net) && OnlyCircuitAnswers(World(net, relay), peer)
  {
    var net := CircuitNet(relay, peer);
    var circuit := CircuitTo(relay, peer);
    assert circuit[|circuit| - 1] == P2p(peer);
    forall t, a | net.dial(t, a).Ok? ensures AnswerAllowed(a, net.dial(t, a).value) {
      if circuit in a { assert LastP2p(circuit) == Some(peer); }
    }
  }

  // ---------- one query of the hub ----------

  /** The route is an address of some candidate, or the circuit to one that lists none. */
  predicate Offers(relay: Multiaddr, candidates: seq<PoolPeer>, a: Multiaddr) {
    exists c :: c in candidates && CandidateAt(relay, c, a)
  }

  predicate CandidateAt(relay: Multiaddr, c: PoolPeer, a: Multiaddr) {
    if c.addresses == [] then a == CircuitTo(relay, c.peerId) else a in c.addresses
  }

  lemma CandidatesExactly(relay: Multiaddr, candidates: seq<PoolPeer>, a: Multiaddr)
    ensures a in CandidateAddresses(relay, candidates) <==> Offers(relay, candidates, a)
  {
    forall c | c in candidates ensures a in AddressesOf(relay, c) <==> CandidateAt(relay, c, a) {
      CircuitIsSynthesized(relay, c.peerId);
    }
  }

  /** One round of discovery, act by act: the hub is asked for 25 exits; what it offers is
      shown and raced all at once, each candidate on its own addresses or, if it lists none,
      on the circuit to it; with no offer the round ends in a sleep of one second. */
  lemma RoundShape(w: World, t: Trace, server: Server)
    ensures var r := DiscoverOnce(w, t, server);
            var found := w.net.findNodes(t, server, 25);
            var asked := t + [FindingNodes(server.port, 25, found)];
            if found.Err? then r == Reach(asked + [Sleeping(1_000_000_000)], None)
            else
              var shown := asked + [Emitting(ServerPool(server.port, found.value))];
              if found.value == [] then r == Reach(shown + [Sleeping(1_000_000_000)], None)
              else exists routes :: RacedTo(w, shown, routes, r.trace, r.peer) && RoutesOffered(w, found.value, routes)
  {
    var found := w.net.findNodes(t, server, 25);
    if found.Ok? && found.value != [] {
      var shown := t + [FindingNodes(server.port, 25, found)] + [Emitting(ServerPool(server.port, found.value))];
      var routes := CandidateAddresses(w.relay, found.value);
      forall a ensures a in routes <==> Offers(w.relay, found.value, a) {
        CandidatesExactly(w.relay, found.value, a);
      }
      RaceShape(w, shown, routes);
      hide CandidateAddresses, RacedTo;
      assert DiscoverOnce(w, t, server) == DialRoutes(w, shown, routes);
      assert RoutesOffered(w, found.value, routes);
    }
  }

  ghost predicate RoutesOffered(w: World, candidates: seq<PoolPeer>, routes: set<Multiaddr>) {
    forall a :: a in routes <==> Offers(w.relay, candidates, a)
  }

  // ---------- one pass over the pins ----------

  /** A route of a pin: its own address, or what the hub's reply holds for that peer. */
  predicate PinRoute(relay: Multiaddr, entry: DestinationPeerEntry, reply: Result<Routes, DirectoryError>,
                     a: Multiaddr) {
    || entry.address == Some(a)
    || match reply
       case Ok(routes) => entry.peerId in routes && a in routes[entry.peerId]
       case Err(e) => e == Unsupported && a == CircuitTo(relay, entry.peerId)
  }

  ghost predicate PinRoutes(relay: Multiaddr, entry: DestinationPeerEntry, reply: Result<Routes, DirectoryError>,
                            routes: set<Multiaddr>) {
    forall a :: a in routes <==> PinRoute(relay, entry, reply, a)
  }

  lemma PinRoutesExactly(relay: Multiaddr, pinned: seq<DestinationPeerEntry>, k: nat,
                         reply: Result<Routes, DirectoryError>)
    requires k < |pinned|
    ensures PinRoutes(relay, pinned[k], reply, CandidateRoutes(pinned[k],
            UsableRoutes(relay, PinnedIdSeq(pinned), reply)))
  {
    var ids, peer := PinnedIdSeq(pinned), pinned[k].peerId;
    CircuitIsSynthesized(relay, peer);
    assert ids[k] == peer && peer in ids;
  }

  /** The rows shown to the operator: rank by rank, resolvable exactly if there is a route. */
  ghost predicate RowsOf(relay: Multiaddr, pinned: seq<DestinationPeerEntry>, reply: Result<Routes, DirectoryError>,
                         rows: seq<PinnedPeerStatus>) {
    && |rows| == |pinned|
    && forall k :: 0 <= k < |rows| ==>
      && rows[k].peerId == pinned[k].peerId && rows[k].rank == k
      && (rows[k].resolvable <==> exists a :: PinRoute(relay, pinned[k], reply, a))
  }

  /** The entry has no route, or a race was held over exactly its routes. */
  ghost predicate PinRaced(w: World, entry: DestinationPeerEntry, reply: Result<Routes, DirectoryError>, u: Trace,
                           from: nat) {
    || PinRoutes(w.relay, entry, reply, {})
    || exists i :: from <= i < |u| && u[i].Racing? && PinRoutes(w.relay, entry, reply, u[i].route)
  }

  lemma PinRacedLater(w: World, entry: DestinationPeerEntry, reply: Result<Routes, DirectoryError>, u: Trace,
                      v: Trace, from: nat, since: nat)
    requires PinRaced(w, entry, reply, u, from) && u <= v && since <= from
    ensures PinRaced(w, entry, reply, v, since)
  {
    hide PinRoutes;
    if !PinRoutes(w.relay, entry, reply, {}) {
      var i :| from <= i < |u| && u[i].Racing? && PinRoutes(w.relay, entry, reply, u[i].route);
      assert v[i] == u[i];
    }
  }

  lemma {:induction false} RanksRaced(w: World, t: Trace, pinned: seq<DestinationPeerEntry>,
                                      reply: Result<Routes, DirectoryError>, rank: nat, k: nat)
    requires rank <= k < |pinned|
    requires var r := TryRanks(w, t, pinned, UsableRoutes(w.relay, PinnedIdSeq(pinned), reply), rank);
             r.peer.Some? ==> k <= r.rank
    ensures PinRaced(w, pinned[k], reply, TryRanks(w, t, pinned, UsableRoutes(w.relay, PinnedIdSeq(pinned), reply),
            rank).trace, |t|)
    decreases |pinned| - rank
  {
    hide UsableRoutes, CandidateRoutes, PinRoutes, PinRaced;
    var routes := UsableRoutes(w.relay, PinnedIdSeq(pinned), reply);
    var candidate := CandidateRoutes(pinned[rank], routes);
    var r := TryRanks(w, t, pinned, routes, rank);
    if rank == k {
      PinRoutesExactly(w.relay, pinned, k, reply);
      RankRaced(w, t, pinned[k], reply, candidate, r.trace);
    } else if candidate == {} {
      RanksRaced(w, t, pinned, reply, rank + 1, k);
    } else {
      var race := DialRoutes(w, t, candidate);
      RanksRaced(w, race.trace, pinned, reply, rank + 1, k);
      PinRacedLater(w, pinned[k], reply, r.trace, r.trace, |race.trace|, |t|);
    }
  }

  lemma RankRaced(w: World, t: Trace, entry: DestinationPeerEntry, reply: Result<Routes, DirectoryError>,
                  candidate: set<Multiaddr>, u: Trace)
    requires PinRoutes(w.relay, entry, reply, candidate)
    requires candidate != {} ==> DialRoutes(w, t, candidate).trace <= u
    ensures PinRaced(w, entry, reply, u, |t|)
  {
    hide PinRoutes;
    if candidate != {} {
      assert u[|t|] == Racing(candidate);
    }
  }

  /** One pass over the pins, act by act: the hub is asked about all of them, in rank order;
      each is shown with its rank and whether it has a route; and every rank up to the one
      that connects is raced over exactly its own address and what the hub gave for it. */
  lemma PassShape(w: World, t: Trace, server: Server) returns (rows: seq<PinnedPeerStatus>)
    ensures var r := PinnedPass(w, t, server);
            var pinned := server.Pinned();
            var ids := seq(|pinned|, i requires 0 <= i < |pinned| => pinned[i].peerId);
            var reply := w.net.resolve(t, ids);
            && t + [Resolving(ids, reply)] + [Emitting(PinnedPeerStatuses(server.port, rows))] <= r.trace
            && RowsOf(w.relay, pinned, reply, rows)
            && (forall k :: 0 <= k < |pinned| && (r.peer.Some? ==> k <= r.rank) ==>
                  PinRaced(w, pinned[k], reply, r.trace, |t| + 2))
  {
    var pinned := server.Pinned();
    var ids := PinnedIdSeq(pinned);
    var reply := w.net.resolve(t, ids);
    var start := PinnedPrelude(w, t, server.port, pinned);
    rows := Statuses(pinned, PinnedRoutes(w, t, pinned));
    assert ids == seq(|pinned|, i requires 0 <= i < |pinned| => pinned[i].peerId);
    forall k | 0 <= k < |rows| ensures rows[k].resolvable <==> exists a :: PinRoute(w.relay, pinned[k], reply, a) {
      PinRoutesExactly(w.relay, pinned, k, reply);
      RowExactly(w.relay, pinned[k], reply, CandidateRoutes(pinned[k], PinnedRoutes(w, t, pinned)));
    }
    hide PinRoute, UsableRoutes, CandidateRoutes, PinRaced, TryRanks;
    var r := PinnedPass(w, t, server);
    forall k | 0 <= k < |pinned| && (r.peer.Some? ==> k <= r.rank)
      ensures PinRaced(w, pinned[k], reply, r.trace, |t| + 2)
    {
      RanksRaced(w, start, pinned, reply, 0, k);
    }
  }

  lemma RowExactly(relay: Multiaddr, entry: DestinationPeerEntry, reply: Result<Routes, DirectoryError>,
                   routes: set<Multiaddr>)
    requires PinRoutes(relay, entry, reply, routes)
    ensures routes != {} <==> exists a :: PinRoute(relay, entry, reply, a)
  {
    hide PinRoute;
    if routes != {} {
      var a :| a in routes;
      assert PinRoute(relay, entry, reply, a);
    }
  }

  // ---------- a pin is reached by its own address ----------

  /** The hub resolves nobody; the pin of rank k answers at its own address; no earlier pin
      answers or is connected. */
  ghost predicate AnswersAlone(w: World, pinned: seq<DestinationPeerEntry>, k: nat) {
    && k < |pinned| && pinned[k].address.Some?
    && (forall t, ids :: w.net.resolve(t, ids) == Err(Timeout))
    && (forall t, a :: pinned[k].address.value in a ==> w.net.dial(t, a) == Ok(Some(pinned[k].peerId)))
    && (forall j, t :: 0 <= j < k && pinned[j].address.Some? ==>
          Reached(w.net.dial(t, {pinned[j].address.value})).None?)
    && (forall j, t :: 0 <= j < k ==> !w.net.isConnected(t, pinned[j].peerId))
  }

  lemma OwnAddressRaced(w: World, t: Trace, a: Multiaddr)
    ensures exists t' :: DialRoutes(w, t, {a}).peer == Reached(w.net.dial(t', {a}))
  {
    var t0 := t + [Racing({a})];
    if IsRelayed(a) {
      assert Direct({a}) == {} && Relayed({a}) == {a};
    } else {
      assert Direct({a}) == {a} && Relayed({a}) == {};
    }
    assert DialRoutes(w, t, {a}).peer == Reached(w.net.dial(t0, {a}));
  }

  lemma {:induction false} RanksAnswer(w: World, t: Trace, pinned: seq<DestinationPeerEntry>, k: nat, rank: nat)
    requires AnswersAlone(w, pinned, k) && rank <= k
    ensures var r := TryRanks(w, t, pinned, map[], rank); r.peer == Some(pinned[k].peerId) && r.rank == k
    decreases k - rank
  {
    hide DialRoutes;
    var own := pinned[rank].address;
    var candidate := CandidateRoutes(pinned[rank], map[]);
    if own.Some? {
      assert candidate == {own.value};
      OwnAddressRaced(w, t, own.value);
    } else {
      assert candidate == {};
    }
    if rank < k {
      RanksAnswer(w, if own.Some? then DialRoutes(w, t, candidate).trace else t, pinned, k, rank + 1);
    }
  }

  lemma {:induction false} NobodyBetter(w: World, t: Trace, pinned: seq<DestinationPeerEntry>, k: nat, better: nat,
                                        peer: PeerId)
    requires k < |pinned| && AnswersAlone(w, pinned, k) && better <= k
    ensures var r := AdoptBest(w, t, pinned, better, k, peer); r.rank == k && r.peer == Some(peer)
    decreases k - better
  {
    hide AnswersAlone;
    if better < k {
      NotConnected(w, t, pinned, k, better);
      NobodyBetter(w, t + [AskingConnected(pinned[better].peerId, false)], pinned, k, better + 1, peer);
    }
  }

  lemma NotConnected(w: World, t: Trace, pinned: seq<DestinationPeerEntry>, k: nat, better: nat)
    requires AnswersAlone(w, pinned, k) && better < k
    ensures !w.net.isConnected(t, pinned[better].peerId)
  {
  }

  /** A pin that answers at its own address becomes the exit without any help of the hub,
      unless a better rank does. */
  lemma PinAnswersItself(w: World, s: Store, t: Trace, server: Server, avoid: Option<PeerId>, k: nat)
    requires AnswersAlone(w, server.Pinned(), k)
    ensures Connect(w, s, t, server, avoid).result
            == Ok(ConnectedDestination(server.Pinned()[k].peerId, Pinned(k)))
  {
    var pinned := server.Pinned();
    assert PinnedRoutes(w, t, pinned) == map[];
    RanksAnswer(w, PinnedPrelude(w, t, server.port, pinned), pinned, k, 0);
    var tried := PinnedPass(w, t, server);
    NobodyBetter(w, tried.trace, pinned, k, 0, tried.peer.value);
  }
}

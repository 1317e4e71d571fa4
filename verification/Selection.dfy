/** Peer ids, multiaddrs, and the pure route-selection functions.
    An address is the sequence of its protocol components; only `/p2p/<id>` and
    `/p2p-circuit` are told apart, every other component is `Other`. */
module Selection {
  import opened Wrappers

  datatype PeerId = PeerId(key: nat)

  type Port = nat

  datatype Component = P2p(peer: PeerId) | P2pCircuit | Other(tag: nat)

  type Multiaddr = seq<Component>

  /** One entry of an operator's preference list. */
  datatype DestinationPeerEntry = DestinationPeerEntry(peerId: PeerId, address: Option<Multiaddr>)

  predicate IsRelayed(addr: Multiaddr) {
    P2pCircuit in addr
  }

  function LastP2p(addr: Multiaddr): Option<PeerId> {
    if addr == [] then None
    else if addr[|addr| - 1].P2p? then Some(addr[|addr| - 1].peer)
    else LastP2p(addr[..|addr| - 1])
  }

  function DestinationPeerIds(addresses: set<Multiaddr>): set<PeerId> {
    set a | a in addresses && LastP2p(a).Some? :: LastP2p(a).value
  }

  /** Appends `/p2p/<peer>` unless the address already ends in it; an address
      ending in a different id is refused. */
  function WithP2p(addr: Multiaddr, peer: PeerId): Option<Multiaddr> {
    if addr != [] && addr[|addr| - 1].P2p? then
      if addr[|addr| - 1].peer == peer then Some(addr) else None
    else
      Some(addr + [P2p(peer)])
  }

  function SynthesizeCircuit(relay: Multiaddr, peer: PeerId): Option<Multiaddr> {
    WithP2p(relay + [P2pCircuit], peer)
  }

  function RoutesOf(resolved: map<PeerId, seq<Multiaddr>>, peer: PeerId): set<Multiaddr> {
    if peer in resolved then set a | a in resolved[peer] else {}
  }

  function CandidateRoutes(entry: DestinationPeerEntry, resolved: map<PeerId, seq<Multiaddr>>): set<Multiaddr> {
    RoutesOf(resolved, entry.peerId) + (if entry.address.Some? then {entry.address.value} else {})
  }

  function Direct(addresses: set<Multiaddr>): set<Multiaddr> {
    set a | a in addresses && !IsRelayed(a)
  }

  function Relayed(addresses: set<Multiaddr>): set<Multiaddr> {
    set a | a in addresses && IsRelayed(a)
  }

  /** An entry is for the final peer of its address. Unless the address consists of that
      one component, it is kept as a route to dial. */
  function FromMultiaddr(addr: Multiaddr): Option<DestinationPeerEntry> {
    match LastP2p(addr)
    case None => None
    case Some(peer) => Some(DestinationPeerEntry(peer, if |addr| == 1 then None else Some(addr)))
  }

  /** The route leads to `peer`, or names nobody. */
  predicate LeadsTo(addr: Multiaddr, peer: PeerId) {
    LastP2p(addr) in {None, Some(peer)}
  }

  /** What parsing guarantees of an entry: a verbatim address leads to its peer. */
  predicate ValidEntry(entry: DestinationPeerEntry) {
    entry.address.Some? ==> LastP2p(entry.address.value) == Some(entry.peerId)
  }

  // ---------- laws ----------

  lemma {:induction false} LastP2pCharacterised(addr: Multiaddr, peer: PeerId)
    ensures LastP2p(addr) == Some(peer) <==>
            exists i :: 0 <= i < |addr| && addr[i] == P2p(peer) && forall j :: i < j < |addr| ==> !addr[j].P2p?
  {
    if addr != [] && !addr[|addr| - 1].P2p? {
      var front := addr[..|addr| - 1];
      LastP2pCharacterised(front, peer);
      if i :| 0 <= i < |addr| && addr[i] == P2p(peer) && forall j :: i < j < |addr| ==> !addr[j].P2p? {
        assert front[i] == P2p(peer);
      }
      if i :| 0 <= i < |front| && front[i] == P2p(peer) && forall j :: i < j < |front| ==> !front[j].P2p? {
        assert addr[i] == P2p(peer);
      }
    } else if addr != [] {
      assert addr[|addr| - 1].P2p?;
    }
  }

  lemma WithP2pLeadsToPeer(addr: Multiaddr, peer: PeerId)
    ensures var tagged := WithP2p(addr, peer);
            && (tagged.Some? ==> LastP2p(tagged.value) == Some(peer) && IsRelayed(tagged.value) == IsRelayed(addr))
            && (tagged.None? <==> exists q :: q != peer && addr != [] && addr[|addr| - 1] == P2p(q))
  {
    if addr != [] && addr[|addr| - 1].P2p? {
      var q := addr[|addr| - 1].peer;
      assert addr[|addr| - 1] == P2p(q);
    } else {
      assert (addr + [P2p(peer)])[|addr|] == P2p(peer);
    }
  }

  /** The synthesized route always exists, is relayed, and its only dial target is
      the peer: the relay's own id never enters the dial set. */
  lemma SynthesizedCircuitTargetsPeer(relay: Multiaddr, peer: PeerId)
    ensures var circuit := SynthesizeCircuit(relay, peer);
            circuit.Some? && IsRelayed(circuit.value) && DestinationPeerIds({circuit.value}) == {peer}
  {
    var hop := relay + [P2pCircuit];
    assert hop[|relay|] == P2pCircuit;
    WithP2pLeadsToPeer(hop, peer);
    var circuit := SynthesizeCircuit(relay, peer).value;
    assert circuit in {circuit};
  }

  lemma FromMultiaddrIsValid(addr: Multiaddr)
    ensures var entry := FromMultiaddr(addr);
            && (entry.Some? <==> exists q :: P2p(q) in addr)
            && (entry.Some? ==> ValidEntry(entry.value) && Some(entry.value.peerId) == LastP2p(addr))
            && (entry.Some? ==> (entry.value.address == None <==> addr == [P2p(entry.value.peerId)]))
  {
    P2pPresence(addr);
    if LastP2p(addr).Some? && |addr| == 1 {
      assert addr[0].P2p?;
    }
  }

  lemma {:induction false} P2pPresence(addr: Multiaddr)
    ensures LastP2p(addr).Some? <==> exists q :: P2p(q) in addr
  {
    if addr != [] {
      var front, last := addr[..|addr| - 1], addr[|addr| - 1];
      assert addr == front + [last];
      if last.P2p? {
        assert P2p(last.peer) in addr;
      } else {
        P2pPresence(front);
        if q :| P2p(q) in addr { assert P2p(q) in front; }
        if q :| P2p(q) in front { assert P2p(q) in addr; }
      }
    }
  }

  /** The split is exact: nothing is lost, nothing is in both halves. */
  lemma PartitionIsExact(addresses: set<Multiaddr>)
    ensures Direct(addresses) + Relayed(addresses) == addresses
    ensures Direct(addresses) !! Relayed(addresses)
    ensures Direct(Relayed(addresses)) == {} && Relayed(Direct(addresses)) == {}
  {
  }

  /** Routes that all lead to one peer can only be answered by that peer. */
  lemma OnlyTarget(addresses: set<Multiaddr>, peer: PeerId)
    requires forall a :: a in addresses ==> LeadsTo(a, peer)
    ensures DestinationPeerIds(addresses) <= {peer}
    ensures DestinationPeerIds(Direct(addresses)) <= {peer} && DestinationPeerIds(Relayed(addresses)) <= {peer}
  {
    forall q | q in DestinationPeerIds(addresses) ensures q == peer {
      var a :| a in addresses && LastP2p(a) == Some(q);
      assert LeadsTo(a, peer);
    }
    assert DestinationPeerIds(Direct(addresses)) <= DestinationPeerIds(addresses);
    assert DestinationPeerIds(Relayed(addresses)) <= DestinationPeerIds(addresses);
  }
}

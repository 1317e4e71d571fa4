/** The sticky store: per listen port, a most-recently-used pool of proven exits,
    keyed by the fingerprint of the filters they were chosen under. */
module Sticky {
  import opened Wrappers
  import opened Selection
  import opened Sequences

  datatype StickyPeer = StickyPeer(peerId: PeerId, address: Option<Multiaddr>)

  datatype StickyPool = StickyPool(fingerprint: string, peers: seq<StickyPeer>)

  type Store = map<Port, StickyPool>

  datatype PoolPeer = PoolPeer(peerId: PeerId, addresses: seq<Multiaddr>)

  // ---------- what each operation does to the store ----------

  function Ids(peers: seq<StickyPeer>): seq<PeerId> {
    seq(|peers|, i requires 0 <= i < |peers| => peers[i].peerId)
  }

  /** The remembered exits that are still valid under the current filters. */
  function PoolIds(s: Store, port: Port, fp: string): seq<PeerId> {
    if port in s && s[port].fingerprint == fp then Ids(s[port].peers) else []
  }

  /** Reading a pool under different filters drops it. */
  function Invalidate(s: Store, port: Port, fp: string): Store {
    if port in s && s[port].fingerprint != fp then s - {port} else s
  }

  function Position(peers: seq<StickyPeer>, peer: PeerId): (i: nat)
    ensures i <= |peers|
    ensures forall j :: 0 <= j < i ==> peers[j].peerId != peer
    ensures i < |peers| ==> peers[i].peerId == peer
  {
    if peers == [] || peers[0].peerId == peer then 0 else 1 + Position(peers[1..], peer)
  }

  function Promote(peers: seq<StickyPeer>, peer: PeerId, max: nat): seq<StickyPeer> {
    var i := Position(peers, peer);
    var promoted :=
      if i < |peers| then [peers[i]] + (peers[..i] + peers[i + 1..])
      else [StickyPeer(peer, None)] + peers;
    Take(promoted, if max < 1 then 1 else max)
  }

  function Remember(s: Store, port: Port, fp: string, peer: PeerId, max: nat): Store {
    var peers := if port in s && s[port].fingerprint == fp then s[port].peers else [];
    s[port := StickyPool(fp, Promote(peers, peer, max))]
  }

  function Retain(peers: seq<StickyPeer>, gone: PeerId): seq<StickyPeer> {
    if peers == [] then []
    else if peers[0].peerId == gone then Retain(peers[1..], gone)
    else [peers[0]] + Retain(peers[1..], gone)
  }

  function Forget(s: Store, port: Port, peer: PeerId): Store {
    if port !in s then s
    else
      var peers := Retain(s[port].peers, peer);
      if peers == [] then s - {port} else s[port := s[port].(peers := peers)]
  }

  function NoteIn(pool: StickyPool, peer: PeerId, address: Multiaddr): StickyPool {
    var i := Position(pool.peers, peer);
    if i < |pool.peers| then pool.(peers := pool.peers[i := StickyPeer(peer, Some(address))]) else pool
  }

  function Note(s: Store, peer: PeerId, address: Multiaddr): Store {
    map port | port in s :: NoteIn(s[port], peer, address)
  }

  function DirectAddress(s: Store, port: Port, peer: PeerId): Option<Multiaddr> {
    if port !in s then None
    else
      var i := Position(s[port].peers, peer);
      if i < |s[port].peers| then s[port].peers[i].address else None
  }

  function Snapshot(s: Store, port: Port, fp: string): seq<PoolPeer> {
    if port in s && s[port].fingerprint == fp then
      var peers := s[port].peers;
      seq(|peers|, i requires 0 <= i < |peers| =>
        PoolPeer(peers[i].peerId, if peers[i].address.Some? then [peers[i].address.value] else []))
    else []
  }

  // ---------- the same operations seen through the pool of ids ----------

  lemma {:induction false} RetainIds(peers: seq<StickyPeer>, gone: PeerId)
    ensures Ids(Retain(peers, gone)) == Without(Ids(peers), gone)
    ensures forall e :: e in Retain(peers, gone) <==> e in peers && e.peerId != gone
  {
    if peers != [] {
      RetainIds(peers[1..], gone);
      assert Ids(peers)[1..] == Ids(peers[1..]);
      assert peers == [peers[0]] + peers[1..];
      if peers[0].peerId != gone {
        assert Ids([peers[0]] + Retain(peers[1..], gone)) == [peers[0].peerId] + Ids(Retain(peers[1..], gone));
      }
    }
  }

  lemma PromoteIds(peers: seq<StickyPeer>, peer: PeerId, max: nat)
    requires NoDuplicates(Ids(peers))
    ensures Ids(Promote(peers, peer, max)) == MoveToFront(Ids(peers), peer, max)
  {
    var ids, i := Ids(peers), Position(peers, peer);
    if i < |peers| {
      assert ids[i] == peer;
      WithoutAt(ids, i);
      assert Ids([peers[i]] + (peers[..i] + peers[i + 1..])) == [peer] + (ids[..i] + ids[i + 1..]);
    } else {
      forall j | 0 <= j < |ids| ensures ids[j] != peer { assert peers[j].peerId != peer; }
      WithoutAbsent(ids, peer);
      assert Ids([StickyPeer(peer, None)] + peers) == [peer] + ids;
    }
    var cap := if max < 1 then 1 else max;
    forall s: seq<StickyPeer> ensures Ids(Take(s, cap)) == Take(Ids(s), cap) {}
  }

  ghost predicate Distinct(s: Store) {
    forall port :: port in s ==> NoDuplicates(Ids(s[port].peers))
  }

  lemma RememberView(s: Store, port: Port, fp: string, peer: PeerId, max: nat)
    requires Distinct(s)
    ensures Distinct(Remember(s, port, fp, peer, max))
    ensures PoolIds(Remember(s, port, fp, peer, max), port, fp) == MoveToFront(PoolIds(s, port, fp), peer, max)
    ensures port in Remember(s, port, fp, peer, max) && Remember(s, port, fp, peer, max)[port].fingerprint == fp
  {
    var peers := if port in s && s[port].fingerprint == fp then s[port].peers else [];
    assert Ids([]) == [];
    PromoteIds(peers, peer, max);
    MoveToFrontMembers(Ids(peers), peer, max);
  }

  lemma ForgetView(s: Store, port: Port, fp: string, peer: PeerId)
    requires Distinct(s)
    ensures Distinct(Forget(s, port, peer))
    ensures PoolIds(Forget(s, port, peer), port, fp) == Without(PoolIds(s, port, fp), peer)
  {
    if port in s {
      RetainIds(s[port].peers, peer);
      WithoutNoDuplicates(Ids(s[port].peers), peer);
      if Retain(s[port].peers, peer) == [] {
        assert Ids(Retain(s[port].peers, peer)) == [];
      }
    }
  }

  /** No empty pool is left behind, and no other port is touched. */
  lemma ForgetLeavesNoBlank(s: Store, port: Port, peer: PeerId)
    ensures var s' := Forget(s, port, peer);
            && (port in s' ==> port in s && s'[port].peers != [] && s'[port].fingerprint == s[port].fingerprint)
            && (port !in s' <==> port !in s || forall e :: e in s[port].peers ==> e.peerId == peer)
            && forall p :: p != port ==> (p in s' <==> p in s) && (p in s ==> s'[p] == s[p])
  {
    if port in s {
      RetainIds(s[port].peers, peer);
      var kept := Retain(s[port].peers, peer);
      if kept != [] { assert kept[0] in kept; }
    }
  }

  lemma NoteView(s: Store, peer: PeerId, address: Multiaddr)
    ensures Note(s, peer, address).Keys == s.Keys
    ensures forall port :: port in s ==> Note(s, peer, address)[port].fingerprint == s[port].fingerprint
    ensures forall port :: port in s ==> Ids(Note(s, peer, address)[port].peers) == Ids(s[port].peers)
    ensures forall port, fp :: PoolIds(Note(s, peer, address), port, fp) == PoolIds(s, port, fp)
    ensures Distinct(s) ==> Distinct(Note(s, peer, address))
  {
    var noted := Note(s, peer, address);
    forall port | port in s ensures Ids(noted[port].peers) == Ids(s[port].peers) {
      assert noted[port] == NoteIn(s[port], peer, address);
    }
    forall port, fp ensures PoolIds(noted, port, fp) == PoolIds(s, port, fp) {
      if port in s { assert Ids(noted[port].peers) == Ids(s[port].peers); }
    }
  }

  lemma InvalidateView(s: Store, port: Port, fp: string)
    requires Distinct(s)
    ensures Distinct(Invalidate(s, port, fp))
    ensures PoolIds(Invalidate(s, port, fp), port, fp) == PoolIds(s, port, fp)
    ensures port in Invalidate(s, port, fp) ==> Invalidate(s, port, fp)[port].fingerprint == fp
  {
  }

  // ---------- the store as an object ----------

  class StickyState {
    var pools: Store

    constructor (pools: Store)
      ensures this.pools == pools
    {
      this.pools := pools;
    }

    method Pool(port: Port, fingerprint: string) returns (ids: seq<PeerId>)
      modifies this
      ensures ids == PoolIds(old(pools), port, fingerprint)
      ensures pools == Invalidate(old(pools), port, fingerprint)
    {
      if port !in pools {
        return [];
      }
      if pools[port].fingerprint == fingerprint {
        return Ids(pools[port].peers);
      }
      pools := pools - {port};
      ids := [];
    }

    method DirectAddressOf(port: Port, peer: PeerId) returns (address: Option<Multiaddr>)
      ensures address == DirectAddress(pools, port, peer)
    {
      if port !in pools {
        return None;
      }
      var peers := pools[port].peers;
      var i := 0;
      while i < |peers| && peers[i].peerId != peer
        invariant 0 <= i <= |peers|
        invariant forall j :: 0 <= j < i ==> peers[j].peerId != peer
      {
        i := i + 1;
      }
      address := if i < |peers| then peers[i].address else None;
    }

    method RememberPeer(port: Port, fingerprint: string, peer: PeerId, max: nat) returns (changed: bool)
      modifies this
      ensures pools == Remember(old(pools), port, fingerprint, peer, max)
      ensures changed <==> var ids := PoolIds(old(pools), port, fingerprint); ids == [] || ids[0] != peer
    {
      var cap := if max < 1 then 1 else max;
      var pool := if port in pools then pools[port] else StickyPool(fingerprint, []);
      if pool.fingerprint != fingerprint {
        pool := StickyPool(fingerprint, []);
      }
      var wasFront := pool.peers != [] && pool.peers[0].peerId == peer;
      var i := Position(pool.peers, peer);
      var entry := StickyPeer(peer, None);
      if i < |pool.peers| {
        entry := pool.peers[i];
        pool := pool.(peers := pool.peers[..i] + pool.peers[i + 1..]);
      }
      pool := pool.(peers := [entry] + pool.peers);
      if |pool.peers| > cap {
        pool := pool.(peers := pool.peers[..cap]);
      }
      pools := pools[port := pool];
      changed := !wasFront;
    }

    method NoteDirectAddress(peer: PeerId, address: Multiaddr)
      modifies this
      ensures pools == Note(old(pools), peer, address)
    {
      var todo := pools.Keys;
      while todo != {}
        invariant todo <= pools.Keys == old(pools).Keys
        invariant forall port :: port in pools ==>
                    pools[port] == if port in todo then old(pools)[port] else NoteIn(old(pools)[port], peer, address)
        decreases |todo|
      {
        var port :| port in todo;
        todo := todo - {port};
        var peers := pools[port].peers;
        var i := Position(peers, peer);
        if i < |peers| && peers[i].address != Some(address) {
          pools := pools[port := pools[port].(peers := peers[i := peers[i].(address := Some(address))])];
        }
      }
    }

    method ForgetPeer(port: Port, peer: PeerId)
      modifies this
      ensures pools == Forget(old(pools), port, peer)
    {
      if port !in pools {
        return;
      }
      var kept := Retain(pools[port].peers, peer);
      pools := pools[port := pools[port].(peers := kept)];
      if kept == [] {
        pools := pools - {port};
      }
    }

    method SnapshotOf(port: Port, fingerprint: string) returns (peers: seq<PoolPeer>)
      ensures peers == Snapshot(pools, port, fingerprint)
    {
      if port in pools && pools[port].fingerprint == fingerprint {
        var remembered := pools[port].peers;
        peers := [];
        for i := 0 to |remembered|
          invariant |peers| == i
          invariant forall j :: 0 <= j < i ==> peers[j] == Snapshot(pools, port, fingerprint)[j]
        {
          var known := remembered[i].address;
          peers := peers + [PoolPeer(remembered[i].peerId, if known.Some? then [known.value] else [])];
        }
      } else {
        peers := [];
      }
    }
  }
}

/** Laws of whole operation histories on the sticky store. */
module StickyLaws {
  import opened Wrappers
  import opened Selection
  import opened Sequences
  import opened Sticky

  // ---------- the pool is the recent past ----------

  function RememberAll(s: Store, port: Port, fp: string, history: seq<PeerId>, max: nat): Store {
    if history == [] then s
    else Remember(RememberAll(s, port, fp, history[..|history| - 1], max), port, fp, history[|history| - 1], max)
  }

  /** After any history of adoptions at one fingerprint and cap, the pool is the
      first max(1, cap) distinct peers of the history read backwards. */
  lemma {:induction false} PoolIsRecentHistory(port: Port, fp: string, history: seq<PeerId>, max: nat)
    ensures var s := RememberAll(map[], port, fp, history, max);
            && Distinct(s)
            && PoolIds(s, port, fp) == Take(FirstOccurrences(Reverse(history)), if max < 1 then 1 else max)
  {
    hide Remember, PoolIds, Without, MoveToFront;
    if history == [] {
      NothingRemembered(port, fp);
    } else {
      var before, last := history[..|history| - 1], history[|history| - 1];
      var cap := if max < 1 then 1 else max;
      PoolIsRecentHistory(port, fp, before, max);
      RememberView(RememberAll(map[], port, fp, before, max), port, fp, last, max);
      FirstOccurrencesMembers(Reverse(before));
      MoveAfterCut(FirstOccurrences(Reverse(before)), last, cap);
      assert before + [last] == history;
      RecentSnoc(before, last);
      CapIrrelevant(PoolIds(RememberAll(map[], port, fp, before, max), port, fp), last, max);
    }
  }

  lemma NothingRemembered(port: Port, fp: string)
    ensures Distinct(map[]) && PoolIds(map[], port, fp) == []
  {
  }

  lemma CapIrrelevant<T>(s: seq<T>, x: T, max: nat)
    ensures MoveToFront(s, x, max) == MoveToFront(s, x, if max < 1 then 1 else max)
  {
  }

  lemma RecentSnoc<T>(before: seq<T>, last: T)
    ensures FirstOccurrences(Reverse(before + [last])) == [last] + Without(FirstOccurrences(Reverse(before)), last)
  {
    ReverseSnoc(before, last);
    assert ([last] + Reverse(before))[1..] == Reverse(before);
  }

  lemma {:induction false} ReverseSnoc<T>(s: seq<T>, x: T)
    ensures Reverse(s + [x]) == [x] + Reverse(s)
  {
    if s != [] {
      assert (s + [x])[1..] == s[1..] + [x];
      ReverseSnoc(s[1..], x);
    }
  }

  lemma MoveAfterCut<T>(s: seq<T>, x: T, cap: nat)
    requires cap >= 1 && NoDuplicates(s)
    ensures MoveToFront(Take(s, cap), x, cap) == Take([x] + Without(s, x), cap)
  {
    CutThenRemove(s, x, cap - 1);
    var t, u := Without(Take(s, cap), x), Without(s, x);
    assert Take([x] + t, cap) == [x] + Take(t, cap - 1);
    assert Take([x] + u, cap) == [x] + Take(u, cap - 1);
  }

  // ---------- the inclusion law ----------

  /** One operation of a history; `small` and `large` are the caps the two stores
      are given for a `remember`. */
  datatype Op =
    | RememberOp(port: Port, fp: string, peer: PeerId, small: nat, large: nat)
    | ForgetOp(port: Port, peer: PeerId)
    | PoolOp(port: Port, fp: string)
    | NoteOp(peer: PeerId, address: Multiaddr)

  function Perform(s: Store, op: Op, large: bool): Store {
    match op
    case RememberOp(port, fp, peer, m, n) => Remember(s, port, fp, peer, if large then n else m)
    case ForgetOp(port, peer) => Forget(s, port, peer)
    case PoolOp(port, fp) => Invalidate(s, port, fp)
    case NoteOp(peer, address) => Note(s, peer, address)
  }

  function PerformAll(s: Store, ops: seq<Op>, large: bool): Store {
    if ops == [] then s
    else Perform(PerformAll(s, ops[..|ops| - 1], large), ops[|ops| - 1], large)
  }

  ghost predicate CapsOrdered(ops: seq<Op>) {
    forall i :: 0 <= i < |ops| && ops[i].RememberOp? ==> ops[i].small <= ops[i].large
  }

  /** Every pool of the small store is a prefix of the large store's pool. */
  ghost predicate Included(small: Store, large: Store) {
    forall port :: port in small ==>
      && port in large
      && small[port].fingerprint == large[port].fingerprint
      && IsPrefix(Ids(small[port].peers), Ids(large[port].peers))
  }

  /** A store that only ever differed from another by smaller caps holds, at every
      point of any common history, a prefix of the other's pools. */
  lemma {:induction false} InclusionLaw(s: Store, ops: seq<Op>, port: Port, fp: string)
    requires Distinct(s) && CapsOrdered(ops)
    ensures Distinct(PerformAll(s, ops, false)) && Distinct(PerformAll(s, ops, true))
    ensures Included(PerformAll(s, ops, false), PerformAll(s, ops, true))
    ensures IsPrefix(PoolIds(PerformAll(s, ops, false), port, fp), PoolIds(PerformAll(s, ops, true), port, fp))
  {
    if ops != [] {
      var front, op := ops[..|ops| - 1], ops[|ops| - 1];
      InclusionLaw(s, front, port, fp);
      PerformDistinct(PerformAll(s, front, false), op, false);
      PerformDistinct(PerformAll(s, front, true), op, true);
      InclusionStep(PerformAll(s, front, false), PerformAll(s, front, true), op);
    }
  }

  lemma PerformDistinct(s: Store, op: Op, large: bool)
    requires Distinct(s)
    ensures Distinct(Perform(s, op, large))
  {
    match op
    case RememberOp(port, fp, peer, m, n) => RememberView(s, port, fp, peer, if large then n else m);
    case ForgetOp(port, peer) => ForgetView(s, port, "", peer);
    case PoolOp(port, fp) => InvalidateView(s, port, fp);
    case NoteOp(peer, address) => NoteView(s, peer, address);
  }

  lemma InclusionStep(small: Store, large: Store, op: Op)
    requires Distinct(small) && Distinct(large) && Included(small, large)
    requires op.RememberOp? ==> op.small <= op.large
    ensures Included(Perform(small, op, false), Perform(large, op, true))
  {
    match op
    case RememberOp(port, fp, peer, m, n) =>
      RememberView(small, port, fp, peer, m);
      RememberView(large, port, fp, peer, n);
      MoveToFrontPrefix(PoolIds(small, port, fp), PoolIds(large, port, fp), peer, m, n);
    case ForgetOp(port, peer) =>
      if port in small {
        RetainIds(small[port].peers, peer);
        RetainIds(large[port].peers, peer);
        WithoutPrefix(Ids(small[port].peers), Ids(large[port].peers), peer);
        if Retain(large[port].peers, peer) == [] {
          assert |Ids(Retain(small[port].peers, peer))| == 0;
        }
      }
    case PoolOp(port, fp) =>
    case NoteOp(peer, address) =>
      NoteView(small, peer, address);
      NoteView(large, peer, address);
  }

  lemma WithoutPrefix<T>(s: seq<T>, t: seq<T>, x: T)
    requires IsPrefix(s, t)
    ensures IsPrefix(Without(s, x), Without(t, x))
  {
    assert t == s + t[|s|..];
    WithoutConcat(s, t[|s|..], x);
  }

  lemma MoveToFrontPrefix<T>(s: seq<T>, t: seq<T>, x: T, m: nat, n: nat)
    requires IsPrefix(s, t) && m <= n
    ensures IsPrefix(MoveToFront(s, x, m), MoveToFront(t, x, n))
  {
    WithoutPrefix(s, t, x);
    assert IsPrefix([x] + Without(s, x), [x] + Without(t, x));
  }

  // ---------- a noted address is recalled ----------

  lemma AddressOfEntry(s: Store, port: Port, e: StickyPeer)
    requires Distinct(s) && port in s && e in s[port].peers
    ensures DirectAddress(s, port, e.peerId) == e.address
  {
    var peers := s[port].peers;
    var k :| 0 <= k < |peers| && peers[k] == e;
    var i := Position(peers, e.peerId);
    assert Ids(peers)[k] == e.peerId && (i < |peers| ==> Ids(peers)[i] == e.peerId);
  }

  lemma EntryOf(s: Store, port: Port, fp: string, peer: PeerId) returns (e: StickyPeer)
    requires Distinct(s) && peer in PoolIds(s, port, fp)
    ensures port in s && e in s[port].peers && e.peerId == peer && DirectAddress(s, port, peer) == e.address
  {
    var i :| 0 <= i < |Ids(s[port].peers)| && Ids(s[port].peers)[i] == peer;
    e := s[port].peers[i];
    AddressOfEntry(s, port, e);
  }

  /** A promotion keeps every entry as it is, and makes up a blank one only for a peer
      that had none. */
  lemma PromoteEntries(peers: seq<StickyPeer>, peer: PeerId, max: nat, x: StickyPeer)
    requires x in Promote(peers, peer, max)
    ensures x in peers || (x == StickyPeer(peer, None) && forall e :: e in peers ==> e.peerId != peer)
  {
    var i := Position(peers, peer);
    var promoted := if i < |peers| then [peers[i]] + (peers[..i] + peers[i + 1..])
      else [StickyPeer(peer, None)] + peers;
    assert x in promoted;
    if i == |peers| {
      forall e | e in peers ensures e.peerId != peer { var k :| 0 <= k < |peers| && peers[k] == e; }
    }
  }

  lemma EntryKept(s: Store, op: Op, large: bool, port: Port, fp: string, peer: PeerId, x: StickyPeer)
    requires Distinct(s) && peer in PoolIds(s, port, fp) && (op.NoteOp? ==> op.peer != peer)
    requires var t := Perform(s, op, large);
             port in t && t[port].fingerprint == fp && x in t[port].peers && x.peerId == peer
    ensures x in s[port].peers
  {
    var e := EntryOf(s, port, fp, peer);
    match op
    case RememberOp(p, _, q, m, n) =>
      if p == port { PromoteEntries(s[port].peers, q, if large then n else m, x); }
    case ForgetOp(p, q) =>
      if p == port { RetainIds(s[port].peers, q); }
    case PoolOp(_, _) =>
    case NoteOp(q, address) =>
      assert Perform(s, op, large)[port] == NoteIn(s[port], q, address);
  }

  lemma AddressStep(s: Store, op: Op, large: bool, port: Port, fp: string, peer: PeerId)
    requires Distinct(s) && peer in PoolIds(s, port, fp) && (op.NoteOp? ==> op.peer != peer)
    requires peer in PoolIds(Perform(s, op, large), port, fp)
    ensures DirectAddress(Perform(s, op, large), port, peer) == DirectAddress(s, port, peer)
  {
    PerformDistinct(s, op, large);
    var x := EntryOf(Perform(s, op, large), port, fp, peer);
    EntryKept(s, op, large, port, fp, peer, x);
    AddressOfEntry(s, port, x);
  }

  lemma NotedIsKnown(s: Store, port: Port, fp: string, peer: PeerId, address: Multiaddr)
    requires Distinct(s) && peer in PoolIds(s, port, fp)
    ensures DirectAddress(Note(s, peer, address), port, peer) == Some(address)
  {
    NoteView(s, peer, address);
    var e := EntryOf(s, port, fp, peer);
    var i := Position(s[port].peers, peer);
    assert Note(s, peer, address)[port] == NoteIn(s[port], peer, address);
    assert i < |s[port].peers| by { var k :| 0 <= k < |s[port].peers| && s[port].peers[k] == e; }
    assert Note(s, peer, address)[port].peers[i] == StickyPeer(peer, Some(address));
    AddressOfEntry(Note(s, peer, address), port, StickyPeer(peer, Some(address)));
  }

  /** The store after a note of `peer` and then these operations. */
  function NotedThen(s: Store, peer: PeerId, address: Multiaddr, ops: seq<Op>, large: bool): Store {
    PerformAll(Note(s, peer, address), ops, large)
  }

  /** The direct address observed for a pool member is what a later reconnect is given,
      through any further history in which the peer stays in that port's valid pool and
      is not observed elsewhere. */
  lemma {:induction false} ObservedAddressIsRecalled(s: Store, port: Port, fp: string, peer: PeerId, address: Multiaddr,
                                                     ops: seq<Op>, large: bool)
    requires Distinct(s)
    requires forall k :: 0 <= k <= |ops| ==> peer in PoolIds(NotedThen(s, peer, address, ops[..k], large), port, fp)
    requires forall i :: 0 <= i < |ops| && ops[i].NoteOp? ==> ops[i].peer != peer
    ensures Distinct(NotedThen(s, peer, address, ops, large))
    ensures DirectAddress(NotedThen(s, peer, address, ops, large), port, peer) == Some(address)
  {
    NoteView(s, peer, address);
    assert ops[..|ops|] == ops;
    if ops == [] {
      NotedIsKnown(s, port, fp, peer, address);
    } else {
      var front, op := ops[..|ops| - 1], ops[|ops| - 1];
      forall k | 0 <= k <= |front| ensures peer in PoolIds(NotedThen(s, peer, address, front[..k], large), port, fp) {
        assert front[..k] == ops[..k];
      }
      ObservedAddressIsRecalled(s, port, fp, peer, address, front, large);
      PerformDistinct(NotedThen(s, peer, address, front, large), op, large);
      AddressStep(NotedThen(s, peer, address, front, large), op, large, port, fp, peer);
    }
  }
}

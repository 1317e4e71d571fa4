/** The operator's view: the event reducer and the ordered rotation pool. */
module Tui {
  import opened Wrappers
  import opened Selection
  import opened Sequences
  import opened Sticky
  import opened Environments

  type SessionId = nat

  datatype AddrSource = Candidate | RelayedLink | DirectLink

  datatype PeerAddr = PeerAddr(addr: Multiaddr, source: AddrSource)

  datatype Status = Connecting | ConnectedTo(peer: PeerId) | Disconnected

  datatype Traffic = Traffic(up: nat, down: nat)

  datatype UiEvent =
    | Protocol(event: Event)
    | LocalPeerKnown(peer: PeerId)
    | LinkPending
    | PeerUp(peer: PeerId)
    | PeerDown(peer: PeerId)
    | SessionNew(session: SessionId, peer: PeerId)
    | SessionEnd(session: SessionId)
    | Upload(session: SessionId, bytes: nat)
    | Download(session: SessionId, bytes: nat)
    | PeerRoute(peer: PeerId, address: Multiaddr, relayed: bool)

  /** `banner`: an error message is on display. */
  datatype UiState = UiState(
    localPeer: Option<PeerId>, banner: bool, pinnedStatuses: map<Port, seq<PinnedPeerStatus>>,
    status: Status, peers: set<PeerId>, sessions: set<SessionId>, upload: nat, download: nat,
    serverPools: map<Port, seq<PeerId>>, stickyPools: map<Port, seq<PeerId>>,
    active: map<Port, PeerId>, sources: map<Port, DestinationSource>,
    sessionPeer: map<SessionId, PeerId>, traffic: map<PeerId, Traffic>, addresses: map<PeerId, PeerAddr>)

  const BLANK_UI := UiState(None, false, map[], Connecting, {}, {}, 0, 0, map[], map[], map[], map[], map[], map[],
    map[])

  // ---------- addresses ----------

  function Rank(s: AddrSource): nat {
    match s
    case Candidate => 0
    case RelayedLink => 1
    case DirectLink => 2
  }

  function NoteAddress(m: map<PeerId, PeerAddr>, peer: PeerId, addr: Multiaddr, source: AddrSource): map<PeerId,
                       PeerAddr> {
    if peer in m && Rank(m[peer].source) > Rank(source) then m else m[peer := PeerAddr(addr, source)]
  }

  function FirstDirect(addrs: seq<Multiaddr>): Option<Multiaddr> {
    if addrs == [] then None else if !IsRelayed(addrs[0]) then Some(addrs[0]) else FirstDirect(addrs[1..])
  }

  function FirstOf(addrs: seq<Multiaddr>): Option<Multiaddr> {
    if addrs == [] then None else Some(addrs[0])
  }

  /** The address shown for a hub candidate: a direct one if it has any. */
  function Preferred(addrs: seq<Multiaddr>): Option<Multiaddr> {
    if FirstDirect(addrs).Some? then FirstDirect(addrs) else FirstOf(addrs)
  }

  function NoteAll(m: map<PeerId, PeerAddr>, peers: seq<PoolPeer>, fromHub: bool): map<PeerId, PeerAddr>
    decreases |peers|
  {
    if peers == [] then m
    else
      var shown := if fromHub then Preferred(peers[0].addresses) else FirstOf(peers[0].addresses);
      NoteAll(if shown.Some? then NoteAddress(m, peers[0].peerId, shown.value, Candidate) else m, peers[1..], fromHub)
  }

  // ---------- the reducer ----------

  function PeerIds(peers: seq<PoolPeer>): seq<PeerId> {
    seq(|peers|, i requires 0 <= i < |peers| => peers[i].peerId)
  }

  function WithMember(pool: seq<PeerId>, peer: PeerId): seq<PeerId> {
    if peer in pool then pool else pool + [peer]
  }

  function PoolAt(pools: map<Port, seq<PeerId>>, port: Port): seq<PeerId> {
    if port in pools then pools[port] else []
  }

  function TrafficOf(m: map<PeerId, Traffic>, peer: PeerId): Traffic {
    if peer in m then m[peer] else Traffic(0, 0)
  }

  function PoolsWithout(pools: map<Port, seq<PeerId>>, peer: PeerId): map<Port, seq<PeerId>> {
    map port | port in pools :: Without(pools[port], peer)
  }

  function Dropped(u: UiState, peer: PeerId): UiState {
    var peers := u.peers - {peer};
    u.(peers := peers,
       traffic := u.traffic - {peer},
       addresses := u.addresses - {peer},
       serverPools := PoolsWithout(u.serverPools, peer),
       active := map port | port in u.active && u.active[port] != peer :: u.active[port],
       status := if peers == {} then Disconnected else u.status)
  }

  function ReduceProtocol(u: UiState, e: Event): UiState {
    match e
    case ErrorShown => u.(banner := true)
    case PinnedPeerStatuses(port, statuses) => u.(pinnedStatuses := u.pinnedStatuses[port := statuses])
    case ServerPool(port, peers) => HubPool(u, port, peers)
    case StickyPoolShown(port, peers) =>
      u.(addresses := NoteAll(u.addresses, peers, false), stickyPools := u.stickyPools[port := PeerIds(peers)])
    case ActiveDestination(port, None, _) =>
      u.(active := u.active - {port}, sources := u.sources - {port})
    case ActiveDestination(port, Some(peer), source) => ExitSet(u, port, peer, source)
  }

  function HubPool(u: UiState, port: Port, peers: seq<PoolPeer>): UiState {
    var ids := if port in u.active then WithMember(PeerIds(peers), u.active[port]) else PeerIds(peers);
    u.(addresses := NoteAll(u.addresses, peers, true), serverPools := u.serverPools[port := ids])
  }

  function ExitSet(u: UiState, port: Port, peer: PeerId, source: Option<DestinationSource>): UiState {
    u.(peers := u.peers + {peer},
       active := u.active[port := peer],
       serverPools := u.serverPools[port := WithMember(PoolAt(u.serverPools, port), peer)],
       sources := if source.Some? then u.sources[port := source.value] else u.sources - {port})
  }

  /** The traffic table once the session's peer, if known, is credited with `more`. */
  function Credited(u: UiState, id: SessionId, more: Traffic): map<PeerId, Traffic> {
    if id !in u.sessionPeer then u.traffic
    else
      var was := TrafficOf(u.traffic, u.sessionPeer[id]);
      u.traffic[u.sessionPeer[id] := Traffic(was.up + more.up, was.down + more.down)]
  }

  function Reduce(u: UiState, e: UiEvent): UiState {
    match e
    case Protocol(event) => ReduceProtocol(u, event)
    case LocalPeerKnown(peer) => u.(localPeer := Some(peer))
    case LinkPending => u.(status := Connecting)
    case PeerUp(peer) => u.(status := ConnectedTo(peer), peers := u.peers + {peer}, banner := false)
    case PeerDown(peer) => Dropped(u, peer)
    case SessionNew(id, peer) =>
      u.(peers := u.peers + {peer}, sessionPeer := u.sessionPeer[id := peer], sessions := u.sessions + {id})
    case SessionEnd(id) => u.(sessions := u.sessions - {id}, sessionPeer := u.sessionPeer - {id})
    case Upload(id, n) => u.(upload := u.upload + n, traffic := Credited(u, id, Traffic(n, 0)))
    case Download(id, n) => u.(download := u.download + n, traffic := Credited(u, id, Traffic(0, n)))
    case PeerRoute(peer, address, relayed) =>
      u.(addresses := NoteAddress(u.addresses, peer, address, if relayed then RelayedLink else DirectLink))
  }

  /** A manual switch stops being shown as under way at an error, or once its port's
      exit is announced. */
  function PendingAfter(pending: Option<Port>, e: UiEvent): Option<Port> {
    match e
    case Protocol(ErrorShown) => None
    case Protocol(ActiveDestination(port, _, _)) => if pending == Some(port) then None else pending
    case _ => pending
  }

  function ReduceAll(u: UiState, events: seq<UiEvent>): UiState {
    if events == [] then u else Reduce(ReduceAll(u, events[..|events| - 1]), events[|events| - 1])
  }

  // ---------- the rotation pool ----------

  function SortKey(addresses: map<PeerId, PeerAddr>, peer: PeerId): nat {
    if peer !in addresses then 2
    else match addresses[peer].source
         case DirectLink => 0
         case Candidate => 1
         case RelayedLink => 2
  }

  function Merge(pool: seq<PeerId>, more: seq<PeerId>): seq<PeerId>
    decreases |more|
  {
    if more == [] then pool else Merge(WithMember(pool, more[0]), more[1..])
  }

  /** The members of one tier, in their original order. */
  function Tier(s: seq<PeerId>, addresses: map<PeerId, PeerAddr>, key: nat): seq<PeerId> {
    if s == [] then []
    else if SortKey(addresses, s[0]) == key then [s[0]] + Tier(s[1..], addresses, key)
    else Tier(s[1..], addresses, key)
  }

  /** Inserts after every element of a smaller or equal key. */
  function InsertByKey(s: seq<PeerId>, x: PeerId, addresses: map<PeerId, PeerAddr>): seq<PeerId> {
    if s == [] || SortKey(addresses, x) < SortKey(addresses, s[0]) then [x] + s
    else [s[0]] + InsertByKey(s[1..], x, addresses)
  }

  /** A stable sort by key. */
  function SortByKey(s: seq<PeerId>, addresses: map<PeerId, PeerAddr>): seq<PeerId> {
    if s == [] then [] else InsertByKey(SortByKey(s[..|s| - 1], addresses), s[|s| - 1], addresses)
  }

  function OrderedPool(u: UiState, port: Port): seq<PeerId> {
    SortByKey(Merge(PoolAt(u.serverPools, port), PoolAt(u.stickyPools, port)), u.addresses)
  }

  // ---------- the view as an object ----------

  class Ui {
    var state: UiState
    /** The port of a manual switch still being dialled. */
    var pendingSelection: Option<Port>

    constructor ()
      ensures state == BLANK_UI && pendingSelection == None
    {
      state := BLANK_UI;
      pendingSelection := None;
    }

    method NotePeerAddress(peer: PeerId, addr: Multiaddr, source: AddrSource)
      modifies `state
      ensures state == old(state).(addresses := NoteAddress(old(state).addresses, peer, addr, source))
    {
      var keepExisting := peer in state.addresses && Rank(state.addresses[peer].source) > Rank(source);
      if keepExisting {
        return;
      }
      state := state.(addresses := state.addresses[peer := PeerAddr(addr, source)]);
    }

    method NotePool(peers: seq<PoolPeer>, fromHub: bool)
      modifies `state
      ensures state == old(state).(addresses := NoteAll(old(state).addresses, peers, fromHub))
    {
      var i := 0;
      while i < |peers|
        invariant 0 <= i <= |peers|
        invariant state == old(state).(addresses := state.addresses)
        invariant NoteAll(old(state).addresses, peers, fromHub) == NoteAll(state.addresses, peers[i..], fromHub)
      {
        assert peers[i..][0] == peers[i] && peers[i..][1..] == peers[i + 1..];
        var shown := if fromHub then Preferred(peers[i].addresses) else FirstOf(peers[i].addresses);
        if shown.Some? {
          NotePeerAddress(peers[i].peerId, shown.value, Candidate);
        }
        i := i + 1;
      }
    }

    /** Drops a peer from every pool. */
    method PruneEach(pools: map<Port, seq<PeerId>>, peer: PeerId) returns (pruned: map<Port, seq<PeerId>>)
      ensures pruned == PoolsWithout(pools, peer)
    {
      pruned := pools;
      var todo := pools.Keys;
      while todo != {}
        invariant todo <= pools.Keys == pruned.Keys
        invariant forall port :: port in pools ==>
                  pruned[port] == if port in todo then pools[port] else Without(pools[port], peer)
        decreases |todo|
      {
        var port :| port in todo;
        todo := todo - {port};
        pruned := pruned[port := Without(pools[port], peer)];
      }
    }

    method DropPeer(peer: PeerId)
      modifies `state
      ensures state == Dropped(old(state), peer)
    {
      var peers := state.peers - {peer};
      var pools := PruneEach(state.serverPools, peer);
      state := state.(peers := peers, traffic := state.traffic - {peer}, addresses := state.addresses - {peer},
        serverPools := pools,
                      active := map port | port in state.active && state.active[port] != peer :: state.active[port]);
      if peers == {} {
        state := state.(status := Disconnected);
      }
    }

    method HandleProtocol(e: Event)
      modifies this
      ensures state == ReduceProtocol(old(state), e)
      ensures pendingSelection == PendingAfter(old(pendingSelection), Protocol(e))
    {
      match e
      case ErrorShown =>
        pendingSelection := None;
        state := state.(banner := true);
      case PinnedPeerStatuses(port, statuses) =>
        state := state.(pinnedStatuses := state.pinnedStatuses[port := statuses]);
      case ServerPool(port, peers) =>
        NotePool(peers, true);
        var ids := PeerIds(peers);
        if port in state.active && state.active[port] !in ids {
          ids := ids + [state.active[port]];
        }
        state := state.(serverPools := state.serverPools[port := ids]);
      case StickyPoolShown(port, peers) =>
        NotePool(peers, false);
        state := state.(stickyPools := state.stickyPools[port := PeerIds(peers)]);
      case ActiveDestination(port, peer, source) =>
        if pendingSelection == Some(port) {
          pendingSelection := None;
        }
        match peer {
          case Some(p) =>
            state := state.(peers := state.peers + {p}, active := state.active[port := p]);
            var pool := if port in state.serverPools then state.serverPools[port] else [];
            if p !in pool {
              pool := pool + [p];
            }
            state := state.(serverPools := state.serverPools[port := pool],
                            sources := if source.Some? then state.sources[port := source.value]
                              else state.sources - {port});
          case None =>
            state := state.(active := state.active - {port}, sources := state.sources - {port});
        }
    }

    method HandleSwarmEvents(e: UiEvent)
      modifies this
      ensures state == Reduce(old(state), e)
      ensures pendingSelection == PendingAfter(old(pendingSelection), e)
    {
      match e
      case Protocol(event) => HandleProtocol(event);
      case LocalPeerKnown(peer) =>
        state := state.(localPeer := Some(peer));
      case LinkPending =>
        state := state.(status := Connecting);
      case PeerUp(peer) =>
        state := state.(status := ConnectedTo(peer), peers := state.peers + {peer}, banner := false);
      case PeerDown(peer) => DropPeer(peer);
      case SessionNew(id, peer) =>
        state := state.(peers := state.peers + {peer}, sessionPeer := state.sessionPeer[id := peer],
          sessions := state.sessions + {id});
      case SessionEnd(id) =>
        state := state.(sessions := state.sessions - {id}, sessionPeer := state.sessionPeer - {id});
      case Upload(id, n) =>
        state := state.(upload := state.upload + n);
        if id in state.sessionPeer {
          var t := TrafficOf(state.traffic, state.sessionPeer[id]);
          state := state.(traffic := state.traffic[state.sessionPeer[id] := t.(up := t.up + n)]);
        }
      case Download(id, n) =>
        state := state.(download := state.download + n);
        if id in state.sessionPeer {
          var t := TrafficOf(state.traffic, state.sessionPeer[id]);
          state := state.(traffic := state.traffic[state.sessionPeer[id] := t.(down := t.down + n)]);
        }
      case PeerRoute(peer, address, relayed) =>
        NotePeerAddress(peer, address, if relayed then RelayedLink else DirectLink);
    }

    method OrderedPoolFor(port: Port) returns (pool: seq<PeerId>)
      ensures pool == OrderedPool(state, port)
    {
      var hub := if port in state.serverPools then state.serverPools[port] else [];
      var sticky := if port in state.stickyPools then state.stickyPools[port] else [];
      var merged := AppendMissing(hub, sticky);
      pool := SortByKey(merged, state.addresses);
    }

    /** Appends, in order, each element the pool does not hold yet. */
    static method AppendMissing(pool: seq<PeerId>, more: seq<PeerId>) returns (merged: seq<PeerId>)
      ensures merged == Merge(pool, more)
    {
      merged := pool;
      var i := 0;
      while i < |more|
        invariant 0 <= i <= |more|
        invariant Merge(pool, more) == Merge(merged, more[i..])
      {
        assert more[i..][0] == more[i] && more[i..][1..] == more[i + 1..];
        if more[i] !in merged {
          merged := merged + [more[i]];
        }
        i := i + 1;
      }
    }
  }
}

/** What the reducer conserves over any event sequence, and what the rotation pool is. */
module TuiLaws {
  import opened Wrappers
  import opened Selection
  import opened Sequences
  import opened Sticky
  import opened Environments
  import opened Histories
  import opened Tui

  // ---------- attribution of traffic ----------

  /** The peer a session is attributed to after the events. */
  function SessionOf(events: seq<UiEvent>, id: SessionId): Option<PeerId> {
    if events == [] then None
    else match events[|events| - 1]
         case SessionNew(s, peer) => if s == id then Some(peer) else SessionOf(events[..|events| - 1], id)
         case SessionEnd(s) => if s == id then None else SessionOf(events[..|events| - 1], id)
         case _ => SessionOf(events[..|events| - 1], id)
  }

  /** Bytes of one direction over all sessions, and those due to one peer: what its live
      sessions carried since it last disconnected. */
  function Volume(events: seq<UiEvent>): Traffic {
    if events == [] then Traffic(0, 0)
    else
      var before := Volume(events[..|events| - 1]);
      match events[|events| - 1]
      case Upload(_, n) => before.(up := before.up + n)
      case Download(_, n) => before.(down := before.down + n)
      case _ => before
  }

  function VolumeOf(events: seq<UiEvent>, peer: PeerId): Traffic {
    if events == [] then Traffic(0, 0)
    else
      var front := events[..|events| - 1];
      var before := VolumeOf(front, peer);
      match events[|events| - 1]
      case Upload(id, n) => if SessionOf(front, id) == Some(peer) then before.(up := before.up + n) else before
      case Download(id, n) => if SessionOf(front, id) == Some(peer) then before.(down := before.down + n) else before
      case PeerDown(p) => if p == peer then Traffic(0, 0) else before
      case _ => before
  }

  /** No counter and no session attribution differs. */
  predicate SameTraffic(u: UiState, v: UiState) {
    v.upload == u.upload && v.download == u.download && v.traffic == u.traffic && v.sessionPeer == u.sessionPeer
  }

  lemma ProtocolFrame(u: UiState, e: Event)
    ensures SameTraffic(u, ReduceProtocol(u, e))
  {
    hide HubPool, ExitSet;
    match e
    case ServerPool(port, peers) => HubPoolFrame(u, port, peers);
    case ActiveDestination(port, Some(peer), source) => ExitSetFrame(u, port, peer, source);
    case _ =>
  }

  lemma HubPoolFrame(u: UiState, port: Port, peers: seq<PoolPeer>)
    ensures SameTraffic(u, HubPool(u, port, peers))
  {
  }

  lemma ExitSetFrame(u: UiState, port: Port, peer: PeerId, source: Option<DestinationSource>)
    ensures SameTraffic(u, ExitSet(u, port, peer, source))
  {
  }

  lemma DroppedFrame(u: UiState, peer: PeerId)
    ensures var v := Dropped(u, peer);
            v.upload == u.upload && v.download == u.download && v.traffic == u.traffic - {peer}
              && v.sessionPeer == u.sessionPeer
  {
  }

  lemma TotalsStep(u: UiState, e: UiEvent)
    ensures var v := Reduce(u, e);
            && v.upload == u.upload + (if e.Upload? then e.bytes else 0)
            && v.download == u.download + (if e.Download? then e.bytes else 0)
  {
    hide ReduceProtocol, Dropped, Credited;
    if e.Protocol? { ProtocolFrame(u, e.event); }
    if e.PeerDown? { DroppedFrame(u, e.peer); }
  }

  lemma {:induction false} TotalsCounted(events: seq<UiEvent>)
    ensures var u := ReduceAll(BLANK_UI, events); Traffic(u.upload, u.download) == Volume(events)
  {
    if events != [] {
      TotalsCounted(events[..|events| - 1]);
      TotalsStep(ReduceAll(BLANK_UI, events[..|events| - 1]), events[|events| - 1]);
    }
  }

  function SessionIn(u: UiState, id: SessionId): Option<PeerId> {
    if id in u.sessionPeer then Some(u.sessionPeer[id]) else None
  }

  lemma SessionStep(u: UiState, e: UiEvent, id: SessionId)
    ensures SessionIn(Reduce(u, e), id)
            == if e.SessionNew? && e.session == id then Some(e.peer)
               else if e.SessionEnd? && e.session == id then None
               else SessionIn(u, id)
  {
    if e.Protocol? { ProtocolFrame(u, e.event); }
  }

  lemma {:induction false} SessionsTracked(events: seq<UiEvent>, id: SessionId)
    ensures SessionIn(ReduceAll(BLANK_UI, events), id) == SessionOf(events, id)
  {
    if events != [] {
      SessionsTracked(events[..|events| - 1], id);
      SessionStep(ReduceAll(BLANK_UI, events[..|events| - 1]), events[|events| - 1], id);
    }
  }

  lemma TrafficStep(u: UiState, e: UiEvent, peer: PeerId)
    ensures var was := TrafficOf(u.traffic, peer);
            TrafficOf(Reduce(u, e).traffic, peer)
            == match e
               case Upload(id, n) => if SessionIn(u, id) == Some(peer) then was.(up := was.up + n) else was
               case Download(id, n) => if SessionIn(u, id) == Some(peer) then was.(down := was.down + n) else was
               case PeerDown(p) => if p == peer then Traffic(0, 0) else was
               case _ => was
  {
    if e.Protocol? { ProtocolFrame(u, e.event); }
  }

  /** Over any event sequence, the global totals are the bytes of all sessions, and each
      peer's counters are exactly what its own sessions carried since it last left. */
  lemma {:induction false} TrafficIsAttributed(events: seq<UiEvent>, peer: PeerId)
    ensures var u := ReduceAll(BLANK_UI, events);
            Traffic(u.upload, u.download) == Volume(events) && TrafficOf(u.traffic, peer) == VolumeOf(events, peer)
  {
    TotalsCounted(events);
    if events != [] {
      var front, e := events[..|events| - 1], events[|events| - 1];
      TrafficIsAttributed(front, peer);
      TrafficStep(ReduceAll(BLANK_UI, front), e, peer);
      if e.Upload? || e.Download? { SessionsTracked(front, e.session); }
    }
  }

  ghost function SumUp(m: map<PeerId, Traffic>): nat
    decreases |m|
  {
    if m == map[] then 0 else
      var k :| k in m;
      m[k].up + SumUp(m - {k})
  }

  ghost function SumDown(m: map<PeerId, Traffic>): nat
    decreases |m|
  {
    if m == map[] then 0 else
      var k :| k in m;
      m[k].down + SumDown(m - {k})
  }

  lemma {:induction false} SumsSplit(m: map<PeerId, Traffic>, k: PeerId)
    requires k in m
    ensures SumUp(m) == m[k].up + SumUp(m - {k}) && SumDown(m) == m[k].down + SumDown(m - {k})
    decreases |m|
  {
    var i :| i in m && SumUp(m) == m[i].up + SumUp(m - {i});
    var j :| j in m && SumDown(m) == m[j].down + SumDown(m - {j});
    if i != k {
      SumsSplit(m - {i}, k);
      SumsSplit(m - {k}, i);
      assert m - {i} - {k} == m - {k} - {i};
    }
    if j != k {
      SumsSplit(m - {j}, k);
      SumsSplit(m - {k}, j);
      assert m - {j} - {k} == m - {k} - {j};
    }
  }

  lemma SumsSet(m: map<PeerId, Traffic>, k: PeerId, t: Traffic)
    ensures SumUp(m[k := t]) + TrafficOf(m, k).up == SumUp(m) + t.up
    ensures SumDown(m[k := t]) + TrafficOf(m, k).down == SumDown(m) + t.down
  {
    SumsSplit(m[k := t], k);
    assert m[k := t] - {k} == m - {k};
    if k in m { SumsSplit(m, k); } else { assert m - {k} == m; }
  }

  lemma SumsRemove(m: map<PeerId, Traffic>, k: PeerId)
    ensures SumUp(m - {k}) <= SumUp(m) && SumDown(m - {k}) <= SumDown(m)
  {
    if k in m { SumsSplit(m, k); } else { assert m - {k} == m; }
  }

  lemma CreditSums(u: UiState, id: SessionId, more: Traffic)
    ensures SumUp(Credited(u, id, more)) <= SumUp(u.traffic) + more.up
    ensures SumDown(Credited(u, id, more)) <= SumDown(u.traffic) + more.down
  {
    hide SumUp, SumDown;
    if id in u.sessionPeer {
      var peer := u.sessionPeer[id];
      SumsSet(u.traffic, peer, Credited(u, id, more)[peer]);
    }
  }

  ghost predicate Bounded(u: UiState) {
    SumUp(u.traffic) <= u.upload && SumDown(u.traffic) <= u.download
  }

  lemma BoundedStep(u: UiState, e: UiEvent)
    requires Bounded(u)
    ensures Bounded(Reduce(u, e))
  {
    hide ReduceProtocol, Dropped, Credited, SumUp, SumDown;
    match e
    case Protocol(event) => ProtocolFrame(u, event);
    case Upload(id, n) => CreditSums(u, id, Traffic(n, 0));
    case Download(id, n) => CreditSums(u, id, Traffic(0, n));
    case PeerDown(peer) =>
      DroppedFrame(u, peer);
      SumsRemove(u.traffic, peer);
    case _ =>
  }

  /** Over any event sequence the per-peer counters sum to no more than the global
      totals, so no per-peer counter can overflow before a total does. */
  lemma {:induction false} PeerTrafficWithinTotals(events: seq<UiEvent>)
    ensures var u := ReduceAll(BLANK_UI, events);
            SumUp(u.traffic) <= u.upload && SumDown(u.traffic) <= u.download
  {
    if events != [] {
      PeerTrafficWithinTotals(events[..|events| - 1]);
      BoundedStep(ReduceAll(BLANK_UI, events[..|events| - 1]), events[|events| - 1]);
    }
  }

  // ---------- the active exit is always visible ----------

  ghost predicate ActiveVisible(u: UiState, port: Port) {
    port in u.active ==> port in u.serverPools && u.active[port] in u.serverPools[port]
  }

  lemma ProtocolKeepsVisible(u: UiState, e: Event, port: Port)
    requires ActiveVisible(u, port)
    ensures ActiveVisible(ReduceProtocol(u, e), port)
  {
    hide NoteAll, HubPool, ExitSet, ActiveVisible;
    match e
    case ServerPool(p, peers) => HubPoolKeepsVisible(u, p, peers, port);
    case ActiveDestination(p, Some(peer), source) => ExitSetKeepsVisible(u, p, peer, source, port);
    case _ => SameVisible(u, ReduceProtocol(u, e), port);
  }

  lemma HubPoolKeepsVisible(u: UiState, p: Port, peers: seq<PoolPeer>, port: Port)
    requires ActiveVisible(u, port)
    ensures ActiveVisible(HubPool(u, p, peers), port)
  {
    hide NoteAll;
  }

  lemma ExitSetKeepsVisible(u: UiState, p: Port, peer: PeerId, source: Option<DestinationSource>, port: Port)
    requires ActiveVisible(u, port)
    ensures ActiveVisible(ExitSet(u, p, peer, source), port)
  {
  }

  lemma SameVisible(u: UiState, v: UiState, port: Port)
    requires ActiveVisible(u, port) && v.serverPools == u.serverPools
    requires port in v.active ==> port in u.active && v.active[port] == u.active[port]
    ensures ActiveVisible(v, port)
  {
  }

  lemma DropKeepsVisible(u: UiState, peer: PeerId, port: Port)
    requires ActiveVisible(u, port)
    ensures ActiveVisible(Dropped(u, peer), port)
  {
    if port in u.serverPools { WithoutMembers(u.serverPools[port], peer); }
  }

  lemma StepKeepsVisible(u: UiState, e: UiEvent, port: Port)
    requires ActiveVisible(u, port)
    ensures ActiveVisible(Reduce(u, e), port)
  {
    hide ReduceProtocol, Dropped, Credited;
    match e
    case Protocol(event) => ProtocolKeepsVisible(u, event, port);
    case PeerDown(peer) => DropKeepsVisible(u, peer, port);
    case _ =>
  }

  lemma {:induction false} ActiveInServerPool(events: seq<UiEvent>, port: Port)
    ensures ActiveVisible(ReduceAll(BLANK_UI, events), port)
  {
    if events != [] {
      ActiveInServerPool(events[..|events| - 1], port);
      StepKeepsVisible(ReduceAll(BLANK_UI, events[..|events| - 1]), events[|events| - 1], port);
    }
  }

  /** Every active destination is a row of its port's rotation pool. */
  lemma ActiveIsListed(events: seq<UiEvent>, port: Port)
    ensures var u := ReduceAll(BLANK_UI, events);
            port in u.active ==> u.active[port] in OrderedPool(u, port)
  {
    var u := ReduceAll(BLANK_UI, events);
    ActiveInServerPool(events, port);
    OrderedPoolMembers(u, port);
  }

  /** Fed the acts of a trace, the view shows for each port exactly the exit last shown. */
  function Seen(t: Trace): UiState {
    if t == [] then BLANK_UI
    else
      var u := Seen(t[..|t| - 1]);
      if t[|t| - 1].Emitting? then Reduce(u, Protocol(t[|t| - 1].event)) else u
  }

  function ActiveAt(u: UiState, port: Port): Option<PeerId> {
    if port in u.active then Some(u.active[port]) else None
  }

  // ---------- which exit the view shows, exactly ----------

  /** The active exit after one more event: a disconnected peer is no longer shown. */
  function DueAfter(due: Option<PeerId>, e: UiEvent, port: Port): Option<PeerId> {
    match e
    case Protocol(ActiveDestination(p, peer, _)) => if p == port then peer else due
    case PeerDown(peer) => if due == Some(peer) then None else due
    case _ => due
  }

  function ActiveDue(events: seq<UiEvent>, port: Port): Option<PeerId> {
    if events == [] then None else DueAfter(ActiveDue(events[..|events| - 1], port), events[|events| - 1], port)
  }

  /** The exit last announced for the port, whether or not it is still connected. */
  function LastShown(events: seq<UiEvent>, port: Port): Option<PeerId> {
    if events == [] then None
    else
      var e := events[|events| - 1];
      if Announces(e, port) then e.event.peer else LastShown(events[..|events| - 1], port)
  }

  predicate Announces(e: UiEvent, port: Port) {
    e.Protocol? && e.event.ActiveDestination? && e.event.port == port
  }

  /** The last announced exit has disconnected since it was announced. */
  ghost predicate DroppedSince(events: seq<UiEvent>, port: Port) {
    exists i: nat, j: nat :: DroppedAt(events, port, i, j)
  }

  lemma ActiveAfter(u: UiState, e: UiEvent, port: Port)
    ensures ActiveAt(Reduce(u, e), port) == DueAfter(ActiveAt(u, port), e, port)
  {
    hide ReduceProtocol, Credited;
    if e.Protocol? { ActiveStep(u, e.event, port); }
  }

  lemma {:induction false} ActiveIsDue(events: seq<UiEvent>, port: Port)
    ensures ActiveAt(ReduceAll(BLANK_UI, events), port) == ActiveDue(events, port)
  {
    if events != [] {
      ActiveIsDue(events[..|events| - 1], port);
      ActiveAfter(ReduceAll(BLANK_UI, events[..|events| - 1]), events[|events| - 1], port);
    }
  }

  /** Announced at i, disconnected at j, and not announced again. */
  predicate DroppedAt(events: seq<UiEvent>, port: Port, i: nat, j: nat) {
    && i < j < |events| && Announces(events[i], port)
    && events[i].event.peer.Some? && events[j] == PeerDown(events[i].event.peer.value)
    && forall k :: i < k < |events| ==> !Announces(events[k], port)
  }

  lemma StillDropped(front: seq<UiEvent>, e: UiEvent, port: Port, i: nat, j: nat)
    requires DroppedAt(front, port, i, j) && !Announces(e, port)
    ensures DroppedAt(front + [e], port, i, j)
  {
    assert forall k :: 0 <= k < |front| ==> (front + [e])[k] == front[k];
  }

  lemma DroppedBefore(front: seq<UiEvent>, e: UiEvent, port: Port, i: nat, j: nat)
    requires DroppedAt(front + [e], port, i, j)
    ensures !Announces(e, port)
    ensures if j < |front| then DroppedAt(front, port, i, j)
            else LastShown(front, port).Some? && e == PeerDown(LastShown(front, port).value)
  {
    assert (front + [e])[|front|] == e && forall k :: 0 <= k < |front| ==> (front + [e])[k] == front[k];
    if j == |front| { LastShownAt(front, port, i); }
  }

  lemma DroppedStep(front: seq<UiEvent>, e: UiEvent, port: Port)
    ensures DroppedSince(front + [e], port) <==>
              !Announces(e, port) && (DroppedSince(front, port)
                || (LastShown(front, port).Some? && e == PeerDown(LastShown(front, port).value)))
  {
    hide DroppedAt;
    if LastShown(front, port).Some? && e == PeerDown(LastShown(front, port).value) {
      DroppedNow(front, e, port);
    }
    if DroppedSince(front, port) && !Announces(e, port) {
      var i: nat, j: nat :| DroppedAt(front, port, i, j);
      StillDropped(front, e, port, i, j);
    }
    if DroppedSince(front + [e], port) {
      var i: nat, j: nat :| DroppedAt(front + [e], port, i, j);
      DroppedBefore(front, e, port, i, j);
    }
  }

  lemma DroppedNow(front: seq<UiEvent>, e: UiEvent, port: Port)
    requires LastShown(front, port).Some? && e == PeerDown(LastShown(front, port).value)
    ensures DroppedSince(front + [e], port)
  {
    var i := AnnouncedAt(front, port);
    assert (front + [e])[|front|] == e && forall k :: 0 <= k < |front| ==> (front + [e])[k] == front[k];
    assert DroppedAt(front + [e], port, i, |front|);
  }

  lemma {:induction false} AnnouncedAt(events: seq<UiEvent>, port: Port) returns (i: nat)
    requires LastShown(events, port).Some?
    ensures i < |events| && Announces(events[i], port) && events[i].event.peer == LastShown(events, port)
    ensures forall k :: i < k < |events| ==> !Announces(events[k], port)
    decreases |events|
  {
    if Announces(events[|events| - 1], port) {
      i := |events| - 1;
    } else {
      i := AnnouncedAt(events[..|events| - 1], port);
    }
  }

  lemma {:induction false} LastShownAt(events: seq<UiEvent>, port: Port, i: nat)
    requires i < |events| && Announces(events[i], port) && forall k :: i < k < |events| ==> !Announces(events[k], port)
    ensures LastShown(events, port) == events[i].event.peer
  {
    if i < |events| - 1 { LastShownAt(events[..|events| - 1], port, i); }
  }

  /** The view shows the exit last announced if and only if that exit has not
      disconnected since; otherwise it shows none. */
  lemma {:induction false} ViewIsExact(events: seq<UiEvent>, port: Port)
    ensures ActiveAt(ReduceAll(BLANK_UI, events), port)
            == if DroppedSince(events, port) then None else LastShown(events, port)
    ensures DroppedSince(events, port) ==> LastShown(events, port).Some?
  {
    ActiveIsDue(events, port);
    if events != [] {
      var front := events[..|events| - 1];
      ActiveIsDue(front, port);
      ViewIsExact(front, port);
      hide DroppedSince, ReduceAll, ActiveAt;
      assert events == front + [events[|events| - 1]];
      DroppedStep(front, events[|events| - 1], port);
    }
  }

  lemma ActiveStep(u: UiState, e: Event, port: Port)
    ensures ActiveAt(ReduceProtocol(u, e), port)
            == if e.ActiveDestination? && e.port == port then e.peer else ActiveAt(u, port)
  {
    hide NoteAll, WithMember;
  }

  lemma {:induction false} ViewFollowsTrace(t: Trace, port: Port)
    ensures ActiveAt(Seen(t), port) == match HistoryOf(t, port).shown case None => None case Some(peer) => peer
  {
    if t != [] {
      var front, act := t[..|t| - 1], t[|t| - 1];
      ViewFollowsTrace(front, port);
      if act.Emitting? { ActiveStep(Seen(front), act.event, port); }
    }
  }

  // ---------- the address shown for a peer ----------

  /** The live route of a peer: its last direct one since it last disconnected, or its
      last relayed one if it had no direct one. */
  function LiveRoute(events: seq<UiEvent>, peer: PeerId): Option<PeerAddr> {
    if events == [] then None
    else LiveRouteAfter(LiveRoute(events[..|events| - 1], peer), events[|events| - 1], peer)
  }

  function LiveRouteAfter(before: Option<PeerAddr>, e: UiEvent, peer: PeerId): Option<PeerAddr> {
    match e
    case PeerDown(p) => if p == peer then None else before
    case PeerRoute(p, address, relayed) =>
      if p != peer || (relayed && before.Some? && before.value.source == DirectLink) then before
      else Some(PeerAddr(address, if relayed then RelayedLink else DirectLink))
    case _ => before
  }

  /** The table shows the peer's live route if it has one, and at most a candidate otherwise. */
  predicate ShowsLive(addresses: map<PeerId, PeerAddr>, peer: PeerId, live: Option<PeerAddr>) {
    if live.Some? then live.value.source != Candidate && peer in addresses && addresses[peer] == live.value
    else peer in addresses ==> addresses[peer].source == Candidate
  }

  lemma {:induction false} CandidatesKeepLive(m: map<PeerId, PeerAddr>, peers: seq<PoolPeer>, fromHub: bool,
                                              peer: PeerId, live: Option<PeerAddr>)
    requires ShowsLive(m, peer, live)
    ensures ShowsLive(NoteAll(m, peers, fromHub), peer, live)
    decreases |peers|
  {
    if peers != [] {
      var shown := if fromHub then Preferred(peers[0].addresses) else FirstOf(peers[0].addresses);
      CandidatesKeepLive(if shown.Some? then NoteAddress(m, peers[0].peerId, shown.value, Candidate)
        else m, peers[1..], fromHub, peer, live);
    }
  }

  lemma ProtocolKeepsLive(u: UiState, e: Event, peer: PeerId, live: Option<PeerAddr>)
    requires ShowsLive(u.addresses, peer, live)
    ensures ShowsLive(ReduceProtocol(u, e).addresses, peer, live)
  {
    hide ShowsLive, NoteAll;
    match e
    case ServerPool(_, peers) => CandidatesKeepLive(u.addresses, peers, true, peer, live);
    case StickyPoolShown(_, peers) => CandidatesKeepLive(u.addresses, peers, false, peer, live);
    case _ =>
  }

  lemma StepKeepsLive(u: UiState, e: UiEvent, peer: PeerId, live: Option<PeerAddr>)
    requires ShowsLive(u.addresses, peer, live)
    ensures ShowsLive(Reduce(u, e).addresses, peer, LiveRouteAfter(live, e, peer))
  {
    hide ReduceProtocol, Credited;
    match e
    case Protocol(event) => ProtocolKeepsLive(u, event, peer, live);
    case PeerDown(_) => assert Reduce(u, e).addresses == u.addresses - {e.peer};
    case PeerRoute(p, address, relayed) =>
      assert Reduce(u, e).addresses
             == NoteAddress(u.addresses, p, address, if relayed then RelayedLink else DirectLink);
    case _ => assert Reduce(u, e).addresses == u.addresses;
  }

  /** Over any event sequence the view shows exactly a peer's live route: a relayed one
      never displaces a direct one, and a hub candidate never displaces either. */
  lemma {:induction false} LiveRouteIsShown(events: seq<UiEvent>, peer: PeerId)
    ensures ShowsLive(ReduceAll(BLANK_UI, events).addresses, peer, LiveRoute(events, peer))
  {
    if events != [] {
      var front, e := events[..|events| - 1], events[|events| - 1];
      LiveRouteIsShown(front, peer);
      StepKeepsLive(ReduceAll(BLANK_UI, front), e, peer, LiveRoute(front, peer));
      hide Reduce, ShowsLive, LiveRouteAfter;
    }
  }

  /** So the top tier of every rotation pool is exactly the peers with a direct route. */
  lemma TopTierIsDirect(events: seq<UiEvent>, peer: PeerId)
    ensures SortKey(ReduceAll(BLANK_UI, events).addresses, peer) == 0
            <==> LiveRoute(events, peer).Some? && LiveRoute(events, peer).value.source == DirectLink
  {
    LiveRouteIsShown(events, peer);
  }

  // ---------- the rotation pool ----------

  lemma {:induction false} MergeMembers(pool: seq<PeerId>, more: seq<PeerId>)
    ensures forall x :: x in Merge(pool, more) <==> x in pool || x in more
    ensures NoDuplicates(Merge(pool, more)) <==> NoDuplicates(pool)
    decreases |more|
  {
    if more != [] {
      var x := more[0];
      MergeMembers(WithMember(pool, x), more[1..]);
      assert more == [x] + more[1..];
      if x !in pool { SnocNoDuplicates(pool, x); }
    }
  }

  lemma SnocNoDuplicates<T>(s: seq<T>, x: T)
    requires x !in s
    ensures NoDuplicates(s + [x]) <==> NoDuplicates(s)
  {
    var t := s + [x];
    if NoDuplicates(s) {
      forall i, j | 0 <= i < j < |t| ensures t[i] != t[j] {
        assert t[i] == s[i];
        if j < |s| { assert t[j] == s[j]; }
      }
    } else {
      var i, j :| 0 <= i < j < |s| && s[i] == s[j];
      assert t[i] == t[j];
    }
  }

  ghost predicate SortedByKey(s: seq<PeerId>, addresses: map<PeerId, PeerAddr>) {
    forall i, j :: 0 <= i < j < |s| ==> SortKey(addresses, s[i]) <= SortKey(addresses, s[j])
  }

  /** r is a stable sort of s: in key order, each key's elements in their original order. */
  ghost predicate StableSortOf(r: seq<PeerId>, s: seq<PeerId>, addresses: map<PeerId, PeerAddr>) {
    SortedByKey(r, addresses) && forall key :: Tier(r, addresses, key) == Tier(s, addresses, key)
  }

  lemma {:induction false} InsertMembers(s: seq<PeerId>, x: PeerId, addresses: map<PeerId, PeerAddr>)
    ensures multiset(InsertByKey(s, x, addresses)) == multiset(s) + multiset{x}
  {
    if s != [] && SortKey(addresses, x) >= SortKey(addresses, s[0]) {
      InsertMembers(s[1..], x, addresses);
      assert s == [s[0]] + s[1..];
    }
  }

  lemma {:induction false} InsertSorted(s: seq<PeerId>, x: PeerId, addresses: map<PeerId, PeerAddr>)
    requires SortedByKey(s, addresses)
    ensures SortedByKey(InsertByKey(s, x, addresses), addresses)
    ensures forall i :: 0 <= i < |InsertByKey(s, x, addresses)| ==>
              InsertByKey(s, x, addresses)[i] == x || InsertByKey(s, x, addresses)[i] in s
  {
    if s != [] {
      var rest := InsertByKey(s[1..], x, addresses);
      InsertSorted(s[1..], x, addresses);
      assert s == [s[0]] + s[1..];
      assert forall i :: 0 <= i < |s| ==> SortKey(addresses, s[0]) <= SortKey(addresses, s[i]);
    }
  }

  lemma {:induction false} InsertIntoTier(s: seq<PeerId>, x: PeerId, addresses: map<PeerId, PeerAddr>, key: nat)
    requires SortedByKey(s, addresses)
    ensures Tier(InsertByKey(s, x, addresses), addresses, key)
            == Tier(s, addresses, key) + (if SortKey(addresses, x) == key then [x] else [])
  {
    if s == [] {
      assert [x][1..] == [];
    } else if SortKey(addresses, x) < SortKey(addresses, s[0]) {
      if SortKey(addresses, x) == key { TierAbove(s, addresses, key); }
      assert ([x] + s)[1..] == s;
    } else {
      InsertIntoTier(s[1..], x, addresses, key);
      assert InsertByKey(s, x, addresses)[1..] == InsertByKey(s[1..], x, addresses);
    }
  }

  lemma {:induction false} TierAbove(s: seq<PeerId>, addresses: map<PeerId, PeerAddr>, key: nat)
    requires forall i :: 0 <= i < |s| ==> SortKey(addresses, s[i]) > key
    ensures Tier(s, addresses, key) == []
  {
    if s != [] { TierAbove(s[1..], addresses, key); }
  }

  lemma {:induction false} TierSnoc(s: seq<PeerId>, x: PeerId, addresses: map<PeerId, PeerAddr>, key: nat)
    ensures Tier(s + [x], addresses, key)
            == Tier(s, addresses, key) + (if SortKey(addresses, x) == key then [x] else [])
  {
    if s == [] {
      assert ([] + [x])[1..] == [];
    } else {
      assert (s + [x])[1..] == s[1..] + [x];
      TierSnoc(s[1..], x, addresses, key);
    }
  }

  lemma {:induction false} SortIsStable(s: seq<PeerId>, addresses: map<PeerId, PeerAddr>)
    ensures StableSortOf(SortByKey(s, addresses), s, addresses)
    ensures multiset(SortByKey(s, addresses)) == multiset(s)
  {
    if s != [] {
      var front, x := s[..|s| - 1], s[|s| - 1];
      assert s == front + [x];
      SortIsStable(front, addresses);
      InsertMembers(SortByKey(front, addresses), x, addresses);
      InsertSorted(SortByKey(front, addresses), x, addresses);
      forall key ensures Tier(SortByKey(s, addresses), addresses, key) == Tier(s, addresses, key) {
        TierSnoc(front, x, addresses, key);
        InsertIntoTier(SortByKey(front, addresses), x, addresses, key);
      }
    }
  }

  /** A key-ordered list is its three tiers, one after the other. */
  lemma {:induction false} SortedIsTiers(r: seq<PeerId>, addresses: map<PeerId, PeerAddr>)
    requires SortedByKey(r, addresses)
    ensures r == Tier(r, addresses, 0) + Tier(r, addresses, 1) + Tier(r, addresses, 2)
  {
    if r != [] {
      SortedIsTiers(r[1..], addresses);
      FirstTier(r, addresses, 0);
      FirstTier(r, addresses, 1);
      FirstTier(r, addresses, 2);
      hide Tier, SortKey, SortedByKey;
      PutFirst(r[0], Tier(r[1..], addresses, 0), Tier(r[1..], addresses, 1), Tier(r[1..], addresses, 2));
      HeadAndTail(r);
    }
  }

  lemma HeadAndTail<T>(s: seq<T>)
    requires s != []
    ensures s == [s[0]] + s[1..]
  {
  }

  lemma PutFirst<T>(x: T, a: seq<T>, b: seq<T>, c: seq<T>)
    ensures [x] + (a + b + c) == ([x] + a) + b + c
    ensures a == [] ==> [x] + (a + b + c) == a + ([x] + b) + c
    ensures a == [] && b == [] ==> [x] + (a + b + c) == a + b + ([x] + c)
  {
  }

  /** The head of a key-ordered list starts its own tier and empties the tiers below. */
  lemma FirstTier(r: seq<PeerId>, addresses: map<PeerId, PeerAddr>, key: nat)
    requires r != [] && SortedByKey(r, addresses)
    ensures SortKey(addresses, r[0]) == key ==> Tier(r, addresses, key) == [r[0]] + Tier(r[1..], addresses, key)
    ensures SortKey(addresses, r[0]) < key ==> Tier(r, addresses, key) == Tier(r[1..], addresses, key)
    ensures SortKey(addresses, r[0]) > key ==> Tier(r, addresses, key) == [] && Tier(r[1..], addresses, key) == []
    ensures SortKey(addresses, r[0]) <= 2
  {
    if SortKey(addresses, r[0]) > key {
      TierAbove(r, addresses, key);
      TierAbove(r[1..], addresses, key);
    }
  }

  lemma OrderedPoolMembers(u: UiState, port: Port)
    ensures forall x ::
              x in OrderedPool(u, port) <==> x in PoolAt(u.serverPools, port) || x in PoolAt(u.stickyPools, port)
  {
    var merged := Merge(PoolAt(u.serverPools, port), PoolAt(u.stickyPools, port));
    MergeMembers(PoolAt(u.serverPools, port), PoolAt(u.stickyPools, port));
    SortIsStable(merged, u.addresses);
    forall x ensures x in OrderedPool(u, port) <==> x in merged {
      assert x in OrderedPool(u, port) <==> multiset(OrderedPool(u, port))[x] > 0;
      assert x in merged <==> multiset(merged)[x] > 0;
    }
  }

  lemma NoDuplicatesByCount<T>(s: seq<T>, r: seq<T>)
    requires multiset(s) == multiset(r)
    ensures NoDuplicates(s) ==> NoDuplicates(r)
  {
    if NoDuplicates(s) {
      forall i, j | 0 <= i < j < |r| ensures r[i] != r[j] {
        if r[i] == r[j] {
          TwiceCounted(r, i, j);
          OnceCounted(s, r[i]);
          assert false;
        }
      }
    }
  }

  lemma TwiceCounted<T>(r: seq<T>, i: nat, j: nat)
    requires i < j < |r| && r[i] == r[j]
    ensures multiset(r)[r[i]] >= 2
  {
    assert r == r[..i] + [r[i]] + r[i + 1..j] + [r[j]] + r[j + 1..];
  }

  lemma {:induction false} OnceCounted<T>(s: seq<T>, x: T)
    requires NoDuplicates(s)
    ensures multiset(s)[x] <= 1
  {
    if s != [] {
      assert s == [s[0]] + s[1..];
      OnceCounted(s[1..], x);
      if s[0] == x { assert x !in s[1..]; }
    }
  }

  /** The rotation pool is the one stable three-tier sort of the server pool extended by
      the sticky pool, and is free of duplicates exactly when the hub's list is. */
  lemma OrderedPoolIsTheStableSort(u: UiState, port: Port, r: seq<PeerId>)
    ensures var merged := Merge(PoolAt(u.serverPools, port), PoolAt(u.stickyPools, port));
            && (StableSortOf(r, merged, u.addresses) <==> r == OrderedPool(u, port))
            && (NoDuplicates(OrderedPool(u, port)) <==> NoDuplicates(PoolAt(u.serverPools, port)))
  {
    var merged := Merge(PoolAt(u.serverPools, port), PoolAt(u.stickyPools, port));
    var ordered := OrderedPool(u, port);
    SortIsStable(merged, u.addresses);
    MergeMembers(PoolAt(u.serverPools, port), PoolAt(u.stickyPools, port));
    NoDuplicatesByCount(merged, ordered);
    NoDuplicatesByCount(ordered, merged);
    SortedIsTiers(ordered, u.addresses);
    if StableSortOf(r, merged, u.addresses) {
      SortedIsTiers(r, u.addresses);
    }
  }
}

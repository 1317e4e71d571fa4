/** The tables of the operator's view, read off the events alone: what each holds, exactly,
    after any event sequence. */
module ViewTables {
  import opened Wrappers
  import opened Selection
  import opened Sequences
  import opened Sticky
  import opened Environments
  import opened Tui
  import opened TuiLaws

  // ---------- lists that grow by what they miss ----------

  /** The elements that are not in `known`, in order. */
  function Absent(s: seq<PeerId>, known: seq<PeerId>): seq<PeerId> {
    if s == [] then []
    else (if s[0] in known then [] else [s[0]]) + Absent(s[1..], known)
  }

  /** The list followed by what it misses of `more`, each once, in the order of `more`. */
  function Extended(s: seq<PeerId>, more: seq<PeerId>): seq<PeerId> {
    s + Absent(FirstOccurrences(more), s)
  }

  lemma {:induction false} AbsentSnoc(s: seq<PeerId>, x: PeerId, known: seq<PeerId>)
    ensures Absent(s + [x], known) == Absent(s, known) + (if x in known then [] else [x])
  {
    if s == [] {
      assert ([] + [x])[1..] == [];
    } else {
      assert (s + [x])[1..] == s[1..] + [x];
      AbsentSnoc(s[1..], x, known);
    }
  }

  lemma {:induction false} AbsentMembers(s: seq<PeerId>, known: seq<PeerId>)
    ensures forall x :: x in Absent(s, known) <==> x in s && x !in known
  {
    if s != [] {
      AbsentMembers(s[1..], known);
      assert s == [s[0]] + s[1..];
    }
  }

  lemma {:induction false} FirstOccurrencesSnoc(s: seq<PeerId>, x: PeerId)
    ensures FirstOccurrences(s + [x]) == FirstOccurrences(s) + (if x in s then [] else [x])
  {
    if s == [] {
      assert ([] + [x])[1..] == [];
    } else {
      assert (s + [x])[1..] == s[1..] + [x];
      assert s == [s[0]] + s[1..];
      FirstOccurrencesSnoc(s[1..], x);
      hide Without, FirstOccurrences;
      OccurrencesStep(s);
      OccurrencesStep(s + [x]);
      assert (s + [x])[0] == s[0];
      var tail := FirstOccurrences(s[1..]);
      if x in s[1..] {
        assert tail + [] == tail;
      } else {
        WithoutConcat(tail, [x], s[0]);
        WithoutOne(x, s[0]);
        assert [s[0]] + (Without(tail, s[0]) + [x]) == [s[0]] + Without(tail, s[0]) + [x];
        assert Without(tail, s[0]) + [] == Without(tail, s[0]);
      }
    }
  }

  lemma OccurrencesStep(s: seq<PeerId>)
    requires s != []
    ensures FirstOccurrences(s) == [s[0]] + Without(FirstOccurrences(s[1..]), s[0])
  {
  }

  lemma {:induction false} WithoutSwap(s: seq<PeerId>, x: PeerId, y: PeerId)
    ensures Without(Without(s, x), y) == Without(Without(s, y), x)
  {
    if s != [] { WithoutSwap(s[1..], x, y); }
  }

  lemma {:induction false} FirstOccurrencesWithout(s: seq<PeerId>, x: PeerId)
    ensures FirstOccurrences(Without(s, x)) == Without(FirstOccurrences(s), x)
  {
    if s != [] {
      FirstOccurrencesWithout(s[1..], x);
      var tail := FirstOccurrences(s[1..]);
      if s[0] == x {
        WithoutMembers(tail, x);
        WithoutAbsent(Without(tail, x), x);
      } else {
        WithoutSwap(tail, s[0], x);
        assert ([s[0]] + Without(s[1..], x))[1..] == Without(s[1..], x);
        assert ([s[0]] + Without(tail, s[0]))[1..] == Without(tail, s[0]);
      }
    }
  }

  lemma {:induction false} AbsentWithout(s: seq<PeerId>, known: seq<PeerId>, x: PeerId)
    ensures Absent(Without(s, x), Without(known, x)) == Without(Absent(s, known), x)
  {
    WithoutMembers(known, x);
    if s != [] {
      AbsentWithout(s[1..], known, x);
      var first := if s[0] in known then [] else [s[0]];
      WithoutConcat(first, Absent(s[1..], known), x);
      WithoutOne(s[0], x);
      if s[0] != x { assert ([s[0]] + Without(s[1..], x))[1..] == Without(s[1..], x); }
    }
  }

  /** One more element is appended exactly if it is not in the list yet. */
  lemma ExtendedSnoc(s: seq<PeerId>, more: seq<PeerId>, x: PeerId)
    ensures Extended(s, more + [x]) == WithMember(Extended(s, more), x)
  {
    hide Absent, FirstOccurrences;
    FirstOccurrencesSnoc(more, x);
    FirstOccurrencesMembers(more);
    AbsentMembers(FirstOccurrences(more), s);
    if x !in more {
      AbsentSnoc(FirstOccurrences(more), x, s);
      assert s + (Absent(FirstOccurrences(more), s) + [x]) == s + Absent(FirstOccurrences(more), s) + [x];
    } else {
      assert FirstOccurrences(more) + [] == FirstOccurrences(more);
    }
  }

  lemma ExtendedWithout(s: seq<PeerId>, more: seq<PeerId>, x: PeerId)
    ensures Without(Extended(s, more), x) == Extended(Without(s, x), Without(more, x))
  {
    hide Absent, FirstOccurrences, Without;
    WithoutConcat(s, Absent(FirstOccurrences(more), s), x);
    AbsentWithout(FirstOccurrences(more), s, x);
    FirstOccurrencesWithout(more, x);
  }

  lemma NothingMissing(s: seq<PeerId>)
    ensures Extended(s, []) == s
  {
  }

  /** So merging two pools appends to the first what it misses of the second, in order. */
  lemma {:induction false} MergeExactly(pool: seq<PeerId>, more: seq<PeerId>)
    ensures Merge(pool, more) == pool + Absent(FirstOccurrences(more), pool)
  {
    if more == [] {
      NothingMissing(pool);
    } else {
      var front, x := more[..|more| - 1], more[|more| - 1];
      assert more == front + [x];
      MergeExactly(pool, front);
      MergeSnoc(pool, front, x);
      ExtendedSnoc(pool, front, x);
    }
  }

  lemma {:induction false} MergeSnoc(pool: seq<PeerId>, more: seq<PeerId>, x: PeerId)
    ensures Merge(pool, more + [x]) == WithMember(Merge(pool, more), x)
    decreases |more|
  {
    if more == [] {
      assert ([] + [x])[1..] == [];
    } else {
      assert (more + [x])[1..] == more[1..] + [x];
      MergeSnoc(WithMember(pool, more[0]), more[1..], x);
    }
  }

  // ---------- the hub's pool ----------

  predicate ListsHub(e: UiEvent, port: Port) {
    e.Protocol? && e.event.ServerPool? && e.event.port == port
  }

  /** These peers, less those that disconnect in the events. */
  function Surviving(peers: seq<PeerId>, since: seq<UiEvent>): seq<PeerId> {
    if peers == [] then []
    else (if PeerDown(peers[0]) in since then [] else [peers[0]]) + Surviving(peers[1..], since)
  }

  function AsList(peer: Option<PeerId>): seq<PeerId> {
    if peer.Some? then [peer.value] else []
  }

  /** The announced exit, if the event announces one. */
  function ExitNamed(e: UiEvent, port: Port): seq<PeerId> {
    if Announces(e, port) then AsList(e.event.peer) else []
  }

  /** The exits announced for the port in the events, in order, less those that disconnect
      afterwards. */
  function AnnouncedIn(since: seq<UiEvent>, port: Port): seq<PeerId> {
    if since == [] then []
    else Surviving(ExitNamed(since[0], port), since[1..]) + AnnouncedIn(since[1..], port)
  }

  lemma {:induction false} SurvivingSnoc(peers: seq<PeerId>, since: seq<UiEvent>, e: UiEvent)
    ensures Surviving(peers, since + [e])
            == if e.PeerDown? then Without(Surviving(peers, since), e.peer) else Surviving(peers, since)
  {
    if peers != [] {
      SurvivingSnoc(peers[1..], since, e);
      assert PeerDown(peers[0]) in since + [e] <==> PeerDown(peers[0]) in since || e == PeerDown(peers[0]);
      hide Without;
      if e.PeerDown? {
        var first := if PeerDown(peers[0]) in since then [] else [peers[0]];
        WithoutConcat(first, Surviving(peers[1..], since), e.peer);
        WithoutOne(peers[0], e.peer);
      }
    }
  }

  lemma WithoutOne(y: PeerId, x: PeerId)
    ensures Without([y], x) == (if y == x then [] else [y]) && Without<PeerId>([], x) == []
  {
    if y == x { WithoutSelf(x); } else { WithoutAbsent([y], x); }
  }

  lemma {:induction false} AnnouncedSnoc(since: seq<UiEvent>, e: UiEvent, port: Port)
    ensures AnnouncedIn(since + [e], port)
            == if e.PeerDown? then Without(AnnouncedIn(since, port), e.peer)
               else AnnouncedIn(since, port) + ExitNamed(e, port)
  {
    if since == [] {
      assert ([] + [e])[1..] == [];
      NobodyLeft(ExitNamed(e, port));
      if e.PeerDown? { WithoutOne(e.peer, e.peer); }
    } else {
      var tail := since[1..];
      assert (since + [e])[1..] == tail + [e];
      AnnouncedSnoc(tail, e, port);
      hide Without, Surviving;
      var first := ExitNamed(since[0], port);
      SurvivingSnoc(first, tail, e);
      if e.PeerDown? {
        WithoutConcat(Surviving(first, tail), AnnouncedIn(tail, port), e.peer);
      } else {
        assert Surviving(first, tail) + (AnnouncedIn(tail, port) + ExitNamed(e, port))
               == Surviving(first, tail) + AnnouncedIn(tail, port) + ExitNamed(e, port);
      }
    }
  }

  // ---------- the reducer, table by table ----------

  predicate SameRest(u: UiState, v: UiState) {
    && v.localPeer == u.localPeer && v.banner == u.banner && v.pinnedStatuses == u.pinnedStatuses
    && v.sessions == u.sessions && v.stickyPools == u.stickyPools
  }

  lemma HubPoolTables(u: UiState, port: Port, rows: seq<PoolPeer>)
    ensures var v := HubPool(u, port, rows);
            && SameRest(u, v) && v.status == u.status && v.peers == u.peers && v.sources == u.sources
            && v.addresses == NoteAll(u.addresses, rows, true)
            && forall p :: p != port ==> PoolAt(v.serverPools, p) == PoolAt(u.serverPools, p)
  {
  }

  lemma ExitSetTables(u: UiState, port: Port, peer: PeerId, source: Option<DestinationSource>)
    ensures var v := ExitSet(u, port, peer, source);
            && SameRest(u, v) && v.status == u.status && v.peers == u.peers + {peer}
            && v.sources == (if source.Some? then u.sources[port := source.value] else u.sources - {port})
            && v.addresses == u.addresses
            && (forall p :: PoolAt(v.serverPools, p)
                  == if p == port then WithMember(PoolAt(u.serverPools, p), peer) else PoolAt(u.serverPools, p))
  {
    hide WithMember;
  }

  lemma DroppedTables(u: UiState, peer: PeerId)
    ensures var v := Dropped(u, peer);
            && SameRest(u, v) && v.peers == u.peers - {peer} && v.sources == u.sources
            && v.status == (if u.peers - {peer} == {} then Disconnected else u.status)
            && v.addresses == u.addresses - {peer}
            && (forall p :: PoolAt(v.serverPools, p) == Without(PoolAt(u.serverPools, p), peer))
  {
    assert Without<PeerId>([], peer) == [];
  }

  /** What a protocol event does to each table but the server pools. */
  lemma ProtocolTables(u: UiState, e: Event)
    ensures var v := ReduceProtocol(u, e);
            && v.localPeer == u.localPeer && v.status == u.status && v.sessions == u.sessions
            && v.banner == (u.banner || e.ErrorShown?)
            && v.peers == (if e.ActiveDestination? && e.peer.Some? then u.peers + {e.peer.value} else u.peers)
            && v.pinnedStatuses
               == (if e.PinnedPeerStatuses? then u.pinnedStatuses[e.port := e.statuses] else u.pinnedStatuses)
            && v.stickyPools
               == (if e.StickyPoolShown? then u.stickyPools[e.port := PeerIds(e.peers)] else u.stickyPools)
            && v.sources
               == (if !e.ActiveDestination? then u.sources
                   else if e.peer.Some? && e.source.Some? then u.sources[e.port := e.source.value]
                   else u.sources - {e.port})
            && v.addresses
               == (if e.ServerPool? then NoteAll(u.addresses, e.peers, true)
                   else if e.StickyPoolShown? then NoteAll(u.addresses, e.peers, false)
                   else u.addresses)
  {
    hide HubPool, ExitSet, NoteAll;
    match e
    case ServerPool(port, rows) => HubPoolTables(u, port, rows);
    case ActiveDestination(port, Some(peer), source) => ExitSetTables(u, port, peer, source);
    case _ =>
  }

  lemma ProtocolPools(u: UiState, e: Event, port: Port)
    requires !(e.ServerPool? && e.port == port)
    ensures PoolAt(ReduceProtocol(u, e).serverPools, port)
            == if e.ActiveDestination? && e.port == port && e.peer.Some? then
                 WithMember(PoolAt(u.serverPools, port), e.peer.value)
               else PoolAt(u.serverPools, port)
  {
    hide HubPool, ExitSet, NoteAll;
    match e
    case ServerPool(p, rows) => HubPoolTables(u, p, rows);
    case ActiveDestination(p, Some(peer), source) => ExitSetTables(u, p, peer, source);
    case _ =>
  }

  lemma PoolStep(u: UiState, e: UiEvent, port: Port)
    requires !ListsHub(e, port)
    ensures var pool := PoolAt(u.serverPools, port);
            PoolAt(Reduce(u, e).serverPools, port)
            == if e.PeerDown? then Without(pool, e.peer)
               else if Announces(e, port) && e.event.peer.Some? then WithMember(pool, e.event.peer.value)
               else pool
  {
    hide ReduceProtocol, Dropped, Credited;
    if e.PeerDown? { DroppedTables(u, e.peer); }
    if e.Protocol? { ProtocolPools(u, e.event, port); }
  }

  /** From a known list on, while the hub sends no other. */
  lemma {:induction false} ListSince(u: UiState, since: seq<UiEvent>, port: Port, hub: seq<PeerId>, was: seq<PeerId>)
    requires PoolAt(u.serverPools, port) == Extended(hub, was)
    requires forall k :: 0 <= k < |since| ==> !ListsHub(since[k], port)
    ensures PoolAt(ReduceAll(u, since).serverPools, port)
            == Extended(Surviving(hub, since), Surviving(was, since) + AnnouncedIn(since, port))
    decreases |since|
  {
    hide Reduce, Extended, Without;
    if since == [] {
      NobodyLeft(hub);
      NobodyLeft(was);
      assert was + [] == was;
    } else {
      var front, e := since[..|since| - 1], since[|since| - 1];
      assert since == front + [e];
      ListSince(u, front, port, hub, was);
      PoolStep(ReduceAll(u, front), e, port);
      SurvivingSnoc(hub, front, e);
      SurvivingSnoc(was, front, e);
      AnnouncedSnoc(front, e, port);
      PoolArithmetic(Surviving(hub, front), Surviving(was, front), AnnouncedIn(front, port), e, port);
    }
  }

  lemma {:induction false} NobodyLeft(peers: seq<PeerId>)
    ensures Surviving(peers, []) == peers
  {
    if peers != [] { NobodyLeft(peers[1..]); }
  }

  lemma PoolArithmetic(hub: seq<PeerId>, was: seq<PeerId>, named: seq<PeerId>, e: UiEvent, port: Port)
    ensures e.PeerDown? ==>
              Without(Extended(hub, was + named), e.peer)
              == Extended(Without(hub, e.peer), Without(was, e.peer) + Without(named, e.peer))
    ensures Announces(e, port) && e.event.peer.Some? ==>
              WithMember(Extended(hub, was + named), e.event.peer.value)
              == Extended(hub, was + (named + ExitNamed(e, port)))
    ensures !(Announces(e, port) && e.event.peer.Some?) ==>
              Extended(hub, was + (named + ExitNamed(e, port))) == Extended(hub, was + named)
  {
    hide Extended, Without;
    if e.PeerDown? {
      ExtendedWithout(hub, was + named, e.peer);
      WithoutConcat(was, named, e.peer);
    }
    if Announces(e, port) && e.event.peer.Some? {
      ExtendedSnoc(hub, was + named, e.event.peer.value);
      assert was + (named + [e.event.peer.value]) == was + named + [e.event.peer.value];
    } else {
      assert named + [] == named;
    }
  }

  lemma {:induction false} ReduceAllSplit(u: UiState, front: seq<UiEvent>, back: seq<UiEvent>)
    ensures ReduceAll(u, front + back) == ReduceAll(ReduceAll(u, front), back)
    decreases |back|
  {
    if back == [] {
      assert front + back == front;
    } else {
      assert (front + back)[..|front + back| - 1] == front + back[..|back| - 1];
      ReduceAllSplit(u, front, back[..|back| - 1]);
    }
  }

  /** The pool of a port since the hub's last list for it, at event i: the candidates of that
      list in the hub's order, then the exit that was active then, then each exit announced
      since, in order; every peer that has disconnected since its entry is left out, and
      nobody is appended twice or appended though the hub listed it. */
  lemma ServerPoolExactly(events: seq<UiEvent>, port: Port, i: nat)
    requires i < |events| && ListsHub(events[i], port)
    requires forall k :: i < k < |events| ==> !ListsHub(events[k], port)
    ensures var since := events[i + 1..];
            var rows := events[i].event.peers;
            var hub := Surviving(seq(|rows|, k requires 0 <= k < |rows| => rows[k].peerId), since);
            var entered := Surviving(AsList(ActiveDue(events[..i], port)), since) + AnnouncedIn(since, port);
            PoolAt(ReduceAll(BLANK_UI, events).serverPools, port) == hub + Absent(FirstOccurrences(entered), hub)
  {
    var front, since := events[..i], events[i + 1..];
    var u := ReduceAll(BLANK_UI, front);
    var rows := events[i].event.peers;
    var ids := seq(|rows|, k requires 0 <= k < |rows| => rows[k].peerId);
    assert ids == PeerIds(rows);
    assert events == front + ([events[i]] + since);
    ReduceAllSplit(BLANK_UI, front, [events[i]] + since);
    ReduceAllSplit(u, [events[i]], since);
    ReduceOne(u, events[i]);
    ActiveIsDue(front, port);
    ListedWithActive(u, port, rows);
    ListSince(Reduce(u, events[i]), since, port, ids, AsList(ActiveAt(u, port)));
  }

  lemma ReduceOne(u: UiState, e: UiEvent)
    ensures ReduceAll(u, [e]) == Reduce(u, e)
  {
    assert [e][..0] == [];
  }

  lemma ListedWithActive(u: UiState, port: Port, rows: seq<PoolPeer>)
    ensures PoolAt(HubPool(u, port, rows).serverPools, port) == Extended(PeerIds(rows), AsList(ActiveAt(u, port)))
  {
    hide NoteAll, Absent, FirstOccurrences;
    NothingMissing(PeerIds(rows));
    if port in u.active {
      ExtendedSnoc(PeerIds(rows), [], u.active[port]);
      assert [] + [u.active[port]] == [u.active[port]];
    }
  }

  /** Before the hub's first list for the port: the announced exits alone. */
  lemma ServerPoolUnlisted(events: seq<UiEvent>, port: Port)
    requires forall k :: 0 <= k < |events| ==> !ListsHub(events[k], port)
    ensures PoolAt(ReduceAll(BLANK_UI, events).serverPools, port) == FirstOccurrences(AnnouncedIn(events, port))
  {
    NothingMissing([]);
    ListSince(BLANK_UI, events, port, [], []);
    assert [] + AnnouncedIn(events, port) == AnnouncedIn(events, port);
    NothingKnown(FirstOccurrences(AnnouncedIn(events, port)));
  }

  lemma {:induction false} NothingKnown(s: seq<PeerId>)
    ensures Absent(s, []) == s
  {
    if s != [] { NothingKnown(s[1..]); }
  }

  // ---------- what was last said ----------

  /** The last sticky pool shown for the port, if any. */
  function LastStickyPool(events: seq<UiEvent>, port: Port): Option<seq<PoolPeer>> {
    if events == [] then None
    else match events[|events| - 1]
         case Protocol(StickyPoolShown(p, rows)) =>
           if p == port then Some(rows) else LastStickyPool(events[..|events| - 1], port)
         case _ => LastStickyPool(events[..|events| - 1], port)
  }

  function LastStatuses(events: seq<UiEvent>, port: Port): Option<seq<PinnedPeerStatus>> {
    if events == [] then None
    else match events[|events| - 1]
         case Protocol(PinnedPeerStatuses(p, rows)) =>
           if p == port then Some(rows) else LastStatuses(events[..|events| - 1], port)
         case _ => LastStatuses(events[..|events| - 1], port)
  }

  function LastSource(events: seq<UiEvent>, port: Port): Option<DestinationSource> {
    if events == [] then None
    else
      var e := events[|events| - 1];
      if !Announces(e, port) then LastSource(events[..|events| - 1], port)
      else if e.event.peer.Some? then e.event.source else None
  }

  function LastLocal(events: seq<UiEvent>): Option<PeerId> {
    if events == [] then None
    else if events[|events| - 1].LocalPeerKnown? then Some(events[|events| - 1].peer)
    else LastLocal(events[..|events| - 1])
  }

  lemma SaidStep(u: UiState, e: UiEvent)
    ensures var v := Reduce(u, e);
            && v.stickyPools == (if e.Protocol? && e.event.StickyPoolShown? then
                                   u.stickyPools[e.event.port := PeerIds(e.event.peers)]
                                 else u.stickyPools)
            && v.pinnedStatuses == (if e.Protocol? && e.event.PinnedPeerStatuses? then
                                      u.pinnedStatuses[e.event.port := e.event.statuses]
                                    else u.pinnedStatuses)
            && v.localPeer == (if e.LocalPeerKnown? then Some(e.peer) else u.localPeer)
  {
    hide ReduceProtocol, Dropped, Credited;
    if e.Protocol? { ProtocolTables(u, e.event); }
    if e.PeerDown? { DroppedTables(u, e.peer); }
  }

  lemma SourceStep(u: UiState, e: UiEvent, port: Port)
    ensures var v := Reduce(u, e);
            if Announces(e, port) then
              if e.event.peer.Some? && e.event.source.Some? then
                port in v.sources && v.sources[port] == e.event.source.value
              else port !in v.sources
            else
              (port in v.sources <==> port in u.sources)
              && (port in u.sources ==> v.sources[port] == u.sources[port])
  {
    hide ReduceProtocol, Dropped, Credited;
    if e.Protocol? { ProtocolTables(u, e.event); }
    if e.PeerDown? { DroppedTables(u, e.peer); }
  }

  /** Over any event sequence the sticky pool of a port is the ids of the one last shown, its
      pin rows are those last shown, the source of its exit is that of the last announcement,
      and the own id is the one last made known; each is absent exactly if there was none. */
  lemma {:induction false} LastSaidIsShown(events: seq<UiEvent>, port: Port)
    ensures var u := ReduceAll(BLANK_UI, events);
            var pool, rows := LastStickyPool(events, port), LastStatuses(events, port);
            var source := LastSource(events, port);
            && (port in u.stickyPools <==> pool.Some?)
            && (pool.Some? ==>
                  && |u.stickyPools[port]| == |pool.value|
                  && forall k :: 0 <= k < |pool.value| ==> u.stickyPools[port][k] == pool.value[k].peerId)
            && (port in u.pinnedStatuses <==> rows.Some?)
            && (rows.Some? ==> u.pinnedStatuses[port] == rows.value)
            && (port in u.sources <==> source.Some?)
            && (source.Some? ==> u.sources[port] == source.value)
            && u.localPeer == LastLocal(events)
  {
    if events != [] {
      var front, e := events[..|events| - 1], events[|events| - 1];
      LastSaidIsShown(front, port);
      SaidStep(ReduceAll(BLANK_UI, front), e);
      SourceStep(ReduceAll(BLANK_UI, front), e, port);
      hide Reduce;
    }
  }

  // ---------- what holds since an event ----------

  /** Some event started it and no later one ended it. */
  ghost predicate HeldSince(events: seq<UiEvent>, starts: UiEvent -> bool, ends: UiEvent -> bool) {
    exists i :: 0 <= i < |events| && starts(events[i]) && forall k :: i < k < |events| ==> !ends(events[k])
  }

  lemma HeldSnoc(front: seq<UiEvent>, e: UiEvent, starts: UiEvent -> bool, ends: UiEvent -> bool)
    ensures HeldSince(front + [e], starts, ends) <==> starts(e) || (HeldSince(front, starts, ends) && !ends(e))
  {
    var events := front + [e];
    assert events[|front|] == e && forall k :: 0 <= k < |front| ==> events[k] == front[k];
    if HeldSince(front, starts, ends) && !ends(e) {
      var i :| 0 <= i < |front| && starts(front[i]) && forall k :: i < k < |front| ==> !ends(front[k]);
      assert starts(events[i]);
    }
    if HeldSince(events, starts, ends) && !starts(e) {
      var i :| 0 <= i < |events| && starts(events[i]) && forall k :: i < k < |events| ==> !ends(events[k]);
      assert i < |front| && starts(front[i]);
    }
  }

  /** The event names the peer as present. */
  predicate Appears(e: UiEvent, peer: PeerId) {
    || e == PeerUp(peer)
    || (e.SessionNew? && e.peer == peer)
    || (e.Protocol? && e.event.ActiveDestination? && e.event.peer == Some(peer))
  }

  function AppearsAs(peer: PeerId): UiEvent -> bool {
    (e: UiEvent) => Appears(e, peer)
  }

  function Being(event: UiEvent): UiEvent -> bool {
    (e: UiEvent) => e == event
  }

  function Beginning(id: SessionId): UiEvent -> bool {
    (e: UiEvent) => e.SessionNew? && e.session == id
  }

  function ComingUp(): UiEvent -> bool {
    (e: UiEvent) => e.PeerUp?
  }

  ghost predicate Present(events: seq<UiEvent>, peer: PeerId) {
    HeldSince(events, AppearsAs(peer), Being(PeerDown(peer)))
  }

  lemma PresentStep(u: UiState, e: UiEvent, peer: PeerId)
    ensures peer in Reduce(u, e).peers <==> Appears(e, peer) || (peer in u.peers && e != PeerDown(peer))
  {
    hide ReduceProtocol, Dropped, Credited;
    if e.Protocol? { ProtocolTables(u, e.event); }
    if e.PeerDown? { DroppedTables(u, e.peer); }
  }

  /** A peer is listed exactly if it has appeared and not disconnected since. */
  lemma {:induction false} PeersExactly(events: seq<UiEvent>, peer: PeerId)
    ensures peer in ReduceAll(BLANK_UI, events).peers <==> Present(events, peer)
  {
    if events != [] {
      var front, e := events[..|events| - 1], events[|events| - 1];
      assert events == front + [e];
      PeersExactly(front, peer);
      PresentStep(ReduceAll(BLANK_UI, front), e, peer);
      HeldSnoc(front, e, AppearsAs(peer), Being(PeerDown(peer)));
      hide Reduce, HeldSince;
    }
  }

  lemma SessionBannerStep(u: UiState, e: UiEvent, id: SessionId)
    ensures var v := Reduce(u, e);
            && (id in v.sessions <==> (e.SessionNew? && e.session == id) || (id in u.sessions && e != SessionEnd(id)))
            && (v.banner <==> e == Protocol(ErrorShown) || (u.banner && !e.PeerUp?))
  {
    hide ReduceProtocol, Dropped, Credited;
    if e.Protocol? { ProtocolTables(u, e.event); }
    if e.PeerDown? { DroppedTables(u, e.peer); }
  }

  /** A session is counted exactly if it began and has not ended; the banner is up exactly if
      an error was shown and no link has come up since. */
  lemma {:induction false} SessionsAndBannerExactly(events: seq<UiEvent>, id: SessionId)
    ensures var u := ReduceAll(BLANK_UI, events);
            && (id in u.sessions <==> HeldSince(events, Beginning(id), Being(SessionEnd(id))))
            && (u.banner <==> HeldSince(events, Being(Protocol(ErrorShown)), ComingUp()))
  {
    if events != [] {
      var front, e := events[..|events| - 1], events[|events| - 1];
      assert events == front + [e];
      SessionsAndBannerExactly(front, id);
      SessionBannerStep(ReduceAll(BLANK_UI, front), e, id);
      HeldSnoc(front, e, Beginning(id), Being(SessionEnd(id)));
      HeldSnoc(front, e, Being(Protocol(ErrorShown)), ComingUp());
      hide Reduce, HeldSince;
    }
  }

  /** The link status: the peer whose link last came up, until another attempt is reported or
      the last peer present disconnects. */
  ghost function StatusDue(events: seq<UiEvent>): Status {
    if events == [] then Connecting
    else
      var front, e := events[..|events| - 1], events[|events| - 1];
      match e
      case PeerUp(peer) => ConnectedTo(peer)
      case LinkPending => Connecting
      case PeerDown(peer) => if exists q :: q != peer && Present(front, q) then StatusDue(front) else Disconnected
      case _ => StatusDue(front)
  }

  lemma StatusStep(u: UiState, e: UiEvent)
    ensures Reduce(u, e).status
            == match e
               case PeerUp(peer) => ConnectedTo(peer)
               case LinkPending => Connecting
               case PeerDown(peer) => if u.peers - {peer} == {} then Disconnected else u.status
               case _ => u.status
  {
    hide ReduceProtocol, Dropped, Credited;
    if e.Protocol? { ProtocolTables(u, e.event); }
    if e.PeerDown? { DroppedTables(u, e.peer); }
  }

  lemma {:induction false} StatusExactly(events: seq<UiEvent>)
    ensures ReduceAll(BLANK_UI, events).status == StatusDue(events)
  {
    if events != [] {
      var front, e := events[..|events| - 1], events[|events| - 1];
      StatusExactly(front);
      var u := ReduceAll(BLANK_UI, front);
      StatusStep(u, e);
      hide Reduce, Present;
      if e.PeerDown? { LastOneDown(front, e.peer); }
    }
  }

  lemma LastOneDown(events: seq<UiEvent>, peer: PeerId)
    ensures ReduceAll(BLANK_UI, events).peers - {peer} == {} <==> !(exists q :: q != peer && Present(events, q))
  {
    hide ReduceAll, Present;
    var rest := ReduceAll(BLANK_UI, events).peers - {peer};
    forall q ensures q in rest <==> q != peer && Present(events, q) { PeersExactly(events, q); }
  }

  // ---------- the address shown for a peer ----------

  /** The first address without a relay, or the first one if every address has one. */
  lemma {:induction false} PreferredExactly(addrs: seq<Multiaddr>, i: nat)
    requires i < |addrs|
    ensures P2pCircuit !in addrs[i] && (forall j :: 0 <= j < i ==> P2pCircuit in addrs[j]) ==>
              Preferred(addrs) == Some(addrs[i])
    ensures (forall j :: 0 <= j < |addrs| ==> P2pCircuit in addrs[j]) ==> Preferred(addrs) == Some(addrs[0])
  {
    if P2pCircuit !in addrs[i] && forall j :: 0 <= j < i ==> P2pCircuit in addrs[j] { FirstDirectAt(addrs, i); }
    if forall j :: 0 <= j < |addrs| ==> P2pCircuit in addrs[j] { NoneDirect(addrs); }
  }

  lemma {:induction false} FirstDirectAt(addrs: seq<Multiaddr>, i: nat)
    requires i < |addrs| && P2pCircuit !in addrs[i] && forall j :: 0 <= j < i ==> P2pCircuit in addrs[j]
    ensures FirstDirect(addrs) == Some(addrs[i])
  {
    if i > 0 {
      assert P2pCircuit in addrs[0];
      FirstDirectAt(addrs[1..], i - 1);
    }
  }

  lemma {:induction false} NoneDirect(addrs: seq<Multiaddr>)
    requires forall j :: 0 <= j < |addrs| ==> P2pCircuit in addrs[j]
    ensures FirstDirect(addrs) == None
  {
    if addrs != [] { NoneDirect(addrs[1..]); }
  }

  /** The address that the last row with one offers for the peer. */
  function OfferedBy(rows: seq<PoolPeer>, fromHub: bool, peer: PeerId): Option<Multiaddr> {
    if rows == [] then None
    else
      var row := rows[|rows| - 1];
      if row.peerId == peer && row.addresses != [] then
        if fromHub then Preferred(row.addresses) else Some(row.addresses[0])
      else OfferedBy(rows[..|rows| - 1], fromHub, peer)
  }

  /** The last candidate address offered for the peer since it last disconnected. */
  function CandidateDue(events: seq<UiEvent>, peer: PeerId): Option<Multiaddr> {
    if events == [] then None
    else CandidateAfter(CandidateDue(events[..|events| - 1], peer), events[|events| - 1], peer)
  }

  function CandidateAfter(before: Option<Multiaddr>, e: UiEvent, peer: PeerId): Option<Multiaddr> {
    match e
    case PeerDown(p) => if p == peer then None else before
    case Protocol(ServerPool(_, rows)) =>
      if OfferedBy(rows, true, peer).Some? then OfferedBy(rows, true, peer) else before
    case Protocol(StickyPoolShown(_, rows)) =>
      if OfferedBy(rows, false, peer).Some? then OfferedBy(rows, false, peer) else before
    case _ => before
  }

  /** The table holds the live route, or else the candidate, or else nothing. */
  predicate HoldsAddress(m: map<PeerId, PeerAddr>, peer: PeerId, live: Option<PeerAddr>, offered: Option<Multiaddr>) {
    if live.Some? then peer in m && m[peer] == live.value && live.value.source != Candidate
    else if offered.Some? then peer in m && m[peer] == PeerAddr(offered.value, Candidate)
    else peer !in m
  }

  lemma {:induction false} RowsKeepAddress(m: map<PeerId, PeerAddr>, rows: seq<PoolPeer>, fromHub: bool, peer: PeerId,
                                           live: Option<PeerAddr>, offered: Option<Multiaddr>)
    requires HoldsAddress(m, peer, live, offered)
    ensures var now := OfferedBy(rows, fromHub, peer);
            HoldsAddress(NoteAll(m, rows, fromHub), peer, live, if now.Some? then now else offered)
    decreases |rows|
  {
    if rows != [] {
      var front, row := rows[..|rows| - 1], rows[|rows| - 1];
      assert rows == front + [row];
      RowsKeepAddress(m, front, fromHub, peer, live, offered);
      NoteAllSnoc(m, front, row, fromHub);
      RowKeepsAddress(NoteAll(m, front, fromHub), row, fromHub, peer, live,
        if OfferedBy(front, fromHub, peer).Some? then OfferedBy(front, fromHub, peer) else offered);
      hide NoteAll, HoldsAddress, Preferred;
      PreferredSome(row.addresses);
    }
  }

  lemma PreferredSome(addrs: seq<Multiaddr>)
    ensures Preferred(addrs).Some? <==> addrs != []
  {
  }

  function RowAddress(row: PoolPeer, fromHub: bool): Option<Multiaddr> {
    if row.addresses == [] then None
    else if fromHub then Preferred(row.addresses) else Some(row.addresses[0])
  }

  function NoteRow(m: map<PeerId, PeerAddr>, row: PoolPeer, fromHub: bool): map<PeerId, PeerAddr> {
    var shown := RowAddress(row, fromHub);
    if shown.Some? then NoteAddress(m, row.peerId, shown.value, Candidate) else m
  }

  lemma {:induction false} NoteAllSnoc(m: map<PeerId, PeerAddr>, rows: seq<PoolPeer>, row: PoolPeer, fromHub: bool)
    ensures NoteAll(m, rows + [row], fromHub) == NoteRow(NoteAll(m, rows, fromHub), row, fromHub)
    decreases |rows|
  {
    hide NoteAddress, Preferred;
    PreferredSome(row.addresses);
    if rows == [] {
      assert ([] + [row])[1..] == [];
    } else {
      assert (rows + [row])[1..] == rows[1..] + [row];
      PreferredSome(rows[0].addresses);
      NoteAllSnoc(NoteRow(m, rows[0], fromHub), rows[1..], row, fromHub);
    }
  }

  lemma RowKeepsAddress(m: map<PeerId, PeerAddr>, row: PoolPeer, fromHub: bool, peer: PeerId, live: Option<PeerAddr>,
                        offered: Option<Multiaddr>)
    requires HoldsAddress(m, peer, live, offered)
    ensures HoldsAddress(NoteRow(m, row, fromHub), peer, live,
              if row.peerId == peer && RowAddress(row, fromHub).Some? then RowAddress(row, fromHub) else offered)
  {
    hide Preferred;
  }

  lemma StepKeepsAddress(u: UiState, e: UiEvent, peer: PeerId, live: Option<PeerAddr>, offered: Option<Multiaddr>)
    requires HoldsAddress(u.addresses, peer, live, offered)
    ensures HoldsAddress(Reduce(u, e).addresses, peer, LiveRouteAfter(live, e, peer), CandidateAfter(offered, e, peer))
  {
    hide ReduceProtocol, NoteAll, OfferedBy, Credited, Dropped;
    if e.Protocol? { ProtocolTables(u, e.event); }
    if e.PeerDown? { DroppedTables(u, e.peer); }
    match e
    case Protocol(ServerPool(_, rows)) => RowsKeepAddress(u.addresses, rows, true, peer, live, offered);
    case Protocol(StickyPoolShown(_, rows)) => RowsKeepAddress(u.addresses, rows, false, peer, live, offered);
    case PeerDown(p) => assert Reduce(u, e).addresses == u.addresses - {p};
    case PeerRoute(p, address, relayed) =>
      assert Reduce(u, e).addresses
             == NoteAddress(u.addresses, p, address, if relayed then RelayedLink else DirectLink);
    case _ =>
  }

  /** Over any event sequence the address table holds, for each peer, its live route, or else
      the last candidate address offered for it since it last disconnected, or else nothing;
      and its tier in every rotation pool is 0 with a direct route, 1 with a candidate address
      alone, and 2 otherwise. */
  lemma {:induction false} AddressExactly(events: seq<UiEvent>, peer: PeerId)
    ensures var m := ReduceAll(BLANK_UI, events).addresses;
            var live, offered := LiveRoute(events, peer), CandidateDue(events, peer);
            && HoldsAddress(m, peer, live, offered)
            && SortKey(m, peer) == (if live.Some? then if live.value.source == DirectLink then 0 else 2
                                    else if offered.Some? then 1 else 2)
  {
    if events != [] {
      var front, e := events[..|events| - 1], events[|events| - 1];
      AddressExactly(front, peer);
      StepKeepsAddress(ReduceAll(BLANK_UI, front), e, peer, LiveRoute(front, peer), CandidateDue(front, peer));
      hide Reduce, LiveRouteAfter, CandidateAfter;
    }
  }

  // ---------- a switch under way ----------

  function PendingAfterAll(pending: Option<Port>, events: seq<UiEvent>): Option<Port> {
    if events == [] then pending
    else PendingAfter(PendingAfterAll(pending, events[..|events| - 1]), events[|events| - 1])
  }

  /** A switch is shown as under way until its port's exit is announced or an error shown. */
  lemma {:induction false} PendingExactly(port: Port, events: seq<UiEvent>)
    ensures PendingAfterAll(Some(port), events)
            == if exists e :: e in events && (e == Protocol(ErrorShown) || Announces(e, port)) then None else Some(port)
    ensures PendingAfterAll(None, events) == None
  {
    if events != [] {
      var front, e := events[..|events| - 1], events[|events| - 1];
      assert events == front + [e];
      PendingExactly(port, front);
      assert e in events;
      if x :| x in front && (x == Protocol(ErrorShown) || Announces(x, port)) { assert x in events; }
      if x :| x in events && (x == Protocol(ErrorShown) || Announces(x, port)) { assert x == e || x in front; }
    }
  }
}

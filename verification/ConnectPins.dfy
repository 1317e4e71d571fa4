/** What a pinned connect proves about the ranks it passed over. */
module ConnectPins {
  import opened Wrappers
  import opened Selection
  import opened Sticky
  import opened Config
  import opened Environments
  import opened Backoffs
  import opened ConnectSpec
  import opened ConnectPools

  /** At i the trace opens a race over `routes` in which every dial failed. */
  predicate LostRace(t: Trace, i: nat, routes: set<Multiaddr>) {
    var direct, relayed := Direct(routes), Relayed(routes);
    var j := if direct == {} then i + 1 else i + 2;
    && i < |t| && t[i] == Racing(routes)
    && (direct != {} ==> i + 1 < |t| && LostDial(t[i + 1], direct))
    && (relayed != {} ==> j < |t| && LostDial(t[j], relayed))
  }

  predicate LostDial(a: Act, addresses: set<Multiaddr>) {
    a.Dialling? && a.addresses == addresses && Reached(a.reached).None?
  }

  /** Rank k had no route, or lost a race somewhere after `from`. */
  ghost predicate RankFailed(t: Trace, from: nat, pinned: seq<DestinationPeerEntry>, routes: Routes, k: nat)
    requires k < |pinned|
  {
    var candidate := CandidateRoutes(pinned[k], routes);
    candidate == {} || exists i :: from <= i < |t| && LostRace(t, i, candidate)
  }

  lemma RaceLost(w: World, t: Trace, routes: set<Multiaddr>)
    requires DialRoutes(w, t, routes).peer.None?
    ensures LostRace(DialRoutes(w, t, routes).trace, |t|, routes)
  {
  }

  lemma LostRaceStays(t: Trace, u: Trace, i: nat, routes: set<Multiaddr>)
    requires t <= u && LostRace(t, i, routes)
    ensures LostRace(u, i, routes)
  {
  }

  /** The rank that connected is the first one that could: every rank before it had no
      route or lost its race in this very pass. */
  lemma {:induction false} RanksBeforeFailed(w: World, t: Trace, pinned: seq<DestinationPeerEntry>, routes: Routes,
                                             rank: nat, k: nat)
    requires rank <= k < |pinned|
    requires var r := TryRanks(w, t, pinned, routes, rank); r.peer.Some? ==> k < r.rank
    ensures RankFailed(TryRanks(w, t, pinned, routes, rank).trace, |t|, pinned, routes, k)
    decreases |pinned| - rank
  {
    var candidate := CandidateRoutes(pinned[rank], routes);
    if candidate == {} {
      if rank < k { RanksBeforeFailed(w, t, pinned, routes, rank + 1, k); }
    } else {
      var race := DialRoutes(w, t, candidate);
      var u := TryRanks(w, t, pinned, routes, rank).trace;
      if rank == k {
        RaceLost(w, t, candidate);
        LostRaceStays(race.trace, u, |t|, candidate);
      } else {
        RanksBeforeFailed(w, race.trace, pinned, routes, rank + 1, k);
      }
    }
  }

  /** The answers that adoption collected: "not connected" for every better rank, in
      order, and "connected" for the rank it settled on, unless that is the dialled one. */
  function Refusals(pinned: seq<DestinationPeerEntry>, lo: nat, hi: nat): Trace
    requires lo <= hi <= |pinned|
  {
    seq(hi - lo, i requires 0 <= i < hi - lo => AskingConnected(pinned[lo + i].peerId, false))
  }

  function AdoptionRecord(pinned: seq<DestinationPeerEntry>, lo: nat, settled: nat, dialled: nat): Trace
    requires lo <= settled <= dialled < |pinned|
  {
    Refusals(pinned, lo, settled) + (if settled < dialled then [AskingConnected(pinned[settled].peerId, true)] else [])
  }

  lemma {:induction false} AdoptionIsRecorded(w: World, t: Trace, pinned: seq<DestinationPeerEntry>, better: nat,
                                              rank: nat, peer: PeerId)
    requires better <= rank < |pinned| && peer == pinned[rank].peerId
    ensures var r := AdoptBest(w, t, pinned, better, rank, peer);
            && better <= r.rank <= rank && r.peer == Some(pinned[r.rank].peerId)
            && r.trace == t + AdoptionRecord(pinned, better, r.rank, rank)
    decreases rank - better
  {
    if better == rank {
      assert AdoptionRecord(pinned, better, rank, rank) == [];
    } else {
      var connected := w.net.isConnected(t, pinned[better].peerId);
      var a := AskingConnected(pinned[better].peerId, connected);
      if connected {
        assert AdoptionRecord(pinned, better, better, rank) == [a];
      } else {
        AdoptionIsRecorded(w, t + [a], pinned, better + 1, rank, peer);
        var settled := AdoptBest(w, t + [a], pinned, better + 1, rank, peer).rank;
        assert Refusals(pinned, better, settled) == [a] + Refusals(pinned, better + 1, settled);
        assert t + AdoptionRecord(pinned, better, settled, rank)
               == (t + [a]) + AdoptionRecord(pinned, better + 1, settled, rank);
      }
    }
  }

  lemma {:induction false} RankReachesItsPeer(w: World, t: Trace, pinned: seq<DestinationPeerEntry>,
                                              ids: seq<PeerId>, routes: Routes, rank: nat)
    requires HonestDialer(w.net) && HonestRoutes(ids, routes)
    requires forall e :: e in pinned ==> ValidEntry(e)
    ensures var r := TryRanks(w, t, pinned, routes, rank);
            r.peer.Some? ==> r.peer == Some(pinned[r.rank].peerId)
    decreases |pinned| - rank
  {
    if rank < |pinned| {
      var entry := pinned[rank];
      var candidate := CandidateRoutes(entry, routes);
      if candidate == {} {
        RankReachesItsPeer(w, t, pinned, ids, routes, rank + 1);
      } else {
        assert entry in pinned;
        forall a | a in candidate ensures LeadsTo(a, entry.peerId) {}
        OnlyTarget(candidate, entry.peerId);
        RaceReachesTarget(w, t, candidate);
        RankReachesItsPeer(w, DialRoutes(w, t, candidate).trace, pinned, ids, routes, rank + 1);
      }
    }
  }

  /** A successful pinned pass. `first` is the rank that connected. */
  ghost predicate PinnedWin(w: World, t: Trace, server: Server, r: Outcome, first: nat) {
    var pinned := server.Pinned();
    var tried := PinnedPass(w, t, server);
    && r.result.Ok? && r.result.value.source.Pinned?
    && tried.rank == first
    && var rank := r.result.value.source.rank;
    && rank <= first < |pinned|
    && r.result.value.peer == pinned[rank].peerId
    && r.trace == tried.trace + AdoptionRecord(pinned, 0, rank, first)
    && forall k :: 0 <= k < first ==> RankFailed(tried.trace, |t|, pinned, PinnedRoutes(w, t, pinned), k)
  }

  lemma PassWins(w: World, s: Store, t: Trace, server: Server, pass: nat)
    requires Honest(w.net) && server.Valid() && pass < MAX_PINNED_PASSES
    requires PinnedPass(w, t, server).peer.Some?
    ensures PinnedWin(w, t, server, ConnectPinned(w, s, t, server, pass), PinnedPass(w, t, server).rank)
  {
    var pinned := server.Pinned();
    var routes := PinnedRoutes(w, t, pinned);
    var start := PinnedPrelude(w, t, server.port, pinned);
    var tried := PinnedPass(w, t, server);
    UsableRoutesLead(w, t, PinnedIdSeq(pinned));
    RankReachesItsPeer(w, start, pinned, PinnedIdSeq(pinned), routes, 0);
    AdoptionIsRecorded(w, tried.trace, pinned, 0, tried.rank, tried.peer.value);
    forall k | 0 <= k < tried.rank ensures RankFailed(tried.trace, |t|, pinned, routes, k) {
      RanksBeforeFailed(w, start, pinned, routes, 0, k);
    }
  }

  /** Whenever a pinned connect returns a pinned rank, some pass of it was won, and that
      pass shows the returned rank to be the right one: it is the peer of that entry,
      every better rank was reported not connected at adoption, and every rank before
      the one that connected had no route or lost its race in that pass. */
  lemma {:induction false} PinnedSuccess(w: World, s: Store, t: Trace, server: Server, pass: nat)
    returns (u: Trace, first: nat)
    requires Honest(w.net) && server.Valid()
    requires WonByRank(ConnectPinned(w, s, t, server, pass))
    ensures t <= u && PinnedWin(w, u, server, ConnectPinned(w, s, t, server, pass), first)
    decreases MAX_PINNED_PASSES - pass
  {
    hide PinnedPass, PinnedWin, ConnectDiscovered;
    var tried := PinnedPass(w, t, server);
    if pass < MAX_PINNED_PASSES && tried.peer.Some? {
      PassWins(w, s, t, server, pass);
      u, first := t, tried.rank;
    } else {
      NextPass(w, s, t, server, pass);
      u, first := PinnedSuccess(w, s, tried.trace + [Sleeping(SECOND)], server, pass + 1);
    }
  }

  predicate WonByRank(r: Outcome) {
    r.result.Ok? && r.result.value.source.Pinned?
  }

  /** A rank can only still win after a lost pass if there is a next pass. */
  lemma NextPass(w: World, s: Store, t: Trace, server: Server, pass: nat)
    requires WonByRank(ConnectPinned(w, s, t, server, pass))
    requires pass < MAX_PINNED_PASSES ==> PinnedPass(w, t, server).peer.None?
    ensures pass < MAX_PINNED_PASSES
    ensures ConnectPinned(w, s, t, server, pass)
            == ConnectPinned(w, s, PinnedPass(w, t, server).trace + [Sleeping(SECOND)], server, pass + 1)
  {
    hide PinnedPass, ConnectDiscovered;
    if pass < MAX_PINNED_PASSES && server.fallbackToDiscovery {
      FallbackIsNotPinned(w, s, PinnedPass(w, t, server).trace, server);
    }
  }

  lemma FallbackIsNotPinned(w: World, s: Store, t: Trace, server: Server)
    ensures var r := ConnectDiscovered(w, s, t, server, None); r.result.Ok? ==> !r.result.value.source.Pinned?
  {
    var pass := ConnectPool(w, s, t, server, None);
    DiscoverEffect(w, pass.store, pass.trace, server, 0);
  }

  // ---------- pruned means tried, adopted means connected ----------

  /** Somewhere after `from` the trace resolves `peer` and loses the race over its routes. */
  ghost predicate TriedInVain(t: Trace, from: nat, peer: PeerId) {
    exists i :: from <= i && i + 1 < |t| && t[i].Resolving? && t[i].peers == [peer]
                && t[i + 1].Racing? && LostRace(t, i + 1, t[i + 1].route)
  }

  lemma ReachTried(w: World, s: Store, t: Trace, port: Port, peer: PeerId, u: Trace)
    requires var r := TryReach(w, s, t, port, peer); r.peer.None? && r.trace <= u
    ensures TriedInVain(u, |t|, peer)
  {
    var reply := w.net.resolve(t, [peer]);
    var routes := ReachRoutes(w.relay, s, port, peer, UsableRoutes(w.relay, [peer], reply));
    RaceLost(w, t + [Resolving([peer], reply)], routes);
    LostRaceStays(TryReach(w, s, t, port, peer).trace, u, |t| + 1, routes);
    assert u[|t|] == Resolving([peer], reply) && u[|t| + 1] == Racing(routes);
  }

  /** The pool pass leaves no member out: before it stops (at some j <= k) each member k
      other than the dropped peer has been resolved and lost its race. */
  lemma {:induction false} WalkLeavesNoneOut(w: World, s: Store, t: Trace, port: Port, peers: seq<PeerId>,
                                             skip: Option<PeerId>, k: nat)
    requires Honest(w.net) && k < |peers| && Some(peers[k]) != skip
    ensures var r := WalkPool(w, s, t, port, peers, skip);
            TriedInVain(r.trace, |t|, peers[k]) || (exists j :: 0 <= j <= k && r.peer == Some(peers[j]))
    decreases |peers|
  {
    var r := WalkPool(w, s, t, port, peers, skip);
    if Some(peers[0]) == skip {
      WalkLeavesNoneOut(w, s, t, port, peers[1..], skip, k - 1);
      Later(r, t, t, peers, k);
    } else {
      var reached := TryReach(w, s, t, port, peers[0]);
      ReachedIsPeer(w, s, t, port, peers[0]);
      if reached.peer.Some? {
        assert r.peer == Some(peers[0]);
      } else if k == 0 {
        ReachTried(w, s, t, port, peers[0], r.trace);
      } else {
        WalkLeavesNoneOut(w, Forget(s, port, peers[0]), reached.trace, port, peers[1..], skip, k - 1);
        Later(r, t, reached.trace, peers, k);
      }
    }
  }

  lemma Later(r: PoolPass, t: Trace, u: Trace, peers: seq<PeerId>, k: nat)
    requires t <= u && 1 <= k < |peers|
    requires TriedInVain(r.trace, |u|, peers[1..][k - 1])
             || (exists j :: 0 <= j <= k - 1 && r.peer == Some(peers[1..][j]))
    ensures TriedInVain(r.trace, |t|, peers[k]) || (exists j :: 0 <= j <= k && r.peer == Some(peers[j]))
  {
    if !TriedInVain(r.trace, |u|, peers[1..][k - 1]) {
      var j :| 0 <= j <= k - 1 && r.peer == Some(peers[1..][j]);
      assert r.peer == Some(peers[j + 1]);
    }
  }

  /** The last act is a dial that reached `peer`. */
  predicate EndsInDial(t: Trace, peer: PeerId) {
    t != [] && t[|t| - 1].Dialling? && Reached(t[|t| - 1].reached) == Some(peer)
  }

  lemma ReachEndsInDial(w: World, s: Store, t: Trace, port: Port, peer: PeerId)
    ensures Ended(TryReach(w, s, t, port, peer))
  {
  }

  predicate Ended(r: Reach) {
    r.peer.Some? ==> EndsInDial(r.trace, r.peer.value)
  }

  lemma {:induction false} ReconnectEndsInDial(w: World, s: Store, t: Trace, port: Port, peer: PeerId, attempt: nat)
    ensures Ended(Reconnect(w, s, t, port, peer, attempt))
    decreases STICKY_RECONNECT_ATTEMPTS - attempt
  {
    hide TryReach, AfterAttempt, EndsInDial;
    if attempt < STICKY_RECONNECT_ATTEMPTS {
      ReachEndsInDial(w, s, t, port, peer);
      var u := AfterAttempt(TryReach(w, s, t, port, peer).trace, attempt);
      ReconnectEndsInDial(w, s, u, port, peer, attempt + 1);
    }
  }

  lemma {:induction false} WalkEndsInDial(w: World, s: Store, t: Trace, port: Port, peers: seq<PeerId>,
                                          skip: Option<PeerId>)
    ensures var r := WalkPool(w, s, t, port, peers, skip); r.peer.Some? ==> EndsInDial(r.trace, r.peer.value)
    decreases |peers|
  {
    if peers != [] {
      if Some(peers[0]) == skip {
        WalkEndsInDial(w, s, t, port, peers[1..], skip);
      } else if TryReach(w, s, t, port, peers[0]).peer.None? {
        WalkEndsInDial(w, Forget(s, port, peers[0]), TryReach(w, s, t, port, peers[0]).trace, port, peers[1..], skip);
      }
    }
  }

  lemma {:induction false} DiscoverEndsInDial(w: World, s: Store, t: Trace, server: Server, attempt: nat)
    ensures var r := Discover(w, s, t, server, attempt); r.result.Ok? ==> EndsInDial(r.trace, r.result.value.peer)
    decreases MAX_DISCOVERY_ATTEMPTS - attempt
  {
    if attempt < MAX_DISCOVERY_ATTEMPTS && DiscoverOnce(w, t, server).peer.None? {
      DiscoverEndsInDial(w, s, DiscoverOnce(w, t, server).trace, server, attempt + 1);
    }
  }

  /** An exit chosen by discovery or reuse was dialled and reached as the very last act
      of the connect, whatever the world does. */
  lemma DiscoveredExitJustConnected(w: World, s: Store, t: Trace, server: Server, avoid: Option<PeerId>)
    ensures var r := ConnectDiscovered(w, s, t, server, avoid);
            r.result.Ok? ==> EndsInDial(r.trace, r.result.value.peer)
  {
    var s1, t1 := s, t;
    if Fights(server, avoid) {
      ReconnectEndsInDial(w, s, t, server.port, avoid.value, 0);
      s1, t1 := Forget(s, server.port, avoid.value), Reconnect(w, s, t, server.port, avoid.value, 0).trace;
    }
    var fp := server.Fingerprint();
    WalkEndsInDial(w, Invalidate(s1, server.port, fp), t1, server.port, PoolIds(s1, server.port, fp), avoid);
    var pass := ConnectPool(w, s1, t1, server, avoid);
    DiscoverEndsInDial(w, pass.store, pass.trace, server, 0);
  }
}

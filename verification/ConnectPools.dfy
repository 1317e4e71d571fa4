/** What a connect does to the exit pool, and who it can reach, in a world whose
    dialer and hub keep their contracts. */
module ConnectPools {
  import opened Wrappers
  import opened Selection
  import opened Sequences
  import opened NetworkActors
  import opened Sticky
  import opened Config
  import opened Environments
  import opened Backoffs
  import opened ConnectSpec
  import opened ConnectEffort

  ghost predicate Honest(net: Net) {
    HonestDialer(net) && HonestHub(net)
  }

  // ---------- reaching one peer ----------

  lemma RaceReachesTarget(w: World, t: Trace, routes: set<Multiaddr>)
    requires HonestDialer(w.net)
    ensures var r := DialRoutes(w, t, routes);
            r.peer.Some? ==> r.peer.value in DestinationPeerIds(routes)
  {
    var t0 := t + [Racing(routes)];
    var direct := DialSet(w, t0, Direct(routes));
    assert w.net.dial(t0, Direct(routes)).Ok? ==> AnswerAllowed(Direct(routes), w.net.dial(t0, Direct(routes)).value);
    assert w.net.dial(direct.trace, Relayed(routes)).Ok? ==>
           AnswerAllowed(Relayed(routes), w.net.dial(direct.trace, Relayed(routes)).value);
    assert DestinationPeerIds(Direct(routes)) <= DestinationPeerIds(routes);
    assert DestinationPeerIds(Relayed(routes)) <= DestinationPeerIds(routes);
  }

  lemma UsableRoutesLead(w: World, t: Trace, peers: seq<PeerId>)
    requires HonestHub(w.net)
    ensures HonestRoutes(peers, UsableRoutes(w.relay, peers, w.net.resolve(t, peers)))
  {
    forall p | p in Circuits(w.relay, peers)
      ensures p in peers && forall a :: a in Circuits(w.relay, peers)[p] ==> LeadsTo(a, p)
    {
      SynthesizedCircuitTargetsPeer(w.relay, p);
      WithP2pLeadsToPeer(w.relay + [P2pCircuit], p);
    }
  }

  /** A race dials no address outside its routes. */
  lemma RaceDialsRoutes(w: World, t: Trace, routes: set<Multiaddr>)
    ensures var u := DialRoutes(w, t, routes).trace;
            forall i :: |t| <= i < |u| && u[i].Dialling? ==>
              DestinationPeerIds(u[i].addresses) <= DestinationPeerIds(routes)
  {
  }

  lemma ReachRoutesLead(w: World, s: Store, t: Trace, port: Port, peer: PeerId)
    requires HonestHub(w.net)
    ensures var usable := UsableRoutes(w.relay, [peer], w.net.resolve(t, [peer]));
            forall a :: a in ReachRoutes(w.relay, s, port, peer, usable) ==> LeadsTo(a, peer)
  {
    var usable := UsableRoutes(w.relay, [peer], w.net.resolve(t, [peer]));
    UsableRoutesLead(w, t, [peer]);
    hide HonestHub, UsableRoutes;
    SynthesizedCircuitTargetsPeer(w.relay, peer);
    WithP2pLeadsToPeer(w.relay + [P2pCircuit], peer);
    var known := DirectAddress(s, port, peer);
    if known.Some? { WithP2pLeadsToPeer(known.value, peer); }
    forall a | a in AllRoutes(usable) ensures LeadsTo(a, peer) {
      var p :| p in usable && a in usable[p];
      assert p == peer;
    }
  }

  /** One attempt at a peer dials at least once, dials only routes that lead to that
      peer, and can reach nobody else. */
  lemma ReachOnlyThatPeer(w: World, s: Store, t: Trace, port: Port, peer: PeerId)
    requires Honest(w.net)
    ensures var r := TryReach(w, s, t, port, peer);
            && (r.peer.Some? ==> r.peer.value == peer)
            && Dials(r.trace) > Dials(t)
            && forall i :: |t| <= i < |r.trace| && r.trace[i].Dialling? ==>
              DestinationPeerIds(r.trace[i].addresses) <= {peer}
  {
    hide Within;
    var reply := w.net.resolve(t, [peer]);
    var t1 := t + [Resolving([peer], reply)];
    var routes := ReachRoutes(w.relay, s, port, peer, UsableRoutes(w.relay, [peer], reply));
    ReachRoutesLead(w, s, t, port, peer);
    OnlyTarget(routes, peer);
    RaceReachesTarget(w, t1, routes);
    RaceDialsRoutes(w, t1, routes);
    ReachWithin(w, s, t, port, peer);
  }

  /** The hub contract is needed: a resolution that names a stranger hands it over. */
  lemma DishonestHubRedirects(p: PeerId, q: PeerId)
    requires p != q
    ensures var lone := [P2p(q)];
            var net := Net((t, peers) => Ok(map[q := [lone]]), (t, server, n) => Err(Timeout),
                           (t, a) => Ok(if lone in a then Some(q) else None), (t, x) => false, t => |t|,
                             (t, ports) => []);
            && HonestDialer(net) && !HonestHub(net)
            && TryReach(World(net, []), map[], [], 0, p).peer == Some(q)
  {
    var lone := [P2p(q)];
    var net := Net((t, peers) => Ok(map[q := [lone]]), (t, server, n) => Err(Timeout),
                   (t, a) => Ok(if lone in a then Some(q) else None), (t, x) => false, t => |t|, (t, ports) => []);
    forall t, a | net.dial(t, a).Ok? ensures AnswerAllowed(a, net.dial(t, a).value) {
      if lone in a { assert LastP2p(lone) == Some(q); }
    }
    var strange: Routes := map[q := [lone]];
    assert q in strange && q !in [p];
    assert net.resolve([], [p]) == Ok(strange);
    var routes := ReachRoutes([], map[], 0, p, strange);
    assert strange[q][0] == lone && lone in strange[q];
    assert lone in AllRoutes(strange);
    assert !IsRelayed(lone);
    assert lone in Direct(routes);
  }

  lemma ReachedIsPeer(w: World, s: Store, t: Trace, port: Port, peer: PeerId)
    requires Honest(w.net)
    ensures TryReach(w, s, t, port, peer).peer.Some? ==> TryReach(w, s, t, port, peer).peer.value == peer
  {
    ReachOnlyThatPeer(w, s, t, port, peer);
  }

  lemma {:induction false} ReconnectOnlyThatPeer(w: World, s: Store, t: Trace, port: Port, peer: PeerId, attempt: nat)
    requires Honest(w.net)
    ensures var r := Reconnect(w, s, t, port, peer, attempt); r.peer.Some? ==> r.peer.value == peer
    decreases STICKY_RECONNECT_ATTEMPTS - attempt
  {
    hide TryReach, AfterAttempt, Honest;
    if attempt < STICKY_RECONNECT_ATTEMPTS {
      ReachedIsPeer(w, s, t, port, peer);
      var u := AfterAttempt(TryReach(w, s, t, port, peer).trace, attempt);
      ReconnectOnlyThatPeer(w, s, u, port, peer, attempt + 1);
    }
  }

  // ---------- the pool pass ----------

  /** The pool once its first i members have been walked: of those only the peer that
      just dropped is left. */
  function Survivors(pool: seq<PeerId>, skip: Option<PeerId>, i: nat): seq<PeerId>
    requires i <= |pool|
  {
    (if skip.Some? && skip.value in pool[..i] then [skip.value] else []) + pool[i..]
  }

  lemma SurvivorsStep(pool: seq<PeerId>, skip: Option<PeerId>, i: nat)
    requires NoDuplicates(pool) && i < |pool|
    ensures Some(pool[i]) == skip ==> Survivors(pool, skip, i + 1) == Survivors(pool, skip, i)
    ensures Some(pool[i]) != skip ==> Survivors(pool, skip, i + 1) == Without(Survivors(pool, skip, i), pool[i])
  {
    hide Without;
    assert pool[..i + 1] == pool[..i] + [pool[i]];
    assert pool[i..] == [pool[i]] + pool[i + 1..];
    if Some(pool[i]) != skip {
      var kept := if skip.Some? && skip.value in pool[..i] then [skip.value] else [];
      WithoutConcat(kept, pool[i..], pool[i]);
      WithoutAbsent(kept, pool[i]);
      WithoutConcat([pool[i]], pool[i + 1..], pool[i]);
      WithoutSelf(pool[i]);
      WithoutAbsent(pool[i + 1..], pool[i]);
    }
  }

  /** The pass stops at the first reachable member that is not the dropped peer, having
      pruned exactly the members it failed to reach. */
  ghost predicate WalkedTo(pool: seq<PeerId>, skip: Option<PeerId>, i: nat, r: PoolPass, port: Port, fp: string) {
    && i <= |pool|
    && PoolIds(r.store, port, fp) == Survivors(pool, skip, i)
    && (r.peer.None? <==> i == |pool|)
    && (r.peer.Some? ==> r.peer == Some(pool[i]) && r.peer != skip)
  }

  lemma {:induction false} WalkEffect(w: World, s: Store, t: Trace, port: Port, fp: string, pool: seq<PeerId>,
                                      i: nat, skip: Option<PeerId>)
    requires Honest(w.net) && Distinct(s) && NoDuplicates(pool)
    requires i <= |pool| && PoolIds(s, port, fp) == Survivors(pool, skip, i)
    ensures var r := WalkPool(w, s, t, port, pool[i..], skip);
            && Distinct(r.store)
            && (exists j: nat :: WalkedTo(pool, skip, j, r, port, fp))
            && OnlyPort(s, r.store, port)
    decreases |pool| - i
  {
    var r := WalkPool(w, s, t, port, pool[i..], skip);
    if i == |pool| {
      assert WalkedTo(pool, skip, i, r, port, fp);
    } else {
      assert pool[i..][0] == pool[i] && pool[i..][1..] == pool[i + 1..];
      SurvivorsStep(pool, skip, i);
      if Some(pool[i]) == skip {
        WalkEffect(w, s, t, port, fp, pool, i + 1, skip);
      } else {
        var reached := TryReach(w, s, t, port, pool[i]);
        ReachOnlyThatPeer(w, s, t, port, pool[i]);
        if reached.peer.Some? {
          assert WalkedTo(pool, skip, i, r, port, fp);
        } else {
          ForgetView(s, port, fp, pool[i]);
          WalkEffect(w, Forget(s, port, pool[i]), reached.trace, port, fp, pool, i + 1, skip);
        }
      }
    }
  }

  /** The two stores agree on every other port. */
  ghost predicate OnlyPort(s: Store, s': Store, port: Port) {
    forall p :: p != port ==> (p in s <==> p in s') && (p in s ==> s'[p] == s[p])
  }

  // ---------- connect_discovered, exactly ----------

  /** The pool with `peer`, found at index i, moved to the front of the survivors. */
  function Reused(pool: seq<PeerId>, skip: Option<PeerId>, i: nat, max: nat): seq<PeerId>
    requires i < |pool|
  {
    Take([pool[i]] + Survivors(pool, skip, i)[..|Survivors(pool, skip, i)| - |pool[i..]|] + pool[i + 1..],
      if max < 1 then 1 else max)
  }

  lemma ReusedIsMoveToFront(pool: seq<PeerId>, skip: Option<PeerId>, i: nat, max: nat)
    requires NoDuplicates(pool) && i < |pool| && Some(pool[i]) != skip
    ensures MoveToFront(Survivors(pool, skip, i), pool[i], max) == Reused(pool, skip, i, max)
  {
    var kept := if skip.Some? && skip.value in pool[..i] then [skip.value] else [];
    SurvivorsStep(pool, skip, i);
    assert pool[..i + 1] == pool[..i] + [pool[i]];
    assert Survivors(pool, skip, i)[..|kept|] == kept;
    assert [pool[i]] + (kept + pool[i + 1..]) == [pool[i]] + kept + pool[i + 1..];
  }

  /** The effect of a fresh connect (no fight for the dropped peer) on the pool. */
  ghost predicate FreshEffect(server: Server, pool: seq<PeerId>, skip: Option<PeerId>, r: Outcome) {
    var after := PoolIds(r.store, server.port, server.Fingerprint());
    var rest := Survivors(pool, skip, |pool|);
    match r.result
    case Ok(ConnectedDestination(peer, StickyReuse)) =>
      exists i :: 0 <= i < |pool| && peer == pool[i] && Some(peer) != skip
        && after == Reused(pool, skip, i, server.maxTotal)
    case Ok(ConnectedDestination(peer, source)) =>
      source == Discovered && after == MoveToFront(rest, peer, server.maxTotal)
    case Err(e) =>
      e == DiscoveryExhausted(server.port, MAX_DISCOVERY_ATTEMPTS) && after == rest
  }

  lemma {:induction false} DiscoverEffect(w: World, s: Store, t: Trace, server: Server, attempt: nat)
    ensures var r := Discover(w, s, t, server, attempt);
            && (r.result.Ok? ==>
                  r.result.value.source == Discovered && r.store == RememberFor(s, server, r.result.value.peer))
            && (r.result.Err? ==>
                  r.store == s && r.result.error == DiscoveryExhausted(server.port, MAX_DISCOVERY_ATTEMPTS))
    decreases MAX_DISCOVERY_ATTEMPTS - attempt
  {
    if attempt < MAX_DISCOVERY_ATTEMPTS {
      DiscoverEffect(w, s, DiscoverOnce(w, t, server).trace, server, attempt + 1);
    }
  }

  lemma FreshPoolEffect(w: World, s: Store, t: Trace, server: Server, skip: Option<PeerId>)
    requires Honest(w.net) && Distinct(s) && server.sticky
    ensures var r := ConnectFresh(w, s, t, server, skip);
            && Distinct(r.store) && OnlyPort(s, r.store, server.port)
            && FreshEffect(server, PoolIds(s, server.port, server.Fingerprint()), skip, r)
            && (r.result.Ok? ==> server.port in r.store && r.store[server.port].fingerprint == server.Fingerprint())
  {
    var port, fp := server.port, server.Fingerprint();
    var pool := PoolIds(s, port, fp);
    InvalidateView(s, port, fp);
    assert pool[0..] == pool;
    assert Survivors(pool, skip, 0) == pool;
    assert NoDuplicates(pool);
    WalkEffect(w, Invalidate(s, port, fp), t, port, fp, pool, 0, skip);
    var pass := ConnectPool(w, s, t, server, skip);
    var i: nat :| WalkedTo(pool, skip, i, pass, port, fp);
    if pass.peer.Some? {
      RememberView(pass.store, port, fp, pool[i], server.maxTotal);
      ReusedIsMoveToFront(pool, skip, i, server.maxTotal);
    } else {
      DiscoverEffect(w, pass.store, pass.trace, server, 0);
      var r := Discover(w, pass.store, pass.trace, server, 0);
      if r.result.Ok? {
        RememberView(pass.store, port, fp, r.result.value.peer, server.maxTotal);
      }
    }
  }

  /** The pool that the fresh part of a connect starts from. */
  function AfterFight(server: Server, pool: seq<PeerId>, avoid: Option<PeerId>): seq<PeerId> {
    if Fights(server, avoid) then Without(pool, avoid.value) else pool
  }

  /** The exact effect of a discovery-driven connect on the pool: the dropped peer won
      back and promoted, or a fresh connect over the pool (without the dropped peer if
      it was fought for). Other ports are untouched. */
  lemma DiscoveredPoolEffect(w: World, s: Store, t: Trace, server: Server, avoid: Option<PeerId>)
    requires Honest(w.net) && Distinct(s) && server.sticky
    ensures var r := ConnectDiscovered(w, s, t, server, avoid);
            var pool := PoolIds(s, server.port, server.Fingerprint());
            && Distinct(r.store) && OnlyPort(s, r.store, server.port)
            && (r.result.Ok? ==> server.port in r.store && r.store[server.port].fingerprint == server.Fingerprint())
            && ( || ( && Fights(server, avoid) && r.result == Ok(ConnectedDestination(avoid.value, StickyReuse))
                      && PoolIds(r.store, server.port, server.Fingerprint())
                        == MoveToFront(pool, avoid.value, server.maxTotal))
                 || FreshEffect(server, AfterFight(server, pool, avoid), avoid, r))
  {
    var port, fp := server.port, server.Fingerprint();
    if Fights(server, avoid) {
      var back := Reconnect(w, s, t, port, avoid.value, 0);
      ReconnectOnlyThatPeer(w, s, t, port, avoid.value, 0);
      if back.peer.Some? {
        RememberView(s, port, fp, avoid.value, server.maxTotal);
      } else {
        ForgetView(s, port, fp, avoid.value);
        FreshPoolEffect(w, Forget(s, port, avoid.value), back.trace, server, avoid);
      }
    } else {
      FreshPoolEffect(w, s, t, server, avoid);
    }
  }

  lemma {:induction false} WalkKeepsFingerprint(w: World, s: Store, t: Trace, port: Port, peers: seq<PeerId>,
                                                skip: Option<PeerId>, fp: string)
    requires port in s ==> s[port].fingerprint == fp
    ensures var r := WalkPool(w, s, t, port, peers, skip); port in r.store ==> r.store[port].fingerprint == fp
    decreases |peers|
  {
    hide TryReach;
    if peers != [] {
      if Some(peers[0]) == skip {
        WalkKeepsFingerprint(w, s, t, port, peers[1..], skip, fp);
      } else {
        var r := TryReach(w, s, t, port, peers[0]);
        if r.peer.None? { WalkKeepsFingerprint(w, Forget(s, port, peers[0]), r.trace, port, peers[1..], skip, fp); }
      }
    }
  }

  /** Whatever the world does, once a sticky server has been connected through discovery no
      pool chosen under other filters is left for its port, even if nobody was reached. */
  lemma NoStalePool(w: World, s: Store, t: Trace, server: Server, avoid: Option<PeerId>)
    requires server.sticky
    ensures var r := ConnectDiscovered(w, s, t, server, avoid);
            server.port in r.store ==> r.store[server.port].fingerprint == server.Fingerprint()
  {
    hide Reconnect, Promote;
    var port, fp := server.port, server.Fingerprint();
    var s1, t1 := s, t;
    if Fights(server, avoid) {
      s1, t1 := Forget(s, port, avoid.value), Reconnect(w, s, t, port, avoid.value, 0).trace;
    }
    WalkKeepsFingerprint(w, Invalidate(s1, port, fp), t1, port, PoolIds(s1, port, fp), avoid, fp);
    hide WalkPool, Discover;
    var pass := ConnectPool(w, s1, t1, server, avoid);
    DiscoverEffect(w, pass.store, pass.trace, server, 0);
  }

  /** With `sticky` off the store is untouched, whatever the world does. */
  lemma NotStickyUntouched(w: World, s: Store, t: Trace, server: Server, avoid: Option<PeerId>)
    requires !server.sticky
    ensures var r := ConnectDiscovered(w, s, t, server, avoid);
            r.store == s && (r.result.Ok? ==> r.result.value.source == Discovered)
  {
    DiscoverEffect(w, s, t, server, 0);
  }

  /** A hard pin leaves the store untouched, whatever the world does. */
  lemma {:induction false} HardPinUntouched(w: World, s: Store, t: Trace, server: Server, pass: nat)
    requires !server.fallbackToDiscovery
    ensures var r := ConnectPinned(w, s, t, server, pass);
            && r.store == s
            && (r.result.Err? ==> r.result.error == PinnedExhausted(server.port, |server.Pinned()|))
            && (r.result.Ok? ==> r.result.value.source.Pinned?)
    decreases MAX_PINNED_PASSES - pass
  {
    if pass < MAX_PINNED_PASSES && PinnedPass(w, t, server).peer.None? {
      HardPinUntouched(w, s, PinnedPass(w, t, server).trace + [Sleeping(SECOND)], server, pass + 1);
    }
  }
}

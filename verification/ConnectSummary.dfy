/** What the discovery actor relies on, of any connect for any server. */
module ConnectSummaries {
  import opened Wrappers
  import opened Selection
  import opened Sequences
  import opened Sticky
  import opened Config
  import opened Environments
  import opened Backoffs
  import opened ConnectSpec
  import opened ConnectPools
  import opened ConnectPins

  function Cap(server: Server): nat {
    if server.maxTotal < 1 then 1 else server.maxTotal
  }

  function PoolOf(s: Store, server: Server): seq<PeerId> {
    PoolIds(s, server.port, server.Fingerprint())
  }

  /** The pool gained at most the returned peer, and grew past its cap only if it
      already was; no other port's pool changed. */
  ghost predicate PoolKept(server: Server, s: Store, s': Store, chosen: Option<PeerId>) {
    && Distinct(s') && OnlyPort(s, s', server.port)
    && (forall x :: x in PoolOf(s', server) ==> x in PoolOf(s, server) || Some(x) == chosen)
    && (|PoolOf(s, server)| <= Cap(server) ==> |PoolOf(s', server)| <= Cap(server))
  }

  function Chosen(r: Outcome): Option<PeerId> {
    if r.result.Ok? then Some(r.result.value.peer) else None
  }

  lemma SurvivorsMembers(pool: seq<PeerId>, skip: Option<PeerId>, i: nat)
    requires i <= |pool| && NoDuplicates(pool)
    ensures forall x :: x in Survivors(pool, skip, i) ==> x in pool
    ensures |Survivors(pool, skip, i)| <= |pool|
  {
  }

  lemma FreshKept(server: Server, pool: seq<PeerId>, skip: Option<PeerId>, r: Outcome)
    requires NoDuplicates(pool) && FreshEffect(server, pool, skip, r)
    ensures var after := PoolOf(r.store, server);
            && (forall x :: x in after ==> x in pool || Some(x) == Chosen(r))
            && (|pool| <= Cap(server) ==> |after| <= Cap(server))
            && (r.result.Ok? ==> after != [] && after[0] == r.result.value.peer)
            && (r.result.Ok? && r.result.value.source == StickyReuse ==> r.result.value.peer in pool)
  {
    SurvivorsMembers(pool, skip, |pool|);
    if r.result.Ok? {
      var peer := r.result.value.peer;
      if r.result.value.source == StickyReuse {
        var i :| 0 <= i < |pool| && peer == pool[i] && Some(peer) != skip
                 && PoolOf(r.store, server) == Reused(pool, skip, i, server.maxTotal);
        ReusedIsMoveToFront(pool, skip, i, server.maxTotal);
        SurvivorsMembers(pool, skip, i);
        MoveToFrontMembers(Survivors(pool, skip, i), peer, server.maxTotal);
      } else {
        MoveToFrontMembers(Survivors(pool, skip, |pool|), peer, server.maxTotal);
      }
    }
  }

  lemma DiscoveredSummary(w: World, s: Store, t: Trace, server: Server, avoid: Option<PeerId>)
    requires Honest(w.net) && Distinct(s)
    ensures var r := ConnectDiscovered(w, s, t, server, avoid);
            && PoolKept(server, s, r.store, Chosen(r))
            && (server.sticky && r.result.Ok? ==>
              PoolOf(r.store, server) != [] && PoolOf(r.store, server)[0] == r.result.value.peer)
            && (r.result.Ok? && r.result.value.source == StickyReuse ==>
              r.result.value.peer in PoolOf(s, server) || Some(r.result.value.peer) == avoid)
  {
    if !server.sticky {
      NotStickyUntouched(w, s, t, server, avoid);
    } else {
      var r := ConnectDiscovered(w, s, t, server, avoid);
      var pool := PoolOf(s, server);
      DiscoveredPoolEffect(w, s, t, server, avoid);
      if FreshEffect(server, AfterFight(server, pool, avoid), avoid, r) {
        if Fights(server, avoid) {
          WithoutMembers(pool, avoid.value);
          WithoutNoDuplicates(pool, avoid.value);
        }
        FreshKept(server, AfterFight(server, pool, avoid), avoid, r);
      } else {
        MoveToFrontMembers(pool, avoid.value, server.maxTotal);
      }
    }
  }

  ghost predicate PinnedKept(server: Server, s: Store, r: Outcome) {
    && PoolKept(server, s, r.store, Chosen(r))
    && (r.result.Ok? && r.result.value.source == StickyReuse ==> r.result.value.peer in PoolOf(s, server))
    && (r.result.Ok? && !server.fallbackToDiscovery ==> r.result.value.peer in server.PinnedIds())
  }

  lemma SameStoreKept(server: Server, s: Store, chosen: Option<PeerId>)
    requires Distinct(s)
    ensures PoolKept(server, s, s, chosen)
  {
  }

  lemma WonPassSummary(w: World, s: Store, t: Trace, server: Server, pass: nat)
    requires Honest(w.net) && Distinct(s) && server.Valid() && pass < MAX_PINNED_PASSES
    requires PinnedPass(w, t, server).peer.Some?
    ensures PinnedKept(server, s, ConnectPinned(w, s, t, server, pass))
  {
    hide PinnedPass, ConnectDiscovered, PoolKept;
    var r := ConnectPinned(w, s, t, server, pass);
    PassWins(w, s, t, server, pass);
    assert r.result.value.peer in server.PinnedIds() by {
      assert server.Pinned()[r.result.value.source.rank] in server.Pinned();
    }
    SameStoreKept(server, s, Chosen(r));
  }

  lemma {:induction false} PinnedSummary(w: World, s: Store, t: Trace, server: Server, pass: nat)
    requires Honest(w.net) && Distinct(s) && server.Valid()
    ensures PinnedKept(server, s, ConnectPinned(w, s, t, server, pass))
    decreases MAX_PINNED_PASSES - pass
  {
    hide PinnedPass, ConnectDiscovered, PoolKept;
    var tried := PinnedPass(w, t, server);
    if pass >= MAX_PINNED_PASSES {
      SameStoreKept(server, s, None);
    } else if tried.peer.Some? {
      WonPassSummary(w, s, t, server, pass);
    } else if server.fallbackToDiscovery {
      DiscoveredSummary(w, s, tried.trace, server, None);
    } else {
      PinnedSummary(w, s, tried.trace + [Sleeping(SECOND)], server, pass + 1);
    }
  }

  /** A pinned server with fallback: either a rank won and the pool is untouched, or, all ranks
      having failed once, it is what a discovery that nobody dropped for leaves of it. */
  lemma FallbackPoolEffect(w: World, s: Store, t: Trace, server: Server, avoid: Option<PeerId>)
    requires Honest(w.net) && Distinct(s) && server.sticky && server.Pinned() != [] && server.fallbackToDiscovery
    ensures var r := Connect(w, s, t, server, avoid);
            if WonByRank(r) then r.store == s else FreshEffect(server, PoolOf(s, server), None, r)
  {
    hide PinnedPass, ConnectDiscovered, FreshEffect;
    var tried := PinnedPass(w, t, server);
    if tried.peer.None? {
      DiscoveredPoolEffect(w, s, tried.trace, server, None);
      FallbackIsNotPinned(w, s, tried.trace, server);
    }
  }

  lemma ConnectSummary(w: World, s: Store, t: Trace, server: Server, avoid: Option<PeerId>)
    requires Honest(w.net) && Distinct(s) && server.Valid()
    ensures var r := Connect(w, s, t, server, avoid);
            && PoolKept(server, s, r.store, Chosen(r))
            && (server.Pinned() == [] && server.sticky && r.result.Ok? ==>
                  PoolOf(r.store, server) != [] && PoolOf(r.store, server)[0] == r.result.value.peer)
            && (r.result.Ok? && r.result.value.source == StickyReuse ==>
              r.result.value.peer in PoolOf(s, server) || Some(r.result.value.peer) == avoid)
            && (server.Pinned() != [] && !server.fallbackToDiscovery ==>
                  r.store == s && (r.result.Ok? ==> r.result.value.peer in server.PinnedIds()))
  {
    if server.Pinned() == [] {
      DiscoveredSummary(w, s, t, server, avoid);
    } else {
      PinnedSummary(w, s, t, server, 0);
      if !server.fallbackToDiscovery { HardPinUntouched(w, s, t, server, 0); }
    }
  }
}

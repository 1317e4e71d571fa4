/** Bounded effort and dial discipline: what every trace of the connect flow obeys,
    whatever the world answers. No contract on the world is assumed here. */
module ConnectEffort {
  import opened Wrappers
  import opened Selection
  import opened Sequences
  import opened Sticky
  import opened Config
  import opened Environments
  import opened Backoffs
  import opened ConnectSpec

  // ---------- what is counted ----------

  function Dials(t: Trace): nat {
    if t == [] then 0 else Dials(t[..|t| - 1]) + if t[|t| - 1].Dialling? then 1 else 0
  }

  function Queries(t: Trace): nat {
    if t == [] then 0 else Queries(t[..|t| - 1]) + if t[|t| - 1].FindingNodes? then 1 else 0
  }

  function Slept(t: Trace): nat {
    if t == [] then 0 else Slept(t[..|t| - 1]) + if t[|t| - 1].Sleeping? then t[|t| - 1].duration else 0
  }

  /** Act i, if a dial, dials a non-empty half of the race it belongs to: the direct
      half first, the relayed half only after the direct half failed or when there
      is no direct half. */
  predicate Disciplined(t: Trace, i: nat)
    requires i < |t|
  {
    t[i].Dialling? ==>
      && t[i].addresses != {}
      && ( || DirectHalf(t, i)
           || (i >= 1 && t[i - 1].Racing? && Direct(t[i - 1].route) == {} && t[i].addresses == Relayed(t[i - 1].route))
           || (i >= 2 && DirectHalf(t, i - 1) && Reached(t[i - 1].reached).None?
               && t[i].addresses == Relayed(t[i - 2].route)))
  }

  predicate DirectHalf(t: Trace, i: nat)
    requires i < |t|
  {
    t[i].Dialling? && i >= 1 && t[i - 1].Racing? && t[i].addresses == Direct(t[i - 1].route)
  }

  /** The connect flow selects no exit by itself: it shows no active destination and no
      sticky pool, and starts, puts off or schedules no rediscovery. */
  predicate ConnectAct(a: Act) {
    match a
    case Emitting(event) => !event.ActiveDestination? && !event.StickyPoolShown?
    case Selecting(_) => false
    case Rediscovering(_, _) => false
    case Throttling(_) => false
    case Spawning(_) => false
    case _ => true
  }

  predicate Proper(t: Trace, i: nat)
    requires i < |t|
  {
    ConnectAct(t[i]) && Disciplined(t, i)
  }

  /** A stretch of trace from t to u: of connect acts only, disciplined, and within a budget. */
  ghost predicate Within(t: Trace, u: Trace, dials: nat, queries: nat, slept: nat) {
    && t <= u
    && (forall i :: |t| <= i < |u| ==> Proper(u, i))
    && Dials(u) <= Dials(t) + dials
    && Queries(u) <= Queries(t) + queries
    && Slept(u) <= Slept(t) + slept
  }

  lemma Then(t: Trace, u: Trace, v: Trace, d1: nat, q1: nat, s1: nat, d2: nat, q2: nat, s2: nat)
    requires Within(t, u, d1, q1, s1) && Within(u, v, d2, q2, s2)
    ensures Within(t, v, d1 + d2, q1 + q2, s1 + s2)
  {
    forall i | |t| <= i < |v| ensures Proper(v, i) {
      if i < |u| {
        assert Proper(u, i);
        assert v[i] == u[i] && (i >= 1 ==> v[i - 1] == u[i - 1]) && (i >= 2 ==> v[i - 2] == u[i - 2]);
      }
    }
  }

  lemma Widen(t: Trace, u: Trace, d1: nat, q1: nat, s1: nat, d2: nat, q2: nat, s2: nat)
    requires Within(t, u, d1, q1, s1) && d1 <= d2 && q1 <= q2 && s1 <= s2
    ensures Within(t, u, d2, q2, s2)
  {
  }

  lemma Nothing(t: Trace)
    ensures Within(t, t, 0, 0, 0)
  {
  }

  lemma One(t: Trace, a: Act)
    requires !a.Dialling? && ConnectAct(a)
    ensures Within(t, t + [a], 0, if a.FindingNodes? then 1 else 0, if a.Sleeping? then a.duration else 0)
  {
    assert (t + [a])[..|t|] == t;
  }

  // ---------- one race ----------

  lemma RaceWithin(w: World, t: Trace, routes: set<Multiaddr>)
    ensures Within(t, DialRoutes(w, t, routes).trace, 2, 0, 0)
    ensures routes != {} ==> Dials(DialRoutes(w, t, routes).trace) > Dials(t)
  {
    RaceCounts(w, t, routes);
    RaceDiscipline(w, t, routes);
  }

  lemma RaceCounts(w: World, t: Trace, routes: set<Multiaddr>)
    ensures var u := DialRoutes(w, t, routes).trace;
            && Dials(u) <= Dials(t) + 2 && Queries(u) == Queries(t) && Slept(u) == Slept(t)
            && (routes != {} ==> Dials(u) > Dials(t))
  {
    var t0 := t + [Racing(routes)];
    assert t0[..|t|] == t;
    var direct := DialSet(w, t0, Direct(routes));
    PartitionIsExact(routes);
    DialSetCounts(w, t0, Direct(routes));
    DialSetCounts(w, direct.trace, Relayed(routes));
  }

  lemma RaceDiscipline(w: World, t: Trace, routes: set<Multiaddr>)
    ensures var u := DialRoutes(w, t, routes).trace;
            forall i :: |t| <= i < |u| ==> Proper(u, i)
  {
    var u := DialRoutes(w, t, routes).trace;
    assert u[|t|] == Racing(routes);
    if Direct(routes) != {} {
      assert DirectHalf(u, |t| + 1);
    }
  }

  lemma DialSetCounts(w: World, t: Trace, addresses: set<Multiaddr>)
    ensures var u := DialSet(w, t, addresses).trace;
            && Dials(u) == Dials(t) + (if addresses == {} then 0 else 1)
            && Queries(u) == Queries(t) && Slept(u) == Slept(t)
  {
    if addresses != {} {
      assert DialSet(w, t, addresses).trace[..|t|] == t;
    }
  }

  lemma ReachWithin(w: World, s: Store, t: Trace, port: Port, peer: PeerId)
    ensures Within(t, TryReach(w, s, t, port, peer).trace, 2, 0, 0)
    ensures Dials(TryReach(w, s, t, port, peer).trace) > Dials(t)
  {
    var reply := w.net.resolve(t, [peer]);
    var a := Resolving([peer], reply);
    var routes := ReachRoutes(w.relay, s, port, peer, UsableRoutes(w.relay, [peer], reply));
    One(t, a);
    RaceWithin(w, t + [a], routes);
    SynthesizedCircuitTargetsPeer(w.relay, peer);
    assert routes != {};
    Then(t, t + [a], TryReach(w, s, t, port, peer).trace, 0, 0, 0, 2, 0, 0);
  }

  // ---------- sticky reuse ----------

  function BackoffLeft(attempt: nat): nat {
    if attempt == 0 then 3 * SECOND else if attempt == 1 then 2 * SECOND else 0
  }

  lemma ReconnectNap(t: Trace, u: Trace, attempt: nat)
    requires Within(t, u, 2, 0, 0) && attempt < 2
    ensures Within(t, u + [Sleeping(ReconnectDelay(attempt))], 2, 0, BackoffLeft(attempt) - BackoffLeft(attempt + 1))
  {
    var nap := Sleeping(ReconnectDelay(attempt));
    One(u, nap);
    Then(t, u, u + [nap], 2, 0, 0, 0, 0, nap.duration);
  }

  lemma AttemptWithin(w: World, s: Store, t: Trace, port: Port, peer: PeerId, attempt: nat)
    requires attempt < STICKY_RECONNECT_ATTEMPTS
    ensures var u := TryReach(w, s, t, port, peer).trace;
            && Within(t, u, 2 * (STICKY_RECONNECT_ATTEMPTS - attempt), 0, BackoffLeft(attempt))
            && Within(t, AfterAttempt(u, attempt), 2, 0, BackoffLeft(attempt) - BackoffLeft(attempt + 1))
  {
    var u := TryReach(w, s, t, port, peer).trace;
    ReachWithin(w, s, t, port, peer);
    Widen(t, u, 2, 0, 0, 2 * (STICKY_RECONNECT_ATTEMPTS - attempt), 0, BackoffLeft(attempt));
    if attempt + 1 < STICKY_RECONNECT_ATTEMPTS { ReconnectNap(t, u, attempt); }
  }

  lemma {:induction false} ReconnectWithin(w: World, s: Store, t: Trace, port: Port, peer: PeerId, attempt: nat)
    requires attempt <= STICKY_RECONNECT_ATTEMPTS
    ensures Within(t, Reconnect(w, s, t, port, peer, attempt).trace,
                   2 * (STICKY_RECONNECT_ATTEMPTS - attempt), 0, BackoffLeft(attempt))
    decreases STICKY_RECONNECT_ATTEMPTS - attempt
  {
    if attempt == STICKY_RECONNECT_ATTEMPTS {
      Nothing(t);
    } else {
      var r := TryReach(w, s, t, port, peer);
      AttemptWithin(w, s, t, port, peer, attempt);
      if r.peer.None? {
        var u := AfterAttempt(r.trace, attempt);
        ReconnectWithin(w, s, u, port, peer, attempt + 1);
        Then(t, u, Reconnect(w, s, u, port, peer, attempt + 1).trace, 2, 0,
          BackoffLeft(attempt) - BackoffLeft(attempt + 1),
             2 * (STICKY_RECONNECT_ATTEMPTS - attempt - 1), 0, BackoffLeft(attempt + 1));
      }
    }
  }

  lemma {:induction false} WalkWithin(w: World, s: Store, t: Trace, port: Port, peers: seq<PeerId>,
                                      skip: Option<PeerId>)
    ensures Within(t, WalkPool(w, s, t, port, peers, skip).trace, 2 * |peers|, 0, 0)
    decreases |peers|
  {
    if peers == [] {
      Nothing(t);
    } else if Some(peers[0]) == skip {
      WalkWithin(w, s, t, port, peers[1..], skip);
      Widen(t, WalkPool(w, s, t, port, peers[1..], skip).trace, 2 * |peers[1..]|, 0, 0, 2 * |peers|, 0, 0);
    } else {
      var r := TryReach(w, s, t, port, peers[0]);
      ReachWithin(w, s, t, port, peers[0]);
      if r.peer.Some? {
        Widen(t, r.trace, 2, 0, 0, 2 * |peers|, 0, 0);
      } else {
        var s1 := Forget(s, port, peers[0]);
        WalkWithin(w, s1, r.trace, port, peers[1..], skip);
        Then(t, r.trace, WalkPool(w, s1, r.trace, port, peers[1..], skip).trace, 2, 0, 0, 2 * |peers[1..]|, 0, 0);
      }
    }
  }

  // ---------- discovery ----------

  lemma DiscoverOnceWithin(w: World, t: Trace, server: Server)
    ensures var r := DiscoverOnce(w, t, server);
            && Within(t, r.trace, 2, 1, SECOND)
            && Queries(r.trace) == Queries(t) + 1
  {
    var found := w.net.findNodes(t, server, FINDNODES_DISCOVERY_LIMIT);
    var a := FindingNodes(server.port, FINDNODES_DISCOVERY_LIMIT, found);
    var t1 := t + [a];
    One(t, a);
    assert t1[..|t|] == t;
    var nap := Sleeping(SECOND);
    if found.Err? {
      QuietEnd(t, t1, nap);
    } else {
      var b := Emitting(ServerPool(server.port, found.value));
      One(t1, b);
      assert (t1 + [b])[..|t1|] == t1;
      Then(t, t1, t1 + [b], 0, 1, 0, 0, 0, 0);
      if found.value == [] {
        QuietEnd(t, t1 + [b], nap);
      } else {
        var routes := CandidateAddresses(w.relay, found.value);
        RaceWithin(w, t1 + [b], routes);
        RaceCounts(w, t1 + [b], routes);
        var u := DialRoutes(w, t1 + [b], routes).trace;
        Then(t, t1 + [b], u, 0, 1, 0, 2, 0, 0);
        Widen(t, u, 2, 1, 0, 2, 1, SECOND);
      }
    }
  }

  lemma QuietEnd(t: Trace, u: Trace, nap: Act)
    requires Within(t, u, 0, 1, 0) && nap == Sleeping(SECOND)
    ensures Within(t, u + [nap], 2, 1, SECOND) && Queries(u + [nap]) == Queries(u)
  {
    One(u, nap);
    assert (u + [nap])[..|u|] == u;
    Then(t, u, u + [nap], 0, 1, 0, 0, 0, SECOND);
    Widen(t, u + [nap], 0, 1, SECOND, 2, 1, SECOND);
  }

  lemma {:induction false} DiscoverWithin(w: World, s: Store, t: Trace, server: Server, attempt: nat)
    requires attempt <= MAX_DISCOVERY_ATTEMPTS
    ensures var left := MAX_DISCOVERY_ATTEMPTS - attempt;
            Within(t, Discover(w, s, t, server, attempt).trace, 2 * left, left, left * SECOND)
    decreases MAX_DISCOVERY_ATTEMPTS - attempt
  {
    hide Within, DiscoverOnce;
    if attempt == MAX_DISCOVERY_ATTEMPTS {
      One(t, Emitting(ErrorShown));
    } else {
      var left := MAX_DISCOVERY_ATTEMPTS - attempt - 1;
      var r := DiscoverOnce(w, t, server);
      DiscoverOnceWithin(w, t, server);
      if r.peer.Some? {
        Widen(t, r.trace, 2, 1, SECOND, 2 * (left + 1), left + 1, (left + 1) * SECOND);
      } else {
        DiscoverWithin(w, s, r.trace, server, attempt + 1);
        Then(t, r.trace, Discover(w, s, r.trace, server, attempt + 1).trace, 2, 1, SECOND, 2 * left, left,
          left * SECOND);
      }
    }
  }

  /** Discovery gives up only after spending every one of its queries. */
  lemma {:induction false} GivesUpLast(w: World, s: Store, t: Trace, server: Server, attempt: nat)
    requires attempt <= MAX_DISCOVERY_ATTEMPTS && Discover(w, s, t, server, attempt).result.Err?
    ensures Queries(Discover(w, s, t, server, attempt).trace) == Queries(t) + MAX_DISCOVERY_ATTEMPTS - attempt
    decreases MAX_DISCOVERY_ATTEMPTS - attempt
  {
    if attempt == MAX_DISCOVERY_ATTEMPTS {
      assert (t + [Emitting(ErrorShown)])[..|t|] == t;
    } else {
      DiscoverOnceWithin(w, t, server);
      GivesUpLast(w, s, DiscoverOnce(w, t, server).trace, server, attempt + 1);
    }
  }

  lemma FreshWithin(w: World, s: Store, t: Trace, server: Server, skip: Option<PeerId>)
    ensures Within(t, ConnectFresh(w, s, t, server, skip).trace,
                   2 * |PoolIds(s, server.port, server.Fingerprint())| + 40, 20, 20 * SECOND)
  {
    var fp := server.Fingerprint();
    var peers := PoolIds(s, server.port, fp);
    var pass := ConnectPool(w, s, t, server, skip);
    if server.sticky {
      WalkWithin(w, Invalidate(s, server.port, fp), t, server.port, peers, skip);
    } else {
      Nothing(t);
      Widen(t, t, 0, 0, 0, 2 * |peers|, 0, 0);
    }
    if pass.peer.Some? {
      Widen(t, pass.trace, 2 * |peers|, 0, 0, 2 * |peers| + 40, 20, 20 * SECOND);
    } else {
      DiscoverWithin(w, pass.store, pass.trace, server, 0);
      Then(t, pass.trace, Discover(w, pass.store, pass.trace, server, 0).trace, 2 * |peers|, 0, 0, 40, 20, 20 * SECOND);
    }
  }

  lemma ForgetShrinks(s: Store, port: Port, fp: string, peer: PeerId)
    ensures |PoolIds(Forget(s, port, peer), port, fp)| <= |PoolIds(s, port, fp)|
  {
    if port in s {
      RetainIds(s[port].peers, peer);
      WithoutMembers(Ids(s[port].peers), peer);
      assert |Ids(Retain(s[port].peers, peer))| == |Retain(s[port].peers, peer)|;
    }
  }

  /** At most 46 + 2·|pool| dials, 20 hub queries and 23 s of sleep; without a dropped
      peer to fight for, 40 + 2·|pool| dials and 20 s. */
  lemma DiscoveredEffort(w: World, s: Store, t: Trace, server: Server, avoid: Option<PeerId>)
    ensures var pool := |PoolIds(s, server.port, server.Fingerprint())|;
            var u := ConnectDiscovered(w, s, t, server, avoid).trace;
            && Within(t, u, 46 + 2 * pool, 20, 23 * SECOND)
            && (!Fights(server, avoid) ==> Within(t, u, 40 + 2 * pool, 20, 20 * SECOND))
  {
    var fp := server.Fingerprint();
    var pool := |PoolIds(s, server.port, fp)|;
    if Fights(server, avoid) {
      var r := Reconnect(w, s, t, server.port, avoid.value, 0);
      ReconnectWithin(w, s, t, server.port, avoid.value, 0);
      if r.peer.Some? {
        Widen(t, r.trace, 6, 0, 3 * SECOND, 46 + 2 * pool, 20, 23 * SECOND);
      } else {
        var s1 := Forget(s, server.port, avoid.value);
        var left := |PoolIds(s1, server.port, fp)|;
        ForgetShrinks(s, server.port, fp, avoid.value);
        FreshWithin(w, s1, r.trace, server, avoid);
        var u := ConnectFresh(w, s1, r.trace, server, avoid).trace;
        Then(t, r.trace, u, 6, 0, 3 * SECOND, 2 * left + 40, 20, 20 * SECOND);
        Widen(t, u, 46 + 2 * left, 20, 23 * SECOND, 46 + 2 * pool, 20, 23 * SECOND);
      }
    } else {
      FreshWithin(w, s, t, server, avoid);
      Widen(t, ConnectFresh(w, s, t, server, avoid).trace, 2 * pool + 40, 20, 20 * SECOND, 46 + 2 * pool, 20,
        23 * SECOND);
    }
  }

  // ---------- pinned ranks ----------

  lemma {:induction false} RanksWithin(w: World, t: Trace, pinned: seq<DestinationPeerEntry>, routes: Routes, rank: nat)
    requires rank <= |pinned|
    ensures Within(t, TryRanks(w, t, pinned, routes, rank).trace, 2 * (|pinned| - rank), 0, 0)
    decreases |pinned| - rank
  {
    var left := 2 * (|pinned| - rank);
    if rank == |pinned| {
      Nothing(t);
    } else {
      var candidate := CandidateRoutes(pinned[rank], routes);
      if candidate == {} {
        RanksWithin(w, t, pinned, routes, rank + 1);
        Widen(t, TryRanks(w, t, pinned, routes, rank + 1).trace, left - 2, 0, 0, left, 0, 0);
      } else {
        var r := DialRoutes(w, t, candidate);
        RaceWithin(w, t, candidate);
        if r.peer.Some? {
          Widen(t, r.trace, 2, 0, 0, left, 0, 0);
        } else {
          RanksWithin(w, r.trace, pinned, routes, rank + 1);
          Then(t, r.trace, TryRanks(w, r.trace, pinned, routes, rank + 1).trace, 2, 0, 0, left - 2, 0, 0);
        }
      }
    }
  }

  lemma {:induction false} AdoptWithin(w: World, t: Trace, pinned: seq<DestinationPeerEntry>, better: nat, rank: nat,
                                       peer: PeerId)
    requires rank <= |pinned|
    ensures Within(t, AdoptBest(w, t, pinned, better, rank, peer).trace, 0, 0, 0)
    decreases rank - better
  {
    if better >= rank {
      Nothing(t);
    } else {
      var connected := w.net.isConnected(t, pinned[better].peerId);
      var a := AskingConnected(pinned[better].peerId, connected);
      One(t, a);
      if !connected {
        AdoptWithin(w, t + [a], pinned, better + 1, rank, peer);
        Then(t, t + [a], AdoptBest(w, t + [a], pinned, better + 1, rank, peer).trace, 0, 0, 0, 0, 0, 0);
      }
    }
  }

  lemma PreludeWithin(w: World, t: Trace, port: Port, pinned: seq<DestinationPeerEntry>)
    ensures Within(t, PinnedPrelude(w, t, port, pinned), 0, 0, 0)
  {
    var a := Resolving(PinnedIdSeq(pinned), w.net.resolve(t, PinnedIdSeq(pinned)));
    var b := Emitting(PinnedPeerStatuses(port, Statuses(pinned, PinnedRoutes(w, t, pinned))));
    One(t, a);
    One(t + [a], b);
    Then(t, t + [a], t + [a] + [b], 0, 0, 0, 0, 0, 0);
  }

  lemma PassWithin(w: World, t: Trace, server: Server)
    ensures Within(t, PinnedPass(w, t, server).trace, 2 * |server.Pinned()|, 0, 0)
  {
    var pinned := server.Pinned();
    var t1 := PinnedPrelude(w, t, server.port, pinned);
    PreludeWithin(w, t, server.port, pinned);
    RanksWithin(w, t1, pinned, PinnedRoutes(w, t, pinned), 0);
    Then(t, t1, PinnedPass(w, t, server).trace, 0, 0, 0, 2 * |pinned|, 0, 0);
  }

  lemma AdoptedWithin(w: World, t: Trace, u: Trace, pinned: seq<DestinationPeerEntry>, rank: nat, peer: PeerId,
                      dials: nat, queries: nat, slept: nat)
    requires rank <= |pinned| && Within(t, u, 2 * |pinned|, 0, 0) && 2 * |pinned| <= dials
    ensures Within(t, AdoptBest(w, u, pinned, 0, rank, peer).trace, dials, queries, slept)
  {
    AdoptWithin(w, u, pinned, 0, rank, peer);
    var v := AdoptBest(w, u, pinned, 0, rank, peer).trace;
    Then(t, u, v, 2 * |pinned|, 0, 0, 0, 0, 0);
    Widen(t, v, 2 * |pinned|, 0, 0, dials, queries, slept);
  }

  lemma ThenNap(t: Trace, u: Trace, dials: nat)
    requires Within(t, u, dials, 0, 0)
    ensures Within(t, u + [Sleeping(SECOND)], dials, 0, SECOND)
  {
    One(u, Sleeping(SECOND));
    Then(t, u, u + [Sleeping(SECOND)], dials, 0, 0, 0, 0, SECOND);
  }

  function PinBudget(server: Server, passes: nat): nat {
    2 * |server.Pinned()| * passes
  }

  lemma BudgetStep(server: Server, passes: nat)
    requires passes >= 1
    ensures PinBudget(server, passes) == 2 * |server.Pinned()| + PinBudget(server, passes - 1)
  {
  }

  /** A failed pass, its nap, and a remainder v that is within the smaller budget. */
  lemma RoundWithin(w: World, t: Trace, server: Server, left: nat, v: Trace)
    requires left >= 1
    requires Within(PinnedPass(w, t, server).trace + [Sleeping(SECOND)], v, PinBudget(server, left - 1), 0,
             (left - 1) * SECOND)
    ensures Within(t, v, PinBudget(server, left), 0, left * SECOND)
  {
    var u := PinnedPass(w, t, server).trace;
    PassWithin(w, t, server);
    ThenNap(t, u, 2 * |server.Pinned()|);
    BudgetStep(server, left);
    Then(t, u + [Sleeping(SECOND)], v, 2 * |server.Pinned()|, 0, SECOND, PinBudget(server, left - 1), 0,
      (left - 1) * SECOND);
  }

  /** A successful pass and the adoption of the best rank. */
  lemma HitWithin(w: World, t: Trace, server: Server, left: nat)
    requires left >= 1 && PinnedPass(w, t, server).peer.Some?
    ensures var tried := PinnedPass(w, t, server);
            Within(t, AdoptBest(w, tried.trace, server.Pinned(), 0, tried.rank, tried.peer.value).trace,
                   PinBudget(server, left), 0, left * SECOND)
  {
    var tried := PinnedPass(w, t, server);
    PassWithin(w, t, server);
    BudgetStep(server, left);
    AdoptedWithin(w, t, tried.trace, server.Pinned(), tried.rank, tried.peer.value, PinBudget(server, left), 0,
      left * SECOND);
  }

  /** A hard pin never queries the hub for strangers; it makes at most 2·|pinned|
      dials and sleeps 1 s per pass. */
  lemma {:induction false} HardPinEffort(w: World, s: Store, t: Trace, server: Server, pass: nat)
    requires !server.fallbackToDiscovery && pass <= MAX_PINNED_PASSES
    ensures Within(t, ConnectPinned(w, s, t, server, pass).trace,
                   PinBudget(server, MAX_PINNED_PASSES - pass), 0, (MAX_PINNED_PASSES - pass) * SECOND)
    decreases MAX_PINNED_PASSES - pass
  {
    var left := MAX_PINNED_PASSES - pass;
    if pass == MAX_PINNED_PASSES {
      One(t, Emitting(ErrorShown));
    } else if PinnedPass(w, t, server).peer.Some? {
      HitWithin(w, t, server, left);
    } else {
      var next := PinnedPass(w, t, server).trace + [Sleeping(SECOND)];
      HardPinEffort(w, s, next, server, pass + 1);
      RoundWithin(w, t, server, left, ConnectPinned(w, s, next, server, pass + 1).trace);
    }
  }

  /** With fallback, one pass over the ranks and then discovery without a dropped peer. */
  lemma FallbackEffort(w: World, s: Store, t: Trace, server: Server)
    requires server.fallbackToDiscovery
    ensures var pool := |PoolIds(s, server.port, server.Fingerprint())|;
            Within(t, ConnectPinned(w, s, t, server, 0).trace, 2 * |server.Pinned()| + 2 * pool + 40, 20, 20 * SECOND)
  {
    var pinned := server.Pinned();
    var pool := |PoolIds(s, server.port, server.Fingerprint())|;
    var tried := PinnedPass(w, t, server);
    PassWithin(w, t, server);
    if tried.peer.Some? {
      AdoptedWithin(w, t, tried.trace, pinned, tried.rank, tried.peer.value, 2 * |pinned| + 2 * pool + 40, 20,
        20 * SECOND);
    } else {
      DiscoveredEffort(w, s, tried.trace, server, None);
      Then(t, tried.trace, ConnectDiscovered(w, s, tried.trace, server, None).trace, 2 * |pinned|, 0, 0,
        40 + 2 * pool, 20, 20 * SECOND);
    }
  }

  /** The whole connect of a hard-pinned server: 40·|pinned| dials, no hub query for
      strangers, 20 s of sleep. */
  lemma HardPinTotal(w: World, s: Store, t: Trace, server: Server, avoid: Option<PeerId>)
    requires server.Pinned() != [] && !server.fallbackToDiscovery
    ensures Within(t, Connect(w, s, t, server, avoid).trace, 40 * |server.Pinned()|, 0, 20 * SECOND)
  {
    HardPinEffort(w, s, t, server, 0);
  }

  /** Every connect, whatever the server and the world: only connect acts, and each
      dial is disciplined. */
  lemma ConnectIsDisciplined(w: World, s: Store, t: Trace, server: Server, avoid: Option<PeerId>, i: nat)
    requires |t| <= i < |Connect(w, s, t, server, avoid).trace|
    ensures Proper(Connect(w, s, t, server, avoid).trace, i)
  {
    if server.Pinned() == [] {
      DiscoveredEffort(w, s, t, server, avoid);
    } else if server.fallbackToDiscovery {
      FallbackEffort(w, s, t, server);
    } else {
      HardPinEffort(w, s, t, server, 0);
    }
  }
}

/** The rhythm of a connect: what it asks the hub and how long it sleeps, in order. A connect
    that gives up has asked and slept exactly what it is allowed to. */
module ConnectBeats {
  import opened Wrappers
  import opened Selection
  import opened Sequences
  import opened Sticky
  import opened Config
  import opened Environments
  import opened ConnectSpec
  import opened ConnectSummaries
  import opened ExitOrigins

  datatype Beat = Asked(peers: seq<PeerId>) | Queried(port: Port, limit: nat) | Napped(duration: nat)

  function BeatOf(act: Act): seq<Beat> {
    match act
    case Resolving(peers, _) => [Asked(peers)]
    case FindingNodes(port, limit, _) => [Queried(port, limit)]
    case Sleeping(duration) => [Napped(duration)]
    case _ => []
  }

  function Beats(t: Trace): seq<Beat> {
    if t == [] then [] else Beats(t[..|t| - 1]) + BeatOf(t[|t| - 1])
  }

  lemma BeatsSnoc(t: Trace, act: Act)
    ensures Beats(t + [act]) == Beats(t) + BeatOf(act)
  {
    assert (t + [act])[..|t|] == t;
  }

  lemma {:induction false} BeatsAlong(t: Trace, u: Trace)
    ensures Beats(t + u) == Beats(t) + Beats(u)
    decreases |u|
  {
    if u == [] {
      assert t + u == t;
    } else {
      assert (t + u)[..|t + u| - 1] == t + u[..|u| - 1];
      BeatsAlong(t, u[..|u| - 1]);
      assert (t + u)[|t + u| - 1] == u[|u| - 1];
    }
  }

  // ---------- the parts of a connect ----------

  lemma RaceBeats(w: World, t: Trace, routes: set<Multiaddr>)
    ensures Beats(DialRoutes(w, t, routes).trace) == Beats(t)
  {
    var t0 := t + [Racing(routes)];
    BeatsSnoc(t, Racing(routes));
    DialBeats(w, t0, Direct(routes));
    DialBeats(w, DialSet(w, t0, Direct(routes)).trace, Relayed(routes));
  }

  lemma DialBeats(w: World, t: Trace, addresses: set<Multiaddr>)
    ensures Beats(DialSet(w, t, addresses).trace) == Beats(t)
  {
    if addresses != {} { BeatsSnoc(t, Dialling(addresses, w.net.dial(t, addresses))); }
  }

  lemma ReachBeats(w: World, s: Store, t: Trace, port: Port, peer: PeerId)
    ensures Beats(TryReach(w, s, t, port, peer).trace) == Beats(t) + [Asked([peer])]
  {
    var reply := w.net.resolve(t, [peer]);
    BeatsSnoc(t, Resolving([peer], reply));
    RaceBeats(w, t + [Resolving([peer], reply)],
      ReachRoutes(w.relay, s, port, peer, UsableRoutes(w.relay, [peer], reply)));
  }

  /** Three questions about the peer, one second and then two seconds apart. */
  function FightBeats(peer: PeerId): seq<Beat> {
    [Asked([peer]), Napped(1_000_000_000), Asked([peer]), Napped(2_000_000_000), Asked([peer])]
  }

  /** A fight over k attempts. */
  predicate FoughtOver(before: seq<Beat>, after: seq<Beat>, peer: PeerId, k: nat) {
    1 <= k <= 3 && after == before + FightBeats(peer)[..2 * k - 1]
  }

  lemma AttemptBeats(w: World, s: Store, t: Trace, port: Port, peer: PeerId, attempt: nat)
    ensures var u := TryReach(w, s, t, port, peer).trace;
            && Beats(u) == Beats(t) + [Asked([peer])]
            && (attempt == 0 ==> Beats(AfterAttempt(u, attempt)) == Beats(t) + [Asked([peer]), Napped(1_000_000_000)])
            && (attempt == 1 ==> Beats(AfterAttempt(u, attempt)) == Beats(t) + [Asked([peer]), Napped(2_000_000_000)])
            && (attempt == 2 ==> AfterAttempt(u, attempt) == u)
  {
    var u := TryReach(w, s, t, port, peer).trace;
    ReachBeats(w, s, t, port, peer);
    if attempt < 2 {
      assert ReconnectDelay(1) == 2 * ReconnectDelay(0);
      BeatsSnoc(u, Sleeping(ReconnectDelay(attempt)));
      assert Beats(t) + [Asked([peer])] + [Napped(ReconnectDelay(attempt))]
             == Beats(t) + [Asked([peer]), Napped(ReconnectDelay(attempt))];
    }
  }

  /** A fight for the dropped peer asks for it at most three times, sleeping one second and
      then two seconds in between; it is lost only after the third. */
  lemma FightIsExact(w: World, s: Store, t: Trace, port: Port, peer: PeerId) returns (k: nat)
    ensures var r := Reconnect(w, s, t, port, peer, 0);
            FoughtOver(Beats(t), Beats(r.trace), peer, k) && (r.peer.None? ==> k == 3)
  {
    hide TryReach, AfterAttempt, Beats;
    var r := Reconnect(w, s, t, port, peer, 0);
    var beats := FightBeats(peer);
    var first := TryReach(w, s, t, port, peer);
    AttemptBeats(w, s, t, port, peer, 0);
    assert beats[..1] == [Asked([peer])] && beats[..3] == beats[..2] + [Asked([peer])];
    assert beats[..2] == [Asked([peer]), Napped(1_000_000_000)];
    if first.peer.Some? {
      k := 1;
    } else {
      var t1 := AfterAttempt(first.trace, 0);
      var second := TryReach(w, s, t1, port, peer);
      AttemptBeats(w, s, t1, port, peer, 1);
      assert r == if second.peer.Some? then second
                  else Reconnect(w, s, AfterAttempt(second.trace, 1), port, peer, 2);
      if second.peer.Some? {
        assert Beats(t) + [Asked([peer]), Napped(1_000_000_000)] + [Asked([peer])] == Beats(t) + beats[..3];
        k := 2;
      } else {
        LastAttempt(w, s, t, AfterAttempt(second.trace, 1), port, peer);
        k := 3;
      }
    }
  }

  lemma LastAttempt(w: World, s: Store, t: Trace, u: Trace, port: Port, peer: PeerId)
    requires Beats(u) == Beats(t) + [Asked([peer]), Napped(1_000_000_000)] + [Asked([peer]), Napped(2_000_000_000)]
    ensures FoughtOver(Beats(t), Beats(Reconnect(w, s, u, port, peer, 2).trace), peer, 3)
  {
    hide TryReach, Beats;
    AttemptBeats(w, s, u, port, peer, 2);
    var r := TryReach(w, s, u, port, peer);
    assert Reconnect(w, s, u, port, peer, 2).trace == r.trace;
    var beats := FightBeats(peer);
    assert beats[..5] == [Asked([peer]), Napped(1_000_000_000)] + [Asked([peer]), Napped(2_000_000_000)]
                         + [Asked([peer])];
    assert Beats(u) + [Asked([peer])] == Beats(t) + beats[..5];
  }

  /** One question about each of these peers, in this order. */
  function AskEach(peers: seq<PeerId>): seq<Beat> {
    seq(|peers|, i requires 0 <= i < |peers| => Asked([peers[i]]))
  }

  function Unskipped(peers: seq<PeerId>, skip: Option<PeerId>): seq<PeerId> {
    if skip.Some? then Without(peers, skip.value) else peers
  }

  /** A pool pass asks about the members in pool order, the dropped peer left out, and stops
      only at one that is reached. */
  lemma {:induction false} WalkIsExact(w: World, s: Store, t: Trace, port: Port, peers: seq<PeerId>,
                                       skip: Option<PeerId>) returns (n: nat)
    ensures var r := WalkPool(w, s, t, port, peers, skip);
            var rest := Unskipped(peers, skip);
            && n <= |rest| && Beats(r.trace) == Beats(t) + AskEach(rest[..n]) && (r.peer.None? ==> n == |rest|)
    decreases |peers|
  {
    hide TryReach, Beats;
    var rest := Unskipped(peers, skip);
    if peers == [] {
      n := 0;
      assert AskEach(rest[..0]) == [];
    } else if Some(peers[0]) == skip {
      n := WalkIsExact(w, s, t, port, peers[1..], skip);
    } else {
      var r := TryReach(w, s, t, port, peers[0]);
      ReachBeats(w, s, t, port, peers[0]);
      HeadUnskipped(peers, skip);
      if r.peer.Some? {
        n := 1;
        assert AskEach(rest[..1]) == [Asked([peers[0]])];
      } else {
        var m := WalkIsExact(w, Forget(s, port, peers[0]), r.trace, port, peers[1..], skip);
        n := m + 1;
        assert rest[..n] == [peers[0]] + Unskipped(peers[1..], skip)[..m];
        assert AskEach(rest[..n]) == [Asked([peers[0]])] + AskEach(Unskipped(peers[1..], skip)[..m]);
      }
    }
  }

  lemma HeadUnskipped(peers: seq<PeerId>, skip: Option<PeerId>)
    requires peers != [] && Some(peers[0]) != skip
    ensures Unskipped(peers, skip) == [peers[0]] + Unskipped(peers[1..], skip)
  {
  }

  /** Rounds of discovery: each a query for 25 exits, followed by a sleep of one second if
      there was nobody to dial. */
  function Rounds(port: Port, idle: seq<bool>): seq<Beat> {
    if idle == [] then []
    else [Queried(port, 25)] + (if idle[0] then [Napped(1_000_000_000)] else []) + Rounds(port, idle[1..])
  }

  lemma RoundBeats(w: World, t: Trace, server: Server) returns (idle: bool)
    ensures Beats(DiscoverOnce(w, t, server).trace) == Beats(t) + Rounds(server.port, [idle])
  {
    hide DialRoutes, CandidateAddresses, Beats;
    var found := w.net.findNodes(t, server, 25);
    var act := FindingNodes(server.port, 25, found);
    BeatsSnoc(t, act);
    idle := found.Err? || found.value == [];
    assert [idle][1..] == [];
    if found.Err? {
      BeatsSnoc(t + [act], Sleeping(1_000_000_000));
    } else {
      var shown := Emitting(ServerPool(server.port, found.value));
      BeatsSnoc(t + [act], shown);
      if found.value == [] {
        BeatsSnoc(t + [act] + [shown], Sleeping(1_000_000_000));
      } else {
        RaceBeats(w, t + [act] + [shown], CandidateAddresses(w.relay, found.value));
      }
    }
  }

  /** Discovery gives up after exactly as many rounds as it had left, and says so. */
  lemma {:induction false} DiscoveryIsExact(w: World, s: Store, t: Trace, server: Server, attempt: nat)
    returns (idle: seq<bool>)
    requires attempt <= 20 && Discover(w, s, t, server, attempt).result.Err?
    ensures var u := Discover(w, s, t, server, attempt).trace;
            |idle| == 20 - attempt && Beats(u) == Beats(t) + Rounds(server.port, idle) && EndsInError(u)
    decreases 20 - attempt
  {
    hide DiscoverOnce, Beats;
    if attempt == 20 {
      idle := [];
      BeatsSnoc(t, Emitting(ErrorShown));
    } else {
      var u := DiscoverOnce(w, t, server).trace;
      var now := RoundBeats(w, t, server);
      var later := DiscoveryIsExact(w, s, u, server, attempt + 1);
      idle := [now] + later;
      assert idle[1..] == later && [now][1..] == [];
      assert Rounds(server.port, idle) == Rounds(server.port, [now]) + Rounds(server.port, later);
    }
  }

  predicate EndsInError(t: Trace) {
    t != [] && t[|t| - 1] == Emitting(ErrorShown)
  }

  // ---------- a connect that gives up ----------

  /** What a failed discovery-driven connect asked and slept: the fight, the pool without the
      dropped peer, and twenty rounds. */
  function LostBeats(server: Server, pool: seq<PeerId>, avoid: Option<PeerId>, idle: seq<bool>): seq<Beat> {
    (if Fights(server, avoid) then FightBeats(avoid.value) else [])
    + (if server.sticky then AskEach(Unskipped(pool, avoid)) else [])
    + Rounds(server.port, idle)
  }

  lemma FreshLost(w: World, s: Store, t: Trace, server: Server, skip: Option<PeerId>) returns (idle: seq<bool>)
    requires ConnectFresh(w, s, t, server, skip).result.Err?
    ensures var u := ConnectFresh(w, s, t, server, skip).trace;
            && |idle| == 20 && EndsInError(u)
            && Beats(u) == Beats(t) + (if server.sticky then AskEach(Unskipped(PoolOf(s, server), skip)) else [])
                           + Rounds(server.port, idle)
  {
    hide WalkPool, Discover, Beats;
    var fp := server.Fingerprint();
    var pass := ConnectPool(w, s, t, server, skip);
    if server.sticky {
      var n := WalkIsExact(w, Invalidate(s, server.port, fp), t, server.port, PoolIds(s, server.port, fp), skip);
      assert Unskipped(PoolOf(s, server), skip)[..n] == Unskipped(PoolOf(s, server), skip);
    }
    idle := DiscoveryIsExact(w, pass.store, pass.trace, server, 0);
  }

  lemma {:induction false} WithoutTwice<T>(s: seq<T>, x: T)
    ensures Without(Without(s, x), x) == Without(s, x)
  {
    WithoutMembers(s, x);
    WithoutAbsent(Without(s, x), x);
  }

  lemma DiscoveredLost(w: World, s: Store, t: Trace, server: Server, avoid: Option<PeerId>) returns (idle: seq<bool>)
    requires Distinct(s) && ConnectDiscovered(w, s, t, server, avoid).result.Err?
    ensures var u := ConnectDiscovered(w, s, t, server, avoid).trace;
            && |idle| == 20 && EndsInError(u)
            && Beats(u) == Beats(t) + LostBeats(server, PoolOf(s, server), avoid, idle)
  {
    hide Reconnect, ConnectFresh, Beats, FightBeats, Without;
    var pool := PoolOf(s, server);
    if Fights(server, avoid) {
      var u := Reconnect(w, s, t, server.port, avoid.value, 0).trace;
      FightLost(w, s, t, server.port, avoid.value);
      ForgetView(s, server.port, server.Fingerprint(), avoid.value);
      WithoutTwice(pool, avoid.value);
      idle := FreshLost(w, Forget(s, server.port, avoid.value), u, server, avoid);
      Joined(Beats(t), FightBeats(avoid.value), AskEach(Unskipped(pool, avoid)), Rounds(server.port, idle));
    } else {
      idle := FreshLost(w, s, t, server, avoid);
      var asks := if server.sticky then AskEach(Unskipped(pool, avoid)) else [];
      Joined(Beats(t), [], asks, Rounds(server.port, idle));
      assert Beats(t) + [] == Beats(t);
    }
  }

  lemma FightLost(w: World, s: Store, t: Trace, port: Port, peer: PeerId)
    requires Reconnect(w, s, t, port, peer, 0).peer.None?
    ensures Beats(Reconnect(w, s, t, port, peer, 0).trace) == Beats(t) + FightBeats(peer)
  {
    hide Reconnect, Beats;
    var _ := FightIsExact(w, s, t, port, peer);
    assert FightBeats(peer)[..5] == FightBeats(peer);
  }

  lemma Joined<T>(a: seq<T>, b: seq<T>, c: seq<T>, d: seq<T>)
    ensures (a + b) + c + d == a + (b + c + d)
  {
  }

  lemma Nested<T>(a: seq<T>, b: seq<T>, c: seq<T>)
    ensures (a + b) + c == a + (b + c)
  {
  }

  function PinIds(server: Server): seq<PeerId> {
    var pinned := server.Pinned();
    seq(|pinned|, i requires 0 <= i < |pinned| => pinned[i].peerId)
  }

  /** Passes over the pins: each one question about all of them, and a second's sleep. */
  function Passes(ids: seq<PeerId>, n: nat): seq<Beat> {
    if n == 0 then [] else [Asked(ids), Napped(1_000_000_000)] + Passes(ids, n - 1)
  }

  lemma {:induction false} RanksBeats(w: World, t: Trace, pinned: seq<DestinationPeerEntry>, routes: Routes, rank: nat)
    ensures Beats(TryRanks(w, t, pinned, routes, rank).trace) == Beats(t)
    decreases |pinned| - rank
  {
    hide DialRoutes, Beats;
    if rank < |pinned| {
      var candidate := CandidateRoutes(pinned[rank], routes);
      if candidate == {} {
        RanksBeats(w, t, pinned, routes, rank + 1);
      } else {
        RaceBeats(w, t, candidate);
        RanksBeats(w, DialRoutes(w, t, candidate).trace, pinned, routes, rank + 1);
      }
    }
  }

  lemma PassBeats(w: World, t: Trace, server: Server)
    ensures Beats(PinnedPass(w, t, server).trace) == Beats(t) + [Asked(PinIds(server))]
  {
    hide TryRanks, Statuses, UsableRoutes, Beats;
    var pinned := server.Pinned();
    var ids := PinIds(server);
    assert PinnedIdSeq(pinned) == ids;
    var act := Resolving(ids, w.net.resolve(t, ids));
    var shown := Emitting(PinnedPeerStatuses(server.port, Statuses(pinned, PinnedRoutes(w, t, pinned))));
    BeatsSnoc(t, act);
    BeatsSnoc(t + [act], shown);
    RanksBeats(w, t + [act] + [shown], pinned, PinnedRoutes(w, t, pinned), 0);
  }

  lemma {:induction false} HardPinLost(w: World, s: Store, t: Trace, server: Server, pass: nat)
    requires pass <= 20 && !server.fallbackToDiscovery && ConnectPinned(w, s, t, server, pass).result.Err?
    ensures var u := ConnectPinned(w, s, t, server, pass).trace;
            Beats(u) == Beats(t) + Passes(PinIds(server), 20 - pass) && EndsInError(u)
    decreases 20 - pass
  {
    hide PinnedPass, Beats;
    if pass == 20 {
      BeatsSnoc(t, Emitting(ErrorShown));
    } else {
      var u := PinnedPass(w, t, server).trace;
      PassBeats(w, t, server);
      BeatsSnoc(u, Sleeping(1_000_000_000));
      HardPinLost(w, s, u + [Sleeping(1_000_000_000)], server, pass + 1);
      var ids := PinIds(server);
      assert [Asked(ids), Napped(1_000_000_000)] + Passes(ids, 20 - (pass + 1)) == Passes(ids, 20 - pass);
      assert Beats(t) + [Asked(ids)] + [Napped(1_000_000_000)] + Passes(ids, 20 - (pass + 1))
             == Beats(t) + ([Asked(ids), Napped(1_000_000_000)] + Passes(ids, 20 - (pass + 1)));
    }
  }

  /** Whatever the world answers, a connect that gives up has done exactly what it may before
      that, and nothing else. A hard pin: twenty passes, each one question about all the pins
      and a second's sleep. Any other server: one such question if it has pins; the fight for
      the dropped peer if it has none and reconnects with backoff; one question about each
      other pool member, in pool order; and twenty queries for strangers. The last act shows
      the error. */
  lemma GivesUpExactly(w: World, s: Store, t: Trace, server: Server, avoid: Option<PeerId>) returns (idle: seq<bool>)
    requires Distinct(s) && Connect(w, s, t, server, avoid).result.Err?
    ensures var u := Connect(w, s, t, server, avoid).trace;
            && EndsInError(u)
            && (Discovers(server) ==> |idle| == 20)
            && Beats(u) == Beats(t)
                 + (if !Discovers(server) then Passes(PinIds(server), 20)
                    else if server.Pinned() != [] then
                      [Asked(PinIds(server))] + LostBeats(server, PoolOf(s, server), None, idle)
                    else LostBeats(server, PoolOf(s, server), avoid, idle))
  {
    hide PinnedPass, ConnectDiscovered, Beats, LostBeats, Passes, PinIds;
    idle := [];
    if server.Pinned() == [] {
      idle := DiscoveredLost(w, s, t, server, avoid);
    } else if server.fallbackToDiscovery {
      var u := PinnedPass(w, t, server).trace;
      PassBeats(w, t, server);
      idle := DiscoveredLost(w, s, u, server, None);
      Nested(Beats(t), [Asked(PinIds(server))], LostBeats(server, PoolOf(s, server), None, idle));
    } else {
      HardPinLost(w, s, t, server, 0);
    }
  }
}

/** Which peers the discovery actor takes to be directly connected. */
module DirectLinks {
  import opened Wrappers
  import opened Selection
  import opened Environments
  import opened DiscoverySpec
  import opened Runs
  import Config
  import ConnectSpec
  import Sticky

  /** One event changes what is known of its own peer only. */
  function DirectAfter(direct: set<PeerId>, e: DiscoveryEvent): set<PeerId> {
    match e
    case PeerConnected(peer, _, relayed) => if relayed then direct - {peer} else direct + {peer}
    case PeerClosed(peer) => direct - {peer}
    case _ => direct
  }

  lemma DiscoverDirect(g: Setting, a: Actor, port: Port, avoid: Option<PeerId>)
    ensures DiscoverPort(g, a, port, avoid).actor.direct == a.direct
  {
    hide ConnectFor;
  }

  lemma CloseDirect(g: Setting, a: Actor, peer: PeerId, port: Port)
    ensures ClosePort(g, a, peer, port).direct == a.direct
  {
    hide DiscoverPort;
    var now := g.net.now(a.trace);
    if port !in a.lastRediscovery {
      RediscoverDirect(g, a, port, peer);
    } else {
      RediscoverDirect(g, a.Noting(ReadingClock(now)), port, peer);
    }
  }

  lemma RediscoverDirect(g: Setting, a: Actor, port: Port, peer: PeerId)
    ensures Rediscover(g, a, port, peer).direct == a.direct
  {
    hide DiscoverPort;
    var now := g.net.now(a.trace);
    var b := a.(lastRediscovery := a.lastRediscovery[port := now])
             .Noting(ReadingClock(now)).Noting(Rediscovering(port, now));
    DiscoverDirect(g, b, port, Some(peer));
  }

  lemma {:induction false} ClosePortsDirect(g: Setting, a: Actor, peer: PeerId, ports: seq<Port>)
    ensures ClosePorts(g, a, peer, ports).direct == a.direct
    decreases |ports|
  {
    hide ClosePort;
    if ports != [] {
      CloseDirect(g, a, peer, ports[0]);
      ClosePortsDirect(g, ClosePort(g, a, peer, ports[0]), peer, ports[1..]);
    }
  }

  lemma {:induction false} RotatePortsDirect(g: Setting, a: Actor, candidate: PeerId, ports: seq<Port>)
    ensures RotatePorts(g, a, candidate, ports).direct == a.direct
    decreases |ports|
  {
    if ports != [] { RotatePortsDirect(g, RotatePort(g, a, candidate, ports[0]), candidate, ports[1..]); }
  }

  lemma {:induction false} DiscoverPortsDirect(g: Setting, a: Actor, ports: seq<Port>)
    ensures DiscoverPorts(g, a, ports).direct == a.direct
    decreases |ports|
  {
    hide DiscoverPort;
    if ports != [] {
      DiscoverDirect(g, a, ports[0], None);
      DiscoverPortsDirect(g, DiscoverPort(g, a, ports[0], None).actor, ports[1..]);
    }
  }

  lemma {:induction false} ShowPoolsDirect(a: Actor, servers: seq<Config.Server>)
    ensures ShowPools(a, servers).direct == a.direct
    decreases |servers|
  {
    if servers != [] { ShowPoolsDirect(ShowPool(a, servers[0]), servers[1..]); }
  }

  lemma HandleDirect(g: Setting, a: Actor, e: DiscoveryEvent)
    ensures Handle(g, a, e).direct == DirectAfter(a.direct, e)
  {
    hide DiscoverPort, ClosePorts, RotatePorts, DiscoverPorts, ShowPools, ConnectSpec.TryReach;
    match e
    case DiscoverFor(port) => DiscoverDirect(g, a, port, None);
    case RequestNewPeer(port) => DiscoverDirect(g, a, port, None);
    case PeerClosed(peer) =>
      ClosePortsDirect(g, a.(direct := a.direct - {peer}), peer,
        g.net.iterate(a.trace, ServedBy(a.destinations, peer)));
    case PeerUnusable(peer) =>
      var b := a.(store := ForgetEverywhere(a.store, g.servers, peer));
      var ports := g.net.iterate(b.trace, ServedBy(b.destinations, peer));
      DiscoverPortsDirect(g, b, ports);
      ShowPoolsDirect(DiscoverPorts(g, b, ports), g.servers);
    case PeerConnected(peer, address, relayed) =>
      if !relayed {
        var b := a.(direct := a.direct + {peer}, store := Sticky.Note(a.store, peer, address));
        RotatePortsDirect(g, b, peer, g.net.iterate(b.trace, RelayStuck(b, peer)));
      }
    case SelectPeer(_, _) =>
  }

  /** The last report delivered about the peer is of a direct connection. */
  ghost predicate ReportedDirect(delivered: seq<DiscoveryEvent>, peer: PeerId) {
    exists i: nat :: LastReportAt(delivered, peer, i) && delivered[i].PeerConnected? && !delivered[i].relayed
  }

  predicate Reports(e: DiscoveryEvent, peer: PeerId) {
    (e.PeerConnected? || e.PeerClosed?) && e.peer == peer
  }

  predicate LastReportAt(delivered: seq<DiscoveryEvent>, peer: PeerId, i: nat) {
    i < |delivered| && Reports(delivered[i], peer) && forall k :: i < k < |delivered| ==> !Reports(delivered[k], peer)
  }

  lemma ReportedStep(front: seq<DiscoveryEvent>, e: DiscoveryEvent, peer: PeerId)
    ensures ReportedDirect(front + [e], peer)
            <==> if Reports(e, peer) then e.PeerConnected? && !e.relayed else ReportedDirect(front, peer)
  {
    var all := front + [e];
    assert all[|front|] == e && forall k :: 0 <= k < |front| ==> all[k] == front[k];
    if Reports(e, peer) {
      assert LastReportAt(all, peer, |front|);
    } else {
      if ReportedDirect(front, peer) {
        var i: nat :| LastReportAt(front, peer, i) && front[i].PeerConnected? && !front[i].relayed;
        assert LastReportAt(all, peer, i);
      }
      if ReportedDirect(all, peer) {
        var i: nat :| LastReportAt(all, peer, i) && all[i].PeerConnected? && !all[i].relayed;
        assert LastReportAt(front, peer, i);
      }
    }
  }

  /** Over every run the actor takes a peer to be directly connected if and only if the
      last report delivered about it says so. */
  lemma {:induction false} DirectIsReported(g: Setting, start: System, run: seq<Step>, peer: PeerId)
    requires Scenario(g, start, run)
    ensures var sys := Execute(g, start, run); peer in sys.actor.direct <==> ReportedDirect(sys.delivered, peer)
  {
    if run != [] {
      var sys, step := Execute(g, start, run[..|run| - 1]), run[|run| - 1];
      DirectIsReported(g, start, run[..|run| - 1], peer);
      hide Handle, Execute, ReportedDirect;
      if step.Deliver? {
        HandleDirect(g, sys.actor, step.event);
        ReportedStep(sys.delivered, step.event, peer);
      }
    }
  }
}

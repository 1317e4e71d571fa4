/** The event effects in every reachable state, and the operator's view of a run. */
module RunEffects {
  import opened Wrappers
  import opened Selection
  import opened Config
  import opened Environments
  import opened ConnectSummaries
  import opened DiscoverySpec
  import opened Histories
  import opened EventEffects
  import opened CloseEffects
  import opened DirectLinks
  import opened Runs
  import opened Tui
  import opened TuiLaws

  /** Over every run: once a direct connection of `peer` is handled, every port whose
      valid pool held `peer` serves nobody or a peer whose last delivered report is of a
      direct connection, and the exits of the other ports are what they were. */
  lemma RelayIsLastResort(g: Setting, start: System, run: seq<Step>, peer: PeerId, address: Multiaddr, server: Server)
    requires Scenario(g, start, run) && server in g.servers
    ensures var before := Execute(g, start, run).actor;
            var e := PeerConnected(peer, address, false);
            var after := Handle(g, before, e);
            && server.port in before.destinations && server.port in after.destinations
            && (peer in PoolOf(before.store, server) && after.destinations[server.port].Some? ==>
                  && after.destinations[server.port].value in after.direct
                  && ReportedDirect(Execute(g, start, run).delivered + [e], after.destinations[server.port].value))
            && (peer !in PoolOf(before.store, server) ==>
              after.destinations[server.port] == before.destinations[server.port])
  {
    RunKeepsPools(g, start, run);
    RunKeepsPorts(g, start, run, server.port);
    var sys, e := Execute(g, start, run), PeerConnected(peer, address, false);
    DirectConnectEffect(g, sys.actor, peer, address, server);
    hide Handle, Execute, PoolOf, ReportedDirect;
    var exit := Handle(g, sys.actor, e).destinations[server.port];
    if exit.Some? {
      HandleDirect(g, sys.actor, e);
      DirectIsReported(g, start, run, exit.value);
      ReportedStep(sys.delivered, e, exit.value);
    }
  }

  /** Over every run: a peer declared unusable is not reused from the pool by a port it
      was serving. */
  lemma UnusableIsNotReused(g: Setting, start: System, run: seq<Step>, peer: PeerId, server: Server)
    requires Scenario(g, start, run) && server in g.servers
    requires var a := Execute(g, start, run).actor;
             server.port in a.destinations && a.destinations[server.port] == Some(peer)
    ensures var after := Handle(g, Execute(g, start, run).actor, PeerUnusable(peer));
            server.port in after.destinations && (after.destinations[server.port] == Some(peer) ==>
              HistoryOf(after.trace, server.port).source != Some(StickyReuse))
  {
    RunKeepsPools(g, start, run);
    RunKeepsPorts(g, start, run, server.port);
    UnusableNeverReused(g, Execute(g, start, run).actor, peer, server);
  }

  /** Over every run: once the close of `peer` is handled, each port it was serving has had
      one rediscovery started or is dark with a wake-up pending, and no other port has
      changed in any way. */
  lemma ClosedPeerIsAttended(g: Setting, start: System, run: seq<Step>, peer: PeerId, server: Server)
    requires Scenario(g, start, run) && server in g.servers
    ensures var before := Execute(g, start, run).actor;
            var after := Handle(g, before, PeerClosed(peer));
            && server.port in before.destinations
            && if before.destinations[server.port] == Some(peer) then Attended(before, after, server.port)
               else Untouched(before, after, server)
  {
    hide Handle, Attended, Untouched;
    RunKeepsPools(g, start, run);
    RunKeepsPorts(g, start, run, server.port);
    ClosedPeerEffect(g, Execute(g, start, run).actor, peer, server);
  }

  /** Over every run: the actor's own events, heard alone, would show for each port exactly
      the peer its handle holds. The operator's view hears the network actor too; what it
      shows is `JointRuns.ViewTracksTheHandle`. */
  lemma OwnEventsShowTheHandle(g: Setting, start: System, run: seq<Step>, port: Port)
    requires Scenario(g, start, run) && port in Execute(g, start, run).actor.destinations
    ensures var a := Execute(g, start, run).actor;
            && ActiveAt(Seen(a.trace), port) == a.destinations[port]
            && (a.destinations[port].Some? ==> a.destinations[port].value in OrderedPool(Seen(a.trace), port))
  {
    var a := Execute(g, start, run).actor;
    ShownIsServed(g, start, run, port);
    ViewFollowsTrace(a.trace, port);
    SeenVisible(a.trace, port);
    OrderedPoolMembers(Seen(a.trace), port);
  }

  lemma {:induction false} SeenVisible(t: Trace, port: Port)
    ensures ActiveVisible(Seen(t), port)
  {
    if t != [] {
      SeenVisible(t[..|t| - 1], port);
      if t[|t| - 1].Emitting? { StepKeepsVisible(Seen(t[..|t| - 1]), Protocol(t[|t| - 1].event), port); }
    }
  }
}

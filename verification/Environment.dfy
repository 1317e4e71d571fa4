/** The outside world of the exit-selection protocol: the hub directory, the dialer,
    the clock, hash-map iteration order and the event sink. Every reply may depend on
    everything that happened before it, so a `Net` is an arbitrary adversary; what the
    protocol may rely on is stated as separate contracts. */
module Environments {
  import opened Wrappers
  import opened Selection
  import opened Sticky
  import opened Config
  import opened NetworkActors
  import opened Sequences

  datatype DirectoryError = Timeout | Rejected | Unsupported | TaskFailed

  datatype DialError = NoneConnected | Shutdown

  type Routes = map<PeerId, seq<Multiaddr>>

  datatype DestinationSource = Pinned(rank: nat) | StickyReuse | Discovered | Manual

  datatype PinnedPeerStatus = PinnedPeerStatus(peerId: PeerId, rank: nat, resolvable: bool)

  /** Events surfaced to the operator by the protocol. */
  datatype Event =
    | ErrorShown
    | ServerPool(port: Port, peers: seq<PoolPeer>)
    | PinnedPeerStatuses(port: Port, statuses: seq<PinnedPeerStatus>)
    | ActiveDestination(port: Port, peer: Option<PeerId>, source: Option<DestinationSource>)
    | StickyPoolShown(port: Port, peers: seq<PoolPeer>)

  /** A spawned task that sleeps, then asks for a discovery of its port. */
  datatype Timer = Timer(port: Port, spawned: Instant, delay: nat)

  /** One observable act of the protocol, with the world's reply. `Racing` opens a dial
      of one route set; `Selecting` opens a selection of an exit for a port. */
  datatype Act =
    | Resolving(peers: seq<PeerId>, routes: Result<Routes, DirectoryError>)
    | FindingNodes(port: Port, limit: nat, found: Result<seq<PoolPeer>, DirectoryError>)
    | Racing(route: set<Multiaddr>)
    | Dialling(addresses: set<Multiaddr>, reached: Result<Option<PeerId>, DialError>)
    | AskingConnected(peer: PeerId, connected: bool)
    | Sleeping(duration: nat)
    | Emitting(event: Event)
    | ReadingClock(now: Instant)
    | Selecting(port: Port)
    | Rediscovering(port: Port, at: Instant)
    | Throttling(port: Port)
    | Spawning(timer: Timer)
    | Replying(port: Port, chosen: Option<PeerId>)

  type Trace = seq<Act>

  datatype Net = Net(
    resolve: (Trace, seq<PeerId>) -> Result<Routes, DirectoryError>,
    findNodes: (Trace, Server, nat) -> Result<seq<PoolPeer>, DirectoryError>,
    dial: (Trace, set<Multiaddr>) -> Result<Option<PeerId>, DialError>,
    isConnected: (Trace, PeerId) -> bool,
    now: Trace -> Instant,
    iterate: (Trace, set<Port>) -> seq<Port>)

  // ---------- contracts ----------

  /** The dialer answers with a target of the dialled addresses, or with nobody. */
  ghost predicate HonestDialer(net: Net) {
    forall t, a :: net.dial(t, a).Ok? ==> AnswerAllowed(a, net.dial(t, a).value)
  }

  /** A resolution covers only the peers asked for, and each route leads to its peer. */
  ghost predicate HonestRoutes(peers: seq<PeerId>, routes: Routes) {
    forall p :: p in routes ==> p in peers && forall a :: a in routes[p] ==> LeadsTo(a, p)
  }

  ghost predicate HonestHub(net: Net) {
    forall t, peers :: net.resolve(t, peers).Ok? ==> HonestRoutes(peers, net.resolve(t, peers).value)
  }

  /** The clock never runs backwards, and a sleep lasts at least its duration. */
  ghost predicate MonotoneClock(net: Net) {
    && (forall t, a :: net.now(t) <= net.now(t + [a]))
    && (forall t, d :: net.now(t) + d <= net.now(t + [Sleeping(d)]))
  }

  /** Iterating a set of ports visits each of them once, in some order. */
  ghost predicate FaithfulIteration(net: Net) {
    forall t, s :: Lists(net.iterate(t, s), s)
  }

  ghost predicate Lists(ports: seq<Port>, s: set<Port>) {
    NoDuplicates(ports) && forall p :: p in ports <==> p in s
  }

  lemma {:induction false} ClockAlong(net: Net, t: Trace, u: Trace)
    requires MonotoneClock(net) && t <= u
    ensures net.now(t) <= net.now(u)
    decreases |u|
  {
    if |t| < |u| {
      var v := u[..|u| - 1];
      ClockAlong(net, t, v);
      assert u == v + [u[|u| - 1]];
    } else {
      assert t == u;
    }
  }

  // ---------- the world as an object ----------

  class Environment {
    const net: Net
    var trace: Trace
    /** Timers spawned and not yet fired. */
    var timers: multiset<Timer>

    constructor (net: Net, trace: Trace, timers: multiset<Timer>)
      ensures this.net == net && this.trace == trace && this.timers == timers
    {
      this.net := net;
      this.trace := trace;
      this.timers := timers;
    }

    method Spawn(port: Port, delay: nat)
      modifies this
      ensures var timer := Timer(port, net.now(old(trace)), delay);
              timers == old(timers) + multiset{timer} && trace == old(trace) + [Spawning(timer)]
    {
      var timer := Timer(port, net.now(trace), delay);
      timers := timers + multiset{timer};
      trace := trace + [Spawning(timer)];
    }

    method Record(a: Act)
      modifies `trace
      ensures trace == old(trace) + [a]
    {
      trace := trace + [a];
    }

    method ResolvePeers(peers: seq<PeerId>) returns (routes: Result<Routes, DirectoryError>)
      modifies `trace
      ensures routes == net.resolve(old(trace), peers)
      ensures trace == old(trace) + [Resolving(peers, routes)]
    {
      routes := net.resolve(trace, peers);
      trace := trace + [Resolving(peers, routes)];
    }

    method FindNodes(server: Server, limit: nat) returns (found: Result<seq<PoolPeer>, DirectoryError>)
      modifies `trace
      ensures found == net.findNodes(old(trace), server, limit)
      ensures trace == old(trace) + [FindingNodes(server.port, limit, found)]
    {
      found := net.findNodes(trace, server, limit);
      trace := trace + [FindingNodes(server.port, limit, found)];
    }

    method DialAndWait(addresses: set<Multiaddr>) returns (reached: Result<Option<PeerId>, DialError>)
      modifies `trace
      ensures reached == net.dial(old(trace), addresses)
      ensures trace == old(trace) + [Dialling(addresses, reached)]
    {
      reached := net.dial(trace, addresses);
      trace := trace + [Dialling(addresses, reached)];
    }

    method IsConnected(peer: PeerId) returns (connected: bool)
      modifies `trace
      ensures connected == net.isConnected(old(trace), peer)
      ensures trace == old(trace) + [AskingConnected(peer, connected)]
    {
      connected := net.isConnected(trace, peer);
      trace := trace + [AskingConnected(peer, connected)];
    }

    method Now() returns (now: Instant)
      modifies `trace
      ensures now == net.now(old(trace))
      ensures trace == old(trace) + [ReadingClock(now)]
    {
      now := net.now(trace);
      trace := trace + [ReadingClock(now)];
    }
  }
}

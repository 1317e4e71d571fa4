/** The network actor's own bookkeeping: dials in flight, ping strikes, and what it tells
    its siblings of each link. The swarm itself is outside; its events arrive as inputs. */
module NetworkActors {
  import opened Wrappers
  import opened Selection

  /** Nanoseconds on a monotone clock. */
  type Instant = nat

  type ReplyId = nat

  const DIAL_TIMEOUT: nat := 10_000_000_000
  const MAX_PING_STRIKES: nat := 3

  datatype PendingDial = PendingDial(candidates: set<PeerId>, reply: ReplyId, deadline: Instant)

  /** A value put on a reply channel. */
  datatype Sent = Sent(reply: ReplyId, answer: Option<PeerId>)

  datatype NetInput =
    | Dial(addresses: set<Multiaddr>, reply: ReplyId, now: Instant)
    | Established(peer: PeerId, address: Multiaddr, relayed: bool)
    | Closed(peer: PeerId)
    | PingFailed(peer: PeerId)
    | PingOk(peer: PeerId)
    | ExpireDials(now: Instant)

  /** What it shows the operator of a link. */
  datatype Report =
    | LinkUp(peer: PeerId)
    | Route(peer: PeerId, address: Multiaddr, relayed: bool)
    | LinkDown(peer: PeerId)

  /** A message to the discovery actor, sent from a task of its own: the order in which
      the tasks were spawned says nothing about the order of arrival. */
  datatype Notice = CameUp(peer: PeerId, address: Multiaddr, relayed: bool) | WentDown(peer: PeerId)

  /** `submitted` are the addresses handed to the swarm, in no particular order. */
  datatype NetState = NetState(bootstrap: PeerId, pending: seq<PendingDial>, sent: seq<Sent>,
                               strikes: map<PeerId, nat>, disconnected: seq<PeerId>,
                               submitted: multiset<Multiaddr>, reports: seq<Report>, notices: seq<Notice>)

  function Idle(bootstrap: PeerId): NetState {
    NetState(bootstrap, [], [], map[], [], multiset{}, [], [])
  }

  /** What a caller of `dial` may rely on. */
  predicate AnswerAllowed(addresses: set<Multiaddr>, answer: Option<PeerId>) {
    answer.Some? ==> answer.value in DestinationPeerIds(addresses)
  }

  // ---------- what each input does ----------

  /** The input settles this dial. */
  predicate Settles(e: NetInput, d: PendingDial) {
    match e
    case Established(peer, _, _) => peer in d.candidates
    case ExpireDials(now) => d.deadline <= now
    case _ => false
  }

  function AnswerOf(e: NetInput): Option<PeerId> {
    if e.Established? then Some(e.peer) else None
  }

  function SwapRemove<T>(s: seq<T>, i: nat): (r: seq<T>)
    requires i < |s|
    ensures |r| == |s| - 1
  {
    s[i := s[|s| - 1]][..|s| - 1]
  }

  datatype Swept = Swept(kept: seq<PendingDial>, removed: seq<PendingDial>)

  /** The index walk that removes settled dials by swapping the last one in. */
  function Sweep(pending: seq<PendingDial>, i: nat, e: NetInput): Swept
    requires i <= |pending|
    decreases |pending| - i
  {
    if i == |pending| then Swept(pending, [])
    else if Settles(e, pending[i]) then
      var rest := Sweep(SwapRemove(pending, i), i, e);
      Swept(rest.kept, [pending[i]] + rest.removed)
    else Sweep(pending, i + 1, e)
  }

  function Replies(dials: seq<PendingDial>, answer: Option<PeerId>): seq<Sent> {
    if dials == [] then [] else [Sent(dials[0].reply, answer)] + Replies(dials[1..], answer)
  }

  function DialOf(e: NetInput): PendingDial
    requires e.Dial?
  {
    PendingDial(DestinationPeerIds(e.addresses), e.reply, e.now + DIAL_TIMEOUT)
  }

  function Strikes(strikes: map<PeerId, nat>, peer: PeerId): nat {
    if peer in strikes then strikes[peer] else 0
  }

  function React(n: NetState, e: NetInput): (m: NetState)
    ensures m.bootstrap == n.bootstrap
  {
    match e
    case Dial(addresses, reply, now) =>
      if DestinationPeerIds(addresses) == {} then n.(sent := n.sent + [Sent(reply, None)])
      else n.(pending := n.pending + [DialOf(e)], submitted := n.submitted + multiset(addresses))
    case Established(_, _, _) =>
      Tell(Settle(n, e), e)
    case ExpireDials(_) =>
      Settle(n, e)
    case Closed(peer) =>
      Tell(n.(strikes := n.strikes - {peer}), e)
    case PingOk(peer) =>
      n.(strikes := n.strikes - {peer})
    case PingFailed(peer) =>
      if Strikes(n.strikes, peer) + 1 < MAX_PING_STRIKES then
        n.(strikes := n.strikes[peer := Strikes(n.strikes, peer) + 1])
      else
        n.(strikes := n.strikes - {peer}, disconnected := n.disconnected + [peer])
  }

  function ReportsOf(e: NetInput): seq<Report> {
    match e
    case Established(peer, address, relayed) => [LinkUp(peer), Route(peer, address, relayed)]
    case Closed(peer) => [LinkDown(peer)]
    case _ => []
  }

  /** The bootstrap link coming up concerns nobody else; its end is told like any other. */
  function NoticesOf(bootstrap: PeerId, e: NetInput): seq<Notice> {
    match e
    case Established(peer, address, relayed) => if peer == bootstrap then [] else [CameUp(peer, address, relayed)]
    case Closed(peer) => [WentDown(peer)]
    case _ => []
  }

  function Tell(n: NetState, e: NetInput): NetState {
    n.(reports := n.reports + ReportsOf(e), notices := n.notices + NoticesOf(n.bootstrap, e))
  }

  function Settle(n: NetState, e: NetInput): NetState {
    var swept := Sweep(n.pending, 0, e);
    n.(pending := swept.kept, sent := n.sent + Replies(swept.removed, AnswerOf(e)))
  }

  function Run(n: NetState, events: seq<NetInput>): NetState {
    if events == [] then n else React(Run(n, events[..|events| - 1]), events[|events| - 1])
  }

  // ---------- the actor ----------

  class NetworkActor {
    var pendingDials: seq<PendingDial>
    var pingStrikes: map<PeerId, nat>
    const bootstrap: PeerId
    /** Everything sent on reply channels and every peer told to disconnect, in order. */
    var sent: seq<Sent>
    var disconnected: seq<PeerId>
    var submitted: multiset<Multiaddr>
    var reports: seq<Report>
    var notices: seq<Notice>

    ghost function State(): NetState
      reads this
    {
      NetState(bootstrap, pendingDials, sent, pingStrikes, disconnected, submitted, reports, notices)
    }

    constructor (bootstrap: PeerId)
      ensures State() == Idle(bootstrap)
    {
      this.bootstrap := bootstrap;
      pendingDials, sent, pingStrikes, disconnected := [], [], map[], [];
      submitted, reports, notices := multiset{}, [], [];
    }

    method HandleDial(addresses: set<Multiaddr>, reply: ReplyId, now: Instant)
      modifies this
      ensures State() == React(old(State()), Dial(addresses, reply, now))
    {
      var candidates := DestinationPeerIds(addresses);
      if candidates == {} {
        sent := sent + [Sent(reply, None)];
        return;
      }
      SubmitEach(addresses);
      pendingDials := pendingDials + [PendingDial(candidates, reply, now + DIAL_TIMEOUT)];
    }

    /** Hands every address to the swarm; a refused one is only logged. */
    method SubmitEach(addresses: set<Multiaddr>)
      modifies `submitted
      ensures submitted == old(submitted) + multiset(addresses)
    {
      var todo := addresses;
      while todo != {}
        invariant todo <= addresses
        invariant submitted == old(submitted) + multiset(addresses - todo)
        decreases |todo|
      {
        var address :| address in todo;
        assert addresses - (todo - {address}) == (addresses - todo) + {address};
        todo := todo - {address};
        submitted := submitted + multiset{address};
      }
      assert addresses - {} == addresses;
    }

    method CompletePendingDials(peer: PeerId, ghost e: NetInput)
      requires e.Established? && e.peer == peer
      modifies `pendingDials, `sent
      ensures State() == Settle(old(State()), e)
    {
      var i := 0;
      ghost var removed: seq<PendingDial> := [];
      while i < |pendingDials|
        invariant 0 <= i <= |pendingDials|
        invariant sent == old(sent) + Replies(removed, Some(peer))
        invariant Sweep(old(pendingDials), 0, e)
                  == var rest := Sweep(pendingDials, i, e); Swept(rest.kept, removed + rest.removed)
        decreases |pendingDials| - i
      {
        if peer in pendingDials[i].candidates {
          var pending := pendingDials[i];
          pendingDials := SwapRemove(pendingDials, i);
          sent := sent + [Sent(pending.reply, Some(peer))];
          RepliesSnoc(removed, pending, Some(peer));
          removed := removed + [pending];
        } else {
          i := i + 1;
        }
      }
      assert removed + [] == removed;
    }

    method Expire(now: Instant)
      modifies `pendingDials, `sent
      ensures State() == React(old(State()), ExpireDials(now))
    {
      var i := 0;
      ghost var removed: seq<PendingDial> := [];
      while i < |pendingDials|
        invariant 0 <= i <= |pendingDials|
        invariant sent == old(sent) + Replies(removed, None)
        invariant Sweep(old(pendingDials), 0, ExpireDials(now))
                  == var rest := Sweep(pendingDials, i, ExpireDials(now)); Swept(rest.kept, removed + rest.removed)
        decreases |pendingDials| - i
      {
        if pendingDials[i].deadline <= now {
          var pending := pendingDials[i];
          pendingDials := SwapRemove(pendingDials, i);
          sent := sent + [Sent(pending.reply, None)];
          RepliesSnoc(removed, pending, None);
          removed := removed + [pending];
        } else {
          i := i + 1;
        }
      }
      assert removed + [] == removed;
    }

    method OnEstablished(peer: PeerId, address: Multiaddr, relayed: bool)
      modifies this
      ensures State() == React(old(State()), Established(peer, address, relayed))
    {
      CompletePendingDials(peer, Established(peer, address, relayed));
      reports := reports + [LinkUp(peer), Route(peer, address, relayed)];
      if peer != bootstrap {
        notices := notices + [CameUp(peer, address, relayed)];
      }
    }

    method OnClosed(peer: PeerId)
      modifies this
      ensures State() == React(old(State()), Closed(peer))
    {
      pingStrikes := pingStrikes - {peer};
      reports := reports + [LinkDown(peer)];
      notices := notices + [WentDown(peer)];
    }

    method OnPingFailed(peer: PeerId)
      modifies this
      ensures State() == React(old(State()), PingFailed(peer))
    {
      if peer !in pingStrikes {
        pingStrikes := pingStrikes[peer := 0];
      }
      pingStrikes := pingStrikes[peer := pingStrikes[peer] + 1];
      if pingStrikes[peer] >= MAX_PING_STRIKES {
        pingStrikes := pingStrikes - {peer};
        disconnected := disconnected + [peer];
      }
    }

    method Handle(e: NetInput)
      modifies this
      ensures State() == React(old(State()), e)
    {
      match e
      case Dial(addresses, reply, now) => HandleDial(addresses, reply, now);
      case Established(peer, address, relayed) => OnEstablished(peer, address, relayed);
      case ExpireDials(now) => Expire(now);
      case PingFailed(peer) => OnPingFailed(peer);
      case Closed(peer) => OnClosed(peer);
      case PingOk(peer) => pingStrikes := pingStrikes - {peer};
    }
  }

  lemma {:induction false} RepliesSnoc(dials: seq<PendingDial>, d: PendingDial, answer: Option<PeerId>)
    ensures Replies(dials + [d], answer) == Replies(dials, answer) + [Sent(d.reply, answer)]
  {
    if dials != [] {
      assert (dials + [d])[1..] == dials[1..] + [d];
      RepliesSnoc(dials[1..], d, answer);
    }
  }
}

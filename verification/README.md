# p2proxy exit selection: a verified model

p2proxy listens on local ports and sends each port's traffic out through one
*exit peer*. Four stateful pieces must agree on which peer that is: the
discovery actor, the connect flow, the sticky store of remembered exits, and the
network actor's queue of dials. This project models those four, the
operator's view that hears them, and the small algorithms they lean on (filter
fingerprints, route selection, circuit synthesis, backoff), and proves what they
promise together.

## How it is built

Every piece the program updates in place is a class here with the same fields and
the same loops (`StickyState`, `Backoff`, `NetworkActor`, `ConnectCtx`,
`DiscoveryActor`, `Ui`). Each method's `ensures` fixes its whole new state as a
specification function of the old one. The laws are lemmas about those functions,
so they hold of the methods.

| file | contents |
|---|---|
| `Selection`, `Config`, `Backoff`, `Sequences`, `Wrappers` | addresses and routes, the fingerprint, the delay schedule, list vocabulary |
| `Sticky`, `StickyLaws` | the pool store; laws of whole operation histories |
| `NetworkActor`, `DialLaws` | dials in flight, ping strikes and what is told of each link; conservation over every run |
| `DialerContract` | the dial queue delivers exactly the contract that connects assume |
| `Environment` | the outside world, its contracts, and the trace of observable acts |
| `ConnectSpec`, `Connect` | the connect flow as a function of the world, and as it runs |
| `ConnectShapes`, `ConnectBeats` | what a connect does act by act: which addresses it dials, and what it asks and sleeps before it gives up |
| `ConnectEffort`, `ConnectPools`, `ConnectPins`, `ConnectSummary` | its effort and dial discipline, its effect on the pool, its pinned ranks, and what the actor needs of it |
| `DiscoverySpec`, `DiscoveryActor` | one event of the discovery actor, as a function and as it runs |
| `Moves`, `PoolInvariant`, `Histories`, `EventEffects`, `CloseEffects`, `HardPins` | every event is a sequence of elementary moves; invariants of the moves |
| `Runs`, `HardPinExact`, `DirectLinks`, `RunEffects` | whole runs: messages delivered in any order, timers in flight, a moving clock |
| `ClosedSelection` | what becomes of a port whose exit has closed, act by act |
| `RecalledAddress` | the direct address a reconnect is given, over whole runs |
| `ExitOrigins`, `Returns`, `Unusable` | where every exit comes from; when a dropped or an unusable peer comes back |
| `RelayExits`, `StickyScope` | when a relayed exit stays; where the `sticky` switch reaches |
| `ReachedExits` | the dial or connection test behind every announced exit |
| `Tui`, `TuiLaws`, `ViewTables` | the event reducer; the rotation pool, and every table of the view, from the events alone |
| `ShownPools` | the sticky pool shown is the pool remembered, in the actor and in the view |
| `JointRuns`, `ViewGaps` | both actors and the view in one run; why the view is not in lock-step |
| `JointDials`, `OwnAnswers` | joint runs whose dials are answered by their own network actor, and that this costs no run |

## The environment contract

The hub, the dialer, the clock, hash-map iteration order and the connection test
are a `Net` of functions whose every answer may depend on everything that
happened before. Nothing is assumed of it except where a lemma says so:

- `HonestHub`: a resolution covers only the peers asked for, and each route it gives
  for peer p has last `/p2p/` component p, or none. `DishonestHubRedirects` shows
  that this is needed.
- `HonestDialer`: a dial is answered with a target of the dialled addresses, or with
  nobody. `DialerContracts.QueueIsTheContract` proves that a dialer keeps this if and
  only if each of its replies is one that some run of the network actor sends to such a
  dial. `OwnAnswers.StepIsAnswerableIff` ties it to one run: a step can be taken with all
  its dials answered by the network actor of the same joint run if and only if its replies
  keep the contract.
- `MonotoneClock`: time does not run backwards and a sleep lasts at least its length.
- `FaithfulIteration`: iterating a set of ports visits each once, in some order.
- `JointRuns.Lossless`, for the laws of the view only: the event sink drops nothing. The
  program's sink does drop events when the view falls 200 behind or is absent
  (`crates/p2proxy/src/adapters/channel_sink.rs:18-22`); `ViewGaps.LostEventsAreNotMade`
  shows what one lost event does.

- `JointDials.Genuine`, for the laws of joint dials only: dials and connection tests are
  answered by the network actor of the same run, and nobody else reports a connection.

A run (`Runs.Scenario`) starts from a fresh actor: distinct configured ports,
destination handles for exactly those ports and all empty, pinned entries as parsing
produces them, and a loaded store with no peer twice in one pool. It has no shutdown. Sending is
unrestricted, any queued message may be delivered next, and any due timer may fire
next, so every interleaving of the spawned notifications is a run. The effort, dial
discipline and sticky-off results assume no contract at all.

`Racing`, `Selecting`, `Throttling` and `Rediscovering` are trace marks added by the
model so that the laws can refer to these moments; the program's log lines stand in
the same places.

## Where comments claim more than the code does

The model follows the code.

- `crates/core/src/domain/connect.rs:71-73` says the dropped peer is skipped on the pool
  pre-pass and on discovery. Neither holds. `run_discovery` (173-231) takes no such
  argument: by `DroppedPeerReturnsIff` some contract-keeping world hands the peer straight
  back as a discovery if and only if the server may discover and the hub's offer leads to
  the peer. And the fallback of a pinned server is not told who dropped (79-83, 112-114):
  by `FallbackReusesDropped` its pool pass takes the peer right back, and by
  `DroppedPeerReusedIff` a world that hands it back as a reused exit exists if and only if
  an unpinned server fights for it or a pinned one falls back on a pool that holds it.
- `crates/p2proxy/src/runtime/discovery/event.rs:15-17` says an unusable peer is never
  reconnected to. `UnusableReturnsIff`: a port can get it back if and only if it is one of
  the port's pins, or the port may discover and the hub's offer leads to it.
  `UnusableJustified` bounds every such return, and `UnusableNeverReused` proves that it
  never comes from the sticky pool.
- `crates/p2proxy/src/runtime/discovery/actor.rs:136-139` says a relay is never the steady
  state and a directly connected alternative always wins. It wins when it connects;
  the next selection takes the front of the pool without asking who is direct, and
  `RelayStays` is a run of two events that ends on a relayed exit with a direct peer in
  the pool. `RelayIsNotFallenInto` proves what does hold between direct connections.
- `crates/core/src/config.rs:183-186` and `README.md:112` say `sticky` is ignored for pinned
  servers: by `PinnedIgnoresStickyIff` that is so if and only if there is no fallback. A
  manual pick is remembered even with `sticky` off
  (`crates/p2proxy/src/runtime/discovery/actor.rs:209-221`);
  `NotStickyRemembersPicks` proves that nothing else is.
- `crates/p2proxy/src/tui/ui_state.rs:86-88` puts the view in lock-step with the handles. It
  is not: the network actor tells the view of a closed link before the discovery actor
  hears of it. `ViewTracksTheHandle` gives the exact condition, `ViewRunsAhead` a run.
- `crates/core/src/ports/sticky.rs:30-32` describes `snapshot` as showing the remembered
  pool; on a fingerprint mismatch it is empty, and nothing is dropped
  (`crates/core/src/domain/sticky.rs:111-125`). `SnapshotMirrors` proves that it shows exactly
  the valid pool, `ViewShowsThePool` that this is what the view holds.
- `crates/core/src/domain/connect.rs:280-285` says that when the hub cannot answer, the
  circuit to a peer is raced beside its remembered address, so that a stale one cannot stand
  in the way. That holds for a hub that does not resolve peers at all. If the hub merely fails
  to answer, the circuit is dialled only when nothing is remembered (293-300): by
  `StaleAddressHidesCircuit` a peer that only the circuit reaches is then reached if and only
  if no other address is remembered for it.
- A pinned server without fallback is meant to be confined to its pins. It is exactly
  when its stored pool is within them: rotation consults the pool of pinned ports too
  (`crates/p2proxy/src/runtime/discovery/actor.rs:140-162`) and the fingerprint leaves the pin
  list out (`crates/core/src/config.rs:358-370`). `HardPinExactly` proves both directions.
- `filter_fingerprint` is not injective in general: `FingerprintUniqueIff` gives the
  exact condition and `CityIspCollision` a concrete pair.

## Model

| member | source | states |
|---|---|---|
| Selection.LastP2pCharacterised | crates/core/src/domain/selection.rs:11-18 | the destination of an address is the id of its last `/p2p/` component, with none after it |
| Selection.WithP2pLeadsToPeer | crates/core/src/domain/connect.rs:288-292 | tagging an address makes the peer its destination and keeps it relayed or direct; it fails exactly on an address ending in another id |
| Selection.SynthesizedCircuitTargetsPeer | crates/core/src/domain/circuit.rs:6-12 | the circuit always exists, is relayed, and has the peer as its only dial target: the relay's own id never is one |
| Selection.FromMultiaddrIsValid | crates/core/src/config.rs:260-273 | an entry parses exactly when some `/p2p/` occurs; its peer is the last one; its address leads to that peer and is absent exactly for a bare pin |
| Selection.OnlyTarget | crates/core/src/domain/selection.rs:20-22 | routes that all lead to one peer, and either half of them, have no other dial target |
| Config.FingerprintExact | crates/core/src/config.rs:358-370 | with no hypothesis: two fingerprints agree exactly when port and all coded fields agree and the joined country, city and ISP texts agree |
| Config.FingerprintInjective | crates/core/src/config.rs:354-370 | with no separator in country and city, equal fingerprints mean equal filters and port (absent and empty text alike), whatever the ISP expression holds |
| Config.FingerprintUniqueIff | crates/core/src/config.rs:354-370 | a filter set shares its fingerprint with no other exactly when none of its texts contains the separator |
| Config.CityIspCollision | crates/core/src/config.rs:360-363 | two different filter sets with one fingerprint |
| Config.FingerprintLooksLikeThis | crates/core/src/config.rs:358-370 | the order and spelling of the stored key, on one filter set |
| Backoffs.Backoff.constructor | crates/core/src/domain/backoff.rs:15-22 | the schedule starts with no delay taken and a factor of at least one |
| Backoffs.Backoff.NextDelay | crates/core/src/domain/backoff.rs:24-28 | the k-th delay since start or reset is min(max, initial · factor^k), despite saturation and re-clamping |
| Backoffs.Backoff.Reset | crates/core/src/domain/backoff.rs:30-32 | the schedule starts over |
| Backoffs.NextPower | crates/core/src/domain/backoff.rs:24-28 | a saturating, clamped advance of the k-th delay is the (k+1)-th in closed form |
| Backoffs.DelaysNeverShrink | crates/core/src/domain/backoff.rs:3-5 | for every start, factor and cap the delays never shrink and never pass the cap |
| Sticky.StickyState.Pool | crates/core/src/domain/sticky.rs:43-52 | returns the ids of the valid pool in order; a pool under other filters is dropped, and nothing else changes |
| Sticky.StickyState.DirectAddressOf | crates/core/src/domain/sticky.rs:54-61 | the address remembered for the peer on that port, if any |
| Sticky.StickyState.RememberPeer | crates/core/src/domain/sticky.rs:63-89 | the new store; and the flag is false exactly when the peer was already in front of the valid pool |
| Sticky.StickyState.NoteDirectAddress | crates/core/src/domain/sticky.rs:91-99 | the peer's first entry in every pool gets the address; all else stays |
| Sticky.StickyState.ForgetPeer | crates/core/src/domain/sticky.rs:101-109 | the peer leaves that port's pool, and an emptied pool is dropped |
| Sticky.StickyState.SnapshotOf | crates/core/src/domain/sticky.rs:111-125 | the snapshot of the port's pool, and nothing is dropped; that it is the valid pool with its addresses is `ShownPools.SnapshotMirrors` |
| Sticky.RememberView | crates/core/src/domain/sticky.rs:63-89 | the valid pool after an adoption is the old one with the peer moved to the front and cut to max(1, cap), without duplicates |
| Sticky.ForgetView | crates/core/src/domain/sticky.rs:101-109 | the valid pool after forgetting is the old one without the peer, in order |
| Sticky.ForgetLeavesNoBlank | crates/core/src/domain/sticky.rs:101-109 | no empty pool is left, a pool goes exactly if it held nobody else, and no other port changes |
| Sticky.NoteView | crates/core/src/domain/sticky.rs:91-99 | noting an address changes no pool's members, order or fingerprint |
| Sticky.InvalidateView | crates/core/src/domain/sticky.rs:43-52 | reading a pool leaves its valid view as it was and no stale fingerprint behind |
| StickyLaws.PoolIsRecentHistory | crates/core/src/domain/sticky.rs:63-89 | after any history of adoptions the pool is the first max(1, cap) distinct peers of the history read backwards |
| StickyLaws.InclusionLaw | crates/core/src/domain/sticky.rs:42-109 | two stores under one operation history whose caps are ordered call by call: at every point the smaller one's pools are prefixes of the larger one's |
| StickyLaws.ObservedAddressIsRecalled | crates/core/src/domain/sticky.rs:54-99 | a noted address is the one recalled after any further history in which the peer stays in that port's valid pool and is not noted again |
| NetworkActors.NetworkActor.constructor | crates/p2proxy/src/runtime/network/actor.rs:64-73 | starts with no dial in flight, no strike, and nothing told |
| NetworkActors.NetworkActor.HandleDial | crates/p2proxy/src/runtime/network/actor.rs:165-188 | refuses a dial without targets at once, otherwise hands each address to the swarm and queues the dial with its targets and deadline |
| NetworkActors.NetworkActor.SubmitEach | crates/p2proxy/src/runtime/network/actor.rs:178-182 | the swarm is handed each address once |
| NetworkActors.NetworkActor.CompletePendingDials | crates/p2proxy/src/runtime/network/actor.rs:303-313 | the in-place index walk answers and removes the dials that wait for this peer |
| NetworkActors.NetworkActor.Expire | crates/p2proxy/src/runtime/network/actor.rs:315-326 | the in-place index walk answers nobody to, and removes, the dials whose deadline has passed |
| NetworkActors.NetworkActor.OnEstablished | crates/p2proxy/src/runtime/network/actor.rs:206-233 | settles the dials for the peer, shows the link and its route, and tells the discovery actor unless it is the bootstrap link |
| NetworkActors.NetworkActor.OnClosed | crates/p2proxy/src/runtime/network/actor.rs:234-248 | forgets the peer's strikes, shows the end of the link and tells the discovery actor |
| NetworkActors.NetworkActor.OnPingFailed | crates/p2proxy/src/runtime/network/actor.rs:255-270 | one more strike, or the third one: the peer is torn down and its count forgotten |
| NetworkActors.NetworkActor.Handle | crates/p2proxy/src/runtime/network/actor.rs:204-279 | each input has exactly the specified effect on dials, answers, strikes, teardowns, and what is shown and told of links |
| DialLaws.SweepIsExact | crates/p2proxy/src/runtime/network/actor.rs:303-326 | the swap-remove walk splits the dials, as a multiset, into exactly the settled and the others |
| DialLaws.EveryDialHasItsOutcome | crates/p2proxy/src/runtime/network/actor.rs:165-326 | from any state and over any run, answers sent plus dials left open are exactly one outcome per dial, the one its events dictate |
| DialLaws.VerdictMeaning | crates/p2proxy/src/runtime/network/actor.rs:303-326 | waiting, answered q, answered nobody: each exactly when no event settled the dial, the first one that did was a connection of its candidate q, or was an expiry past its deadline |
| DialLaws.DialAnsweredExactlyOnce | crates/p2proxy/src/runtime/network/actor.rs:165-326 | over any run each dial gets its due answer once and no other, and is in flight exactly while it is due none |
| DialLaws.DialWindow | crates/p2proxy/src/runtime/network/actor.rs:170-326 | over any run a dial none of whose targets connects is in flight until the first look at the clock ten seconds after it began or later, and is answered nobody exactly then |
| DialLaws.AnswersAreCandidates | crates/p2proxy/src/runtime/network/actor.rs:166-169 | whoever answers a dial is a target of its addresses: the dialer contract |
| DialLaws.LinksAreTold | crates/p2proxy/src/runtime/network/actor.rs:178-248 | over any run each end of a link is shown and told once, each start too except the bootstrap one, which is only shown; the swarm is handed exactly the addresses of the dials with a target |
| DialerContracts.QueueIsTheContract | crates/p2proxy/src/runtime/network/actor.rs:165-188 | a dialer keeps the dialer contract if and only if each of its replies is one that some run of the dial queue sends to that dial |
| DialerContracts.ReachThroughQueue | crates/core/src/domain/connect.rs:276-301 | with dials answered by the queue, reaching a peer dials at least once, only its routes, and returns nobody else |
| DialerContracts.PoolThroughQueue | crates/core/src/domain/connect.rs:145-171 | with dials answered by the queue, the exact pool after any discovery-driven connect |
| DialerContracts.ScenarioThroughQueue | crates/p2proxy/src/runtime/network/actor.rs:165-326 | the runs that every run law speaks of are exactly those in worlds whose every dial reply is one that some run of the queue sends |
| DialLaws.StrikesCountConsecutiveFailures | crates/p2proxy/src/runtime/network/actor.rs:236-279 | the strike table is each peer's consecutive ping failures modulo three, and exactly every third one tears the peer down |
| Connects.ConnectCtx.DialAddresses | crates/core/src/domain/connect.rs:329-338 | an empty set is not dialled; an error counts as nobody |
| Connects.ConnectCtx.DialAll | crates/core/src/domain/connect.rs:321-327 | races the direct half, then the relayed half only if nobody answered |
| Connects.ConnectCtx.ResolveRoutes | crates/core/src/domain/connect.rs:306-315 | the hub's routes; circuits when it cannot resolve; none on any other failure |
| Connects.ConnectCtx.TryReachPeer | crates/core/src/domain/connect.rs:286-301 | one attempt at the peer, from the hub's reply to the race; what it dials is `ConnectShapes.ReachShape` |
| Connects.ConnectCtx.ReconnectStickyPeer | crates/core/src/domain/connect.rs:236-247 | three attempts with a backoff delay between them |
| Connects.ConnectCtx.RememberPeer | crates/core/src/domain/connect.rs:340-345 | adopts the peer in the pool exactly when the server is sticky |
| Connects.ConnectCtx.ConnectStickyPool | crates/core/src/domain/connect.rs:251-270 | walks the pool in order, passing over the dropped peer and pruning the unreachable |
| Connects.ConnectCtx.DiscoveryAttempt | crates/core/src/domain/connect.rs:179-214 | one hub query and one race over every candidate's routes, or a 1 s sleep |
| Connects.ConnectCtx.RunDiscovery | crates/core/src/domain/connect.rs:173-232 | up to twenty attempts, then the exhaustion error |
| Connects.ConnectCtx.ConnectByDiscovery | crates/core/src/domain/connect.rs:145-171 | the fight for the dropped peer, then the pool, then discovery |
| Connects.ConnectCtx.AdoptBestPinnedRank | crates/core/src/domain/connect.rs:131-143 | the best rank found connected, or the dialled one |
| Connects.ConnectCtx.TryPinned | crates/core/src/domain/connect.rs:94-110 | one resolve, the rank statuses, and the first rank that connects; what each rank dials is `ConnectShapes.PassShape` |
| Connects.ConnectCtx.ConnectByPins | crates/core/src/domain/connect.rs:86-128 | up to twenty passes with 1 s between them, or the fallback after the first |
| Connects.ConnectCtx.ConnectTo | crates/core/src/domain/connect.rs:74-84 | pinned servers connect by rank, all others by discovery |
| ConnectSpec.ReconnectDelayIsBackoff | crates/core/src/domain/connect.rs:237-243 | the delays slept between attempts are those of the backoff schedule 1 s, factor 2, cap 8 s |
| ConnectShapes.RaceShape | crates/core/src/domain/connect.rs:317-338 | a race, act by act: the routes without a relay are dialled first, all at once; the relayed ones only if there is none of the first or nobody answered; each dial carries the dialer's reply, and the outcome is the last one's |
| ConnectShapes.ReachShape | crates/core/src/domain/connect.rs:286-301 | an attempt at a peer asks the hub about it alone, then races exactly the remembered address tagged with its id and every address the hub gives, or the circuit when there is none of these |
| ConnectShapes.RememberedIsDialled | crates/core/src/domain/connect.rs:288-292 | a remembered address without a relay, unless it ends in another id, is in the first dial, whatever the hub says |
| ConnectShapes.ObservedAddressIsDialled | crates/core/src/domain/connect.rs:288-292 | an observed direct address is dialled after any store history in which the peer stays in the pool and is not observed elsewhere |
| ConnectShapes.StaleAddressHidesCircuit | crates/core/src/domain/connect.rs:280-300 | with a hub that fails to answer, a peer reachable only by circuit is reached if and only if no other address is remembered for it |
| ConnectShapes.RoundShape | crates/core/src/domain/connect.rs:178-214 | a discovery round, act by act: a query for 25 exits; its offer is shown and raced at once, each candidate on its listed addresses or, if it lists none, its circuit; with no offer it ends in a sleep of 1 s |
| ConnectShapes.PassShape | crates/core/src/domain/connect.rs:93-110 | a pass over the pins, act by act: one question about all pins in rank order; a row per pin with its rank, resolvable exactly if it has an address or the hub gave one; each rank up to the winning one raced over exactly its own address and the hub's |
| ConnectShapes.PinAnswersItself | crates/core/src/domain/selection.rs:24-36 | with a hub that resolves nobody, a pin that answers at its own address is the exit of the connect at its rank, if no earlier pin answers or is connected |
| ConnectBeats.FightIsExact | crates/core/src/domain/connect.rs:236-247 | a fight asks for the dropped peer one to three times, sleeping 1 s and then 2 s in between and nothing after; it is lost only after the third |
| ConnectBeats.WalkIsExact | crates/core/src/domain/connect.rs:251-270 | a pool pass asks for the members in pool order, the dropped peer left out, and stops only at one that is reached |
| ConnectBeats.GivesUpExactly | crates/core/src/domain/connect.rs:74-247 | whatever the world answers, a connect that gives up has asked and slept exactly: twenty passes 1 s apart for a hard pin; else one pass if it is pinned, the fight if it fights, each other pool member in order, and twenty queries; its last act shows the error |
| ConnectEffort.RaceDiscipline | crates/core/src/domain/connect.rs:317-338 | no empty set is dialled, and a relayed half only right after its failed direct half or when there is none |
| ConnectEffort.ReachWithin | crates/core/src/domain/connect.rs:286-301 | one attempt at a peer makes one or two dials, whatever the world answers |
| ConnectEffort.DiscoveredEffort | crates/core/src/domain/connect.rs:145-270 | at most 46 + 2·pool dials, 20 hub queries and 23 s of sleep; 40 + 2·pool and 20 s without a fight |
| ConnectEffort.GivesUpLast | crates/core/src/domain/connect.rs:178-231 | discovery fails only after spending all its queries |
| ConnectEffort.HardPinEffort | crates/core/src/domain/connect.rs:93-127 | from any pass on: 2·pinned dials and 1 s per pass left, and no hub query for strangers |
| ConnectEffort.HardPinTotal | crates/core/src/domain/connect.rs:93-127 | a whole hard-pinned connect: at most 40·pinned dials, no hub query for strangers, 20 s of sleep |
| ConnectEffort.FallbackEffort | crates/core/src/domain/connect.rs:112-114 | with fallback: at most 2·pinned + 2·pool + 40 dials, 20 hub queries and 20 s |
| ConnectEffort.ConnectIsDisciplined | crates/core/src/domain/connect.rs:74-338 | every act of every connect obeys the dial discipline and points no destination anywhere |
| ConnectPools.ReachOnlyThatPeer | crates/core/src/domain/connect.rs:276-301 | reaching a peer dials at least once, dials only that peer's routes, and returns nobody else |
| ConnectPools.DishonestHubRedirects | crates/core/src/domain/connect.rs:293-294 | a hub that breaks its contract hands over a stranger |
| ConnectPools.WalkEffect | crates/core/src/domain/connect.rs:251-270 | the pool pass stops at the first reachable member other than the dropped peer, having pruned exactly those before it |
| ConnectPools.FreshPoolEffect | crates/core/src/domain/connect.rs:165-170 | success at pool index i leaves P[i], the dropped peer if it came before, then the members after i, cut; discovery puts its peer before at most the dropped one; failure leaves exactly that remainder |
| ConnectPools.DiscoveredPoolEffect | crates/core/src/domain/connect.rs:145-171 | the exact pool after any discovery-driven connect, with or without a fight; no other port's pool changes |
| ConnectPools.NoStalePool | crates/core/src/domain/connect.rs:260-260 | once a sticky server has been connected through discovery, even in vain, no pool chosen under other filters is left for its port |
| ConnectPools.NotStickyUntouched | crates/core/src/domain/connect.rs:257-259 | without `sticky` the store is untouched and every exit is a discovered one |
| ConnectPools.HardPinUntouched | crates/core/src/domain/connect.rs:86-128 | a hard pin leaves the store untouched; its exit has a rank, its failure counts the pins |
| ConnectPins.RanksBeforeFailed | crates/core/src/domain/connect.rs:97-110 | every rank before the one that connected had no route or lost its race in this very pass |
| ConnectPins.AdoptionIsRecorded | crates/core/src/domain/connect.rs:130-143 | adoption asks the better ranks in order: "not connected" for each one passed, "connected" for the one it settles on |
| ConnectPins.PassWins | crates/core/src/domain/connect.rs:97-110 | the won pass: right peer for its rank, better ranks refused, earlier ranks failed |
| ConnectPins.PinnedSuccess | crates/core/src/domain/connect.rs:86-143 | whenever a pinned rank is returned, some pass of that connect is such a won pass |
| ConnectPins.WalkLeavesNoneOut | crates/core/src/domain/connect.rs:249-270 | each pool member before the reached one was resolved and lost its race |
| ConnectPins.DiscoveredExitJustConnected | crates/core/src/domain/connect.rs:145-232 | an exit from reuse or discovery was dialled and reached as the very last act |
| ConnectSummaries.ConnectSummary | crates/core/src/domain/connect.rs:74-171 | of any connect: the pool gains at most the chosen peer, stays within its cap and distinct; the exit of a discovery-driven sticky server is its front; a reused exit was in the pool; a hard pin returns a pin |
| ConnectSummaries.FallbackPoolEffect | crates/core/src/domain/connect.rs:86-114 | a pinned server with fallback leaves its pool untouched if a rank wins, and otherwise as a discovery does that nobody dropped for |
| DiscoveryActors.DiscoveryActor.constructor | crates/p2proxy/src/runtime/discovery/actor.rs:33-41 | a fresh actor: no cooldown, nothing pending, no direct peer |
| DiscoveryActors.DiscoveryActor.SetDestination | crates/p2proxy/src/runtime/discovery/actor.rs:257-266 | the handle, if there is one, and the shown exit change together |
| DiscoveryActors.DiscoveryActor.ClearDestination | crates/p2proxy/src/runtime/discovery/actor.rs:268-277 | the handle and the shown exit are cleared together |
| DiscoveryActors.DiscoveryActor.EmitStickyPool | crates/p2proxy/src/runtime/discovery/actor.rs:76-83 | shows the valid pool of the port |
| DiscoveryActors.DiscoveryActor.Discover | crates/p2proxy/src/runtime/discovery/actor.rs:43-72 | takes the port off the pending set, connects, shows the pool and sets or clears the exit |
| DiscoveryActors.DiscoveryActor.ClosePortOf | crates/p2proxy/src/runtime/discovery/actor.rs:99-124 | within the cooldown the port is held, otherwise rediscovered at once |
| DiscoveryActors.DiscoveryActor.HoldPort | crates/p2proxy/src/runtime/discovery/actor.rs:107-121 | clears the exit and spawns one timer unless one is already pending |
| DiscoveryActors.DiscoveryActor.RediscoverNow | crates/p2proxy/src/runtime/discovery/actor.rs:123-124 | stamps the cooldown, then selects again with the lost peer named; what that changes is `ClosedSelections.ClosedPeerExactly` |
| DiscoveryActors.DiscoveryActor.HandlePeerClosed | crates/p2proxy/src/runtime/discovery/actor.rs:85-126 | the closed peer is no longer direct, and every port it served is held or rediscovered |
| DiscoveryActors.DiscoveryActor.RotateOffRelayIfBetter | crates/p2proxy/src/runtime/discovery/actor.rs:140-162 | every relay-stuck port whose pool holds the candidate switches to it |
| DiscoveryActors.DiscoveryActor.HandlePeerUnusable | crates/p2proxy/src/runtime/discovery/actor.rs:168-186 | the peer leaves every pool, the ports it served select again, every pool is shown |
| DiscoveryActors.DiscoveryActor.AdoptSpecific | crates/p2proxy/src/runtime/discovery/actor.rs:209-221 | remembers, points and shows, with no regard to `sticky` |
| DiscoveryActors.DiscoveryActor.SelectExit | crates/p2proxy/src/runtime/discovery/actor.rs:225-255 | an operator's pick is adopted if it can be reached; otherwise the exit stays |
| DiscoveryActors.DiscoveryActor.HandleEvent | crates/p2proxy/src/runtime/discovery/actor.rs:286-315 | each event has exactly its specified effect on store, handles, cooldowns, timers and trace |
| Moves.HandleIsMoves | crates/p2proxy/src/runtime/discovery/actor.rs:286-315 | every event is a sequence of elementary moves, each allowed in the state it starts from |
| PoolInvariants.HandleKeepsPools | crates/p2proxy/src/runtime/discovery/actor.rs:43-315 | every event keeps pools distinct, capped and made of initial members and former exits, and exits in front of their pools |
| Histories.HandleKeepsPort | crates/p2proxy/src/runtime/discovery/actor.rs:43-315 | every event keeps the actor's tables in step with what its trace says of a port |
| Histories.HandleKeepsCovered | crates/p2proxy/src/runtime/discovery/actor.rs:85-126 | every event leaves each pending port with a timer or an already queued discovery |
| EventEffects.DirectConnectEffect | crates/p2proxy/src/runtime/discovery/actor.rs:136-162 | a direct connection changes exactly the exits that were relay-stuck on ports whose pool holds the peer, to that peer, which is then the pool's front and shown as reused; every other port keeps its pool and history |
| EventEffects.UnusableNeverReused | crates/p2proxy/src/runtime/discovery/actor.rs:164-186 | a port an unusable peer was serving does not get it back from its sticky pool |
| ExitOrigins.UnusableEffect | crates/p2proxy/src/runtime/discovery/actor.rs:168-186 | after a peer is declared unusable each port it served has had exactly one selection; every other port keeps its exit and history and has its pool without the peer |
| CloseEffects.ClosedPeerEffect | crates/p2proxy/src/runtime/discovery/actor.rs:85-126 | a closed peer: each port it served has one rediscovery started or is held dark and pending; pool, exit, cooldown and history of every other port are untouched |
| ClosedSelections.ClosedPeerExactly | crates/p2proxy/src/runtime/discovery/actor.rs:98-124 | when a port's exit closes: less than 30 s after its last close-triggered rediscovery it goes dark and its wake-up is due exactly when those are over; otherwise a selection starts at once that is told who closed: a server that fights does so first and reuses the peer if and only if it wins it back in three attempts, any other unpinned one never takes it from its pool |
| ClosedSelections.ClosedPeerIsDealtWith | crates/p2proxy/src/runtime/discovery/actor.rs:98-124 | the same in every reachable state |
| ClosedSelections.ClosedPeerIsPassedOver | crates/core/src/domain/connect.rs:251-264 | in every reachable state an unpinned server that does not fight may get the closed peer back only as a discovery |
| CloseEffects.ManualPickEffect | crates/p2proxy/src/runtime/discovery/actor.rs:223-255 | a pick that can be reached becomes the exit and the front of the pool, as manual; one that cannot changes neither and shows an error; no other port is touched |
| ExitOrigins.ConnectOrigin | crates/core/src/domain/connect.rs:74-232 | of any connect: a ranked exit is that rank's peer, a reused one was in the pool or is the dropped peer won back, a discovered one is led to by an offer the hub made in that very connect; there is no other origin |
| ExitOrigins.TargetsExactly | crates/core/src/domain/connect.rs:201-214 | an offer leads to exactly the candidates that list no address and the final peers of the listed ones |
| ExitOrigins.UnusableJustified | crates/p2proxy/src/runtime/discovery/actor.rs:164-186 | after a peer is declared unusable, a port has it only as one of its pins or by an offer the hub made for that port in that handling |
| ExitOrigins.UnusableComesBackByOffer | crates/p2proxy/src/runtime/discovery/event.rs:14-17 | the same in every reachable state |
| Returns.DroppedPeerReturnsIff | crates/core/src/domain/connect.rs:71-128 | for every server: in some contract-keeping world whose hub offers this list, a connect told to avoid the peer discovers it, if and only if the server may discover and the list leads to the peer |
| Returns.FallbackReusesDropped | crates/core/src/domain/connect.rs:112-114 | a pinned sticky server whose ranks fail and whose pool holds the dropped peer reuses exactly that peer |
| Returns.DroppedPeerReusedIff | crates/core/src/domain/connect.rs:71-171 | for every server: some contract-keeping world hands the dropped peer back as a reused exit if and only if an unpinned server fights for it or a pinned one falls back on a pool that holds it |
| UnusablePeers.UnusableReturnsIff | crates/p2proxy/src/runtime/discovery/event.rs:14-17 | for every server: in some contract-keeping run whose hub offers this list, the peer serves the port, is declared unusable, and serves again, if and only if it is a pin of the port, or the port may discover and the list leads to it |
| RelayExits.StaysSettled | crates/p2proxy/src/runtime/discovery/actor.rs:136-162 | a port that is dark, direct, or without a direct pool member stays so through every event that neither selects an exit for it nor is a pick for it nor reports its exit as relayed |
| RelayExits.RelayIsNotFallenInto | crates/p2proxy/src/runtime/discovery/actor.rs:136-162 | over every run a direct connection of a pool member settles the port so, and only a selection, a pick or such a report unsettles it |
| RelayExits.RelayStays | crates/p2proxy/src/runtime/discovery/actor.rs:43-72 | a run of two events after which a port is on a relayed exit with a direct peer in its pool |
| RecalledAddresses.HandleRemembers | crates/p2proxy/src/runtime/discovery/actor.rs:286-315 | every event keeps a pool member's direct address, unless it is a new direct connection of it or the peer is dropped and discovered anew |
| RecalledAddresses.ConnectedIsRecalled | crates/p2proxy/src/runtime/discovery/actor.rs:128-134 | after any direct connection of a peer its address is the one recalled for it on every port whose pool holds it |
| RecalledAddresses.LastObservedIsDialled | crates/p2proxy/src/runtime/discovery/actor.rs:128-134 | over every run the address of a pool member's last direct connection is recalled as long as it stays in the pool and is not discovered anew, and the next attempt at it dials that address at once |
| RecalledAddresses.RecalledWasObserved | crates/core/src/domain/sticky.rs:54-99 | over every run an address recalled for a peer is that of its last direct connection, or, if it had none, the one loaded |
| StickyScopes.PinnedIgnoresStickyIff | crates/core/src/config.rs:183-187 | a pinned server's connect ignores `sticky`, in every contract-keeping world and store, if and only if it has no fallback |
| StickyScopes.NotStickyRemembersPicks | crates/p2proxy/src/runtime/discovery/actor.rs:206-221 | over every run a server with `sticky` off remembers only what its store began with and the operator's picks |
| ReachedExits.ConnectEarned | crates/core/src/domain/connect.rs:74-338 | whatever the world answers, a connect's exit was dialled and reached in that connect, or is a better pin that tested as connected |
| ReachedExits.HandleGrounded | crates/p2proxy/src/runtime/discovery/actor.rs:286-315 | whatever the world answers, every event but a direct connection announces only exits reached while it was handled |
| ReachedExits.ConnectedAnnounces | crates/p2proxy/src/runtime/discovery/actor.rs:140-162 | a direct connection announces nobody but the peer that connected |
| DirectLinks.HandleDirect | crates/p2proxy/src/runtime/discovery/actor.rs:85-309 | one event changes what is known of its own peer's link and of no other |
| DirectLinks.DirectIsReported | crates/p2proxy/src/runtime/discovery/actor.rs:297-309 | over every run a peer counts as directly connected if and only if the last report delivered about it is of a direct connection |
| HardPins.HandleConfined | crates/p2proxy/src/runtime/discovery/actor.rs:43-315 | every event keeps a hard-pinned server's exit and pool within its pins and the operator's picks |
| Runs.ExitIsPoolFront | crates/p2proxy/src/runtime/discovery/actor.rs:43-315 | in every reachable state: a discovery-driven sticky server's exit is the front of its pool under the current fingerprint; every pool is distinct, within its cap, and holds only initial members and former exits |
| Runs.NoThrottledPortAbandoned | crates/p2proxy/src/runtime/discovery/actor.rs:98-122 | over every run and delivery order a pending port has a timer in flight or its discovery queued, a port dark since a throttled close is pending, and timers never exceed selections by more than one |
| Runs.WakeUpSelects | crates/p2proxy/src/runtime/discovery/actor.rs:43-72 | a queued discovery can always be delivered, and then selects for the port, takes it off the pending set and ends its darkness |
| Runs.RequestIsAnswered | crates/p2proxy/src/runtime/discovery/actor.rs:291-294 | a request for a new exit makes one selection and is answered, last of all, with the exit left in the handle; with nobody for an unknown port |
| Runs.ShownIsServed | crates/p2proxy/src/runtime/discovery/actor.rs:257-277 | in every reachable state the destination handle holds the exit last shown for its port |
| Runs.WindowBound | crates/p2proxy/src/runtime/discovery/actor.rs:19-19 | instants 30 s apart: a window of length L holds at most floor(L / 30 s) + 1 |
| Runs.CooldownHolds | crates/p2proxy/src/runtime/discovery/actor.rs:98-124 | over every run close-triggered rediscoveries of a port are 30 s apart, so the window bound holds, and each timer is due no earlier than the cooldown it waits for |
| Runs.HardPinHolds | crates/p2proxy/src/runtime/discovery/actor.rs:140-162 | over every run a hard pin whose stored pool is within its pins serves nobody, a pin, or an operator's pick |
| HardPinExact.StrangerTakesOver | crates/p2proxy/src/runtime/discovery/actor.rs:140-162 | a stranger in the stored pool: a contract-keeping world and a run in which it becomes the exit |
| HardPinExact.HardPinExactly | crates/p2proxy/src/runtime/discovery/actor.rs:140-162 | a hard pin holds in every world and run if and only if the stored pool lies within the pins |
| HardPinExact.OldPoolSurvivesPinning | crates/core/src/config.rs:358-370 | what a server remembered before it was pinned is still its valid pool afterwards |
| RunEffects.RelayIsLastResort | crates/p2proxy/src/runtime/discovery/actor.rs:136-162 | in every reachable state a direct connection leaves each port whose pool held the peer dark or on a peer whose last delivered report is of a direct connection, and the others as they were |
| RunEffects.ClosedPeerIsAttended | crates/p2proxy/src/runtime/discovery/actor.rs:85-126 | in every reachable state a closed peer's ports are rediscovered or held, and no other port changes |
| RunEffects.UnusableIsNotReused | crates/p2proxy/src/runtime/discovery/actor.rs:164-186 | in every reachable state an unusable peer is not reused from the pool by a port it was serving |
| RunEffects.OwnEventsShowTheHandle | crates/p2proxy/src/runtime/discovery/actor.rs:257-277 | in every reachable state the discovery actor's own events, heard alone, would show exactly the peer each handle holds |
| ShownPools.SnapshotMirrors | crates/core/src/domain/sticky.rs:111-125 | the snapshot's rows are the ids of the valid pool, in order, each with exactly the address recalled for that peer |
| ShownPools.HandleSettles | crates/p2proxy/src/runtime/discovery/actor.rs:74-83 | after every event, for every port, what was last shown is exactly the pool with its addresses, or nothing was shown, selected or changed |
| ShownPools.ShownPoolIsThePool | crates/p2proxy/src/runtime/discovery/actor.rs:74-83 | over every run the pool last shown for a port has exactly the members of its valid pool, in order, one is shown once an exit has been selected, and each selection shows the pool it leaves |
| JointRuns.JointIsARun | crates/p2proxy/src/runtime/network/actor.rs:204-248 | with the network actor and the view beside it, the discovery actor's side of any joint run is one of its own runs, so every law of those holds |
| JointRuns.ViewTracksTheHandle | crates/p2proxy/src/tui/ui_state.rs:86-88 | over every joint run and interleaving: the view shows the peer the handle holds, or shows none while the message that this peer is gone awaits the discovery actor; they differ if and only if the peer last announced has disconnected since; what is shown is listed |
| ShownPools.ViewHearsTheActor | crates/p2proxy/src/adapters/channel_sink.rs:18-22 | over every joint run the view hears exactly what the discovery actor emits, in that order |
| ShownPools.ViewShowsThePool | crates/p2proxy/src/tui/mod.rs:687-702 | over every joint run and interleaving the view's sticky pool of a port, shown once an exit has been selected, is exactly the pool the actor remembers |
| JointDials.AnsweredDialHasLink | crates/p2proxy/src/runtime/network/actor.rs:165-326 | with no contract on the dialer: a dial that the run's own queue answers with a peer has that peer as a target, and its link came up after the dial was begun and before the answer |
| JointDials.AnnouncedExitHasLink | crates/p2proxy/src/runtime/discovery/actor.rs:43-255 | every exit that a selection or a pick announces had its link come up during its dial in that very event, or is a pin found connected in it |
| JointDials.EveryExitWasUp | crates/p2proxy/src/runtime/discovery/actor.rs:286-315 | over every joint run whose own network actor answers dials and tests, the peer a handle holds is one whose link the view has heard come up |
| OwnAnswers.StepIsAnswerableIff | crates/p2proxy/src/runtime/network/actor.rs:165-326 | from any joint state a step can be taken with every dial and test answered by that network actor if and only if each dial reply of the step keeps the dialer contract |
| ViewGaps.ViewRunsAhead | crates/p2proxy/src/tui/mod.rs:545-553 | a joint run in which the view shows no exit while the handle holds one |
| ViewGaps.LostEventsAreNotMade | crates/p2proxy/src/adapters/channel_sink.rs:18-22 | with one selection's events dropped, the view shows no exit while one is served and nothing in flight would mend it |
| Tui.Ui.constructor | crates/p2proxy/src/tui/ui_state.rs:111-131 | a blank view |
| Tui.Ui.NotePeerAddress | crates/p2proxy/src/tui/ui_state.rs:164-173 | the known address is replaced exactly when its source does not outrank the new one |
| Tui.Ui.DropPeer | crates/p2proxy/src/tui/mod.rs:528-561 | a disconnected peer leaves peers, counters, addresses, hub pools and active exits |
| Tui.Ui.HandleProtocol | crates/p2proxy/src/tui/mod.rs:600-702 | the view after each protocol event, banner and rank statuses included, and when a pending switch is resolved; what each table then holds is `ViewTables` |
| Tui.Ui.HandleSwarmEvents | crates/p2proxy/src/tui/mod.rs:507-706 | the view after each event, and whether a switch is still shown as under way |
| Tui.Ui.OrderedPoolFor | crates/p2proxy/src/tui/ui_state.rs:140-149 | the rotation pool of the port |
| TuiLaws.TrafficIsAttributed | crates/p2proxy/src/tui/mod.rs:581-599 | over any event sequence totals are the bytes of all sessions, and a peer's counters exactly what its own sessions carried since it last disconnected |
| TuiLaws.PeerTrafficWithinTotals | crates/p2proxy/src/tui/mod.rs:581-599 | over any event sequence the per-peer counters sum to no more than the totals |
| TuiLaws.ActiveIsListed | crates/p2proxy/src/tui/mod.rs:660-668 | over any event sequence every active exit is a row of its port's rotation pool |
| TuiLaws.ViewFollowsTrace | crates/p2proxy/src/tui/mod.rs:651-683 | fed one actor's trace alone, a view's active exit of each port is the one last announced |
| TuiLaws.ActiveIsDue | crates/p2proxy/src/tui/mod.rs:545-683 | over any event sequence the active exit of a port is the one its announcements and its peers' disconnections dictate |
| TuiLaws.ViewIsExact | crates/p2proxy/src/tui/mod.rs:545-683 | over any event sequence the view shows the exit last announced if and only if that peer has not disconnected since, and none otherwise |
| TuiLaws.LiveRouteIsShown | crates/p2proxy/src/tui/ui_state.rs:162-173 | over any event sequence the address shown is the peer's last direct route since it last disconnected, else its last relayed one, else at most a candidate |
| TuiLaws.TopTierIsDirect | crates/p2proxy/src/tui/ui_state.rs:151-160 | the top tier of a rotation pool is exactly the peers with a direct route since they last disconnected |
| ViewTables.ServerPoolExactly | crates/p2proxy/src/tui/mod.rs:528-668 | over any event sequence the hub pool of a port is the ids of the hub's last list in its order, then the exit active at that moment, then those announced since, in order, each once; less every peer that disconnected after its entry |
| ViewTables.ServerPoolUnlisted | crates/p2proxy/src/tui/mod.rs:660-668 | before the hub's first list it is the announced exits that have not disconnected since, in order, each once |
| ViewTables.LastSaidIsShown | crates/p2proxy/src/tui/mod.rs:510-702 | over any event sequence the sticky pool of a port is the ids of the last one shown, its pin rows and the source of its exit are those last announced, and the own id is the one last made known; each absent exactly if there was none |
| ViewTables.PeersExactly | crates/p2proxy/src/tui/mod.rs:517-568 | a peer is listed exactly if it appeared and has not disconnected since |
| ViewTables.SessionsAndBannerExactly | crates/p2proxy/src/tui/mod.rs:517-605 | a session is counted exactly while it lasts; the banner is up exactly if no link came up since an error |
| ViewTables.StatusExactly | crates/p2proxy/src/tui/mod.rs:513-561 | the link status is that of the last link event, or down once the last peer present has disconnected |
| ViewTables.AddressExactly | crates/p2proxy/src/tui/ui_state.rs:151-173 | over any event sequence the address of a peer is its live route, or else the last candidate address offered since it last disconnected, or none; and its tier is exactly the one this dictates |
| ViewTables.PreferredExactly | crates/p2proxy/src/tui/mod.rs:606-626 | the candidate address taken from a hub row is its first one without a relay, or its first one if all have one |
| ViewTables.PendingExactly | crates/p2proxy/src/tui/mod.rs:600-655 | a manual switch is shown as under way until its port's exit is announced or an error is shown |
| ViewTables.MergeExactly | crates/p2proxy/src/tui/ui_state.rs:140-149 | merging the sticky pool into the hub pool appends what is missing, each once, in order |
| TuiLaws.OrderedPoolIsTheStableSort | crates/p2proxy/src/tui/ui_state.rs:133-149 | the rotation pool is the one stable three-tier sort of the hub pool extended by the sticky pool, and distinct exactly when the hub's list is |
| TuiLaws.OrderedPoolMembers | crates/p2proxy/src/tui/ui_state.rs:140-149 | the rotation pool's members are those of the hub pool and the sticky pool |

## Left out

- libp2p's swarm, DCUtR, relay reservation, bootstrap dialing and the hub's RPC: outside the program's own logic; they appear as inputs and contracted answers.
- Bootstrap link flags, SOCKS5 sessions, per-peer stream limits, gRPC authentication, key storage, metrics, logging, the command line and startup: plumbing or easy members.
- File persistence of the store and its last-updated timestamps: a loaded store is only assumed to hold no peer twice in one pool.
- Filter labels, country parsing, requirement checks and the rejection of an empty pin list at startup: small lookups; an empty list behaves as an unpinned server here, as in `pinned`.
- Multiaddr text syntax and cryptographic ids: an address is its sequence of components, an id an abstract value.
- Tui.Ui.HandleSwarmEvents: does not model the samples of the last 30 s that the bandwidth charts draw (wall-clock times and floating-point kilobytes); totals and per-peer counters are exact.
- Tui.Ui.HandleProtocol: does not model the text of the error banner, only whether it is up.
- NetworkActors.NetworkActor.Handle: does not model the bootstrap link flags, whose upkeep depends on libp2p's error details.
- Rendering, animation and key handling in the operator's view, and its own timeout for a switch under way.
- JointDials.EveryExitWasUp: the instants that a joint run's network actor reads for dial deadlines are its own inputs, not tied to the clock of the discovery actor.
- JointRuns.ViewTracksTheHandle: speaks of the moments between two events of the discovery actor, with all that was sent to the view received; between storing a handle and announcing it the view is one announcement behind.
- Error message texts: the emission is modelled, its wording is not.
- Shutdown in the middle of a run, and concurrent readers of a destination handle: a handle is one entry of a map that only the actor writes.
- Standard library list and set calls (`position`, `retain`, `swap_remove`, `partition`, the sort): functions with proved properties rather than loops.
- TuiLaws.PeerTrafficWithinTotals: does not model the 64-bit width of the counters; it shows that no per-peer counter overflows before a total does.
- Runs.NoThrottledPortAbandoned: does not say that a timer fires or a message is delivered in the end, only that one is there to; fairness belongs to the runtime.
- Port numbers are unbounded naturals: their 16-bit width plays no part in any law.

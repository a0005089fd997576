# wsnet: a verified model

wsnet joins nodes through a Hub. A node keeps one protected session with the Hub; streams
run inside it under byte credit, and the Hub bridges a caller's stream to a stream on another
node, possibly through further hops (client, Hub, hop A, Hub, hop B, target). This project
models the parts of wsnet whose guarantees only show over whole runs, and proves them for
every run. `dafny verify dfyconfig.toml` checks everything.

## How the model is laid out

| files | what they model |
|---|---|
| `Limits`, `Clocks`, `Text` | shared constants, the two clocks, the text primitives of the proof header |
| `StreamEngine`, `Reorder` | one stream of the session engine: records sent, credit, queue of events, reassembly |
| `Relay`, `RelayTrace` | the Hub's bridge, and what it hears and does event by event |
| `ExitPump`, `Hop` | the socket pumps of the Hub and of a node, and a hop's two streams with their copy loops |
| `Farewell`, `ExitFarewell`, `HopFarewell` | how a bridge, an exit and a hop end, for which cause, and who is told |
| `Link`, `Path`, `Journey` | one link between two engines, rows of nodes, and the path from client to exit made of the machines above |
| `Wiring`, `Keeping`, `Arrivals` | what a receiver waits for and holds, which records it has, and what becomes of each record over a run |
| `Standstill`, `Delivery`, `Jam` | paths that have come to rest, what a path delivers, and paths on which a record is overtaken |
| `Routing`, `Registry`, `Chain` | chain shape and ACL, the lease registry, and the multi-hop open as a whole |
| `PacketNumbers`, `ReplayWindow`, `SecureChannel` | the lock-free allocator, the recycled bitmap, and both over an unreliable channel |
| `NonceStore`, `NonceRuns` | authentication nonces: the store, and runs with loss and restarts |
| `SignedFields`, `Envelope`, `BindProof`, `BindRegistry` | signing inputs, record framing, the proof header, single-use proofs |
| `UdpTable`, `UdpRuns` | the UDP association table, and what becomes of every datagram |
| `Guard` | connection and authentication budgets |

Code that works step by step is a `class` or a `method` proved against a specification
function; the theorems are about those functions and quantify over every sequence of calls or
of environment moves. An `await` is a nondeterministic next event; a clock reading, the result
of a socket operation, the cipher and the MAC verification are parameters.

## What the environment is asked for

* Clocks (`Clocks.Pairwise`): between any two readings of a run the monotonic clock does not go
  back, and the wall clock advances by at least the whole seconds of monotonic time. `RetentionNeedsSteadyClocks`
  shows that the one-second retention margin needs exactly this.
* The cipher is ideal (`Envelope.Ideal`), and a MAC verifies only for what a key holder signed
  (`BindRegistry.Unforged`).
* Records may be reordered, repeated or lost on every link. `Delivery.DeliveredExactlyWhenNoneRefused`
  asks that none arrives twice, which `ReplayWindow.NeverAgain` provides; only
  `Delivery.StandsStillOnlyWhenJammed` is about a carrier that sends records again, which the
  code has not.
* Each call on a shared structure is one atomic step; a clock is read in that step.
* UDP idle reclaim is stated for calls in time order, where it needs it.

## Where the code does less than its comments say

* The reorder buffer charges its byte budget to the block it is waiting for as well
  (crates/wsnet-stream/src/lib.rs:278-288). Eight full records behind one delayed record use up
  the 128 KiB budget, after which the delayed record is refused every time and the stream
  stands still: `Reorder.DelayedRecordRefused`, with the exact condition in
  `Reorder.AwaitedBlockTaken`, and on whole paths `Jam.OvertakenRecordJamsPath`.
* A record that overruns the byte budget or the budget of 128 blocks is dropped while the session
  stays up (crates/wsnet-session/src/engine.rs:384-397, crates/wsnet-hub/src/hub.rs:860-886). Its
  packet number is registered by then and nothing sends it again, so it is lost even if it would
  fit a moment later: `Reorder.OverrunRecordIsLost` with the inputs `Reorder.TwoBytesOverrun` and
  `Reorder.ManyRecordsOverrun`, and on whole paths `Jam.RefusedOnceIsLost`. A healthy path at
  rest has delivered everything if and only if every record arrived and none was refused:
  `Delivery.DeliveredExactlyWhenNoneRefused`; the guard of a refusal is in
  `Keeping.RefusedExactly` and `Delivery.OnlyBudgetsRefuse`.
* A node honours a pinned service revision only when it is 1
  (crates/wsnet-node/src/inbound.rs:233-242). A Hello that lists a service twice with two
  targets leaves its lease at revision 2, for the second target, while the node dials the first;
  then no pinned open gets through: `Chain.RaisedRevisionIsUnreachable`, with the exact condition
  in `Chain.PinnedDialsExactlyAtRevisionOne` and `Registry.HelloRevision`. Only a peer that was
  not built from a node configuration sends such a Hello, because a configuration with a
  repeated service name is rejected (crates/wsnet-config/src/lib.rs:911-927).
* A pinned revision does not always identify a target: after a second Hello of the same node, or
  a withdrawal, the same number comes back for another one (`Registry.SecondHelloReusesRevision`,
  `Registry.WithdrawnRevisionComesBack`); `Registry.RevisionIdentifiesExactly` says which calls
  cause it.
* The bridge ignores `final_offset`: when a `Fin` overtakes the data it counts, the bridge
  breaks off (`RelayTrace.OvertakenDataBreaksOff`), and exactly then
  (`RelayTrace.BreaksOffExactlyOnLateData`). The exit pumps and the hops tolerate that order.
* A hop that fails resets only the stream it serves; the stream it opened onward is dropped without
  a record (crates/wsnet-node/src/inbound.rs:484-487, crates/wsnet-node/src/stream.rs:280-286), so the
  far side is not told even on a session as good as new: `HopFarewell.FarSideLeftInTheDark`;
  `HopFarewell.HopEndsForACause` says when a hop fails and who is told. The Hub's bridge tells
  both legs: `Farewell.NoLegInTheDark`.
* A data send that fails between two records leaves its first records on the wire while the
  caller's buffer still holds them (crates/wsnet-session/src/engine.rs:541-560), so on that way
  out only "a prefix was sent" holds: `StreamEngine.SendDataKeeps`, `Relay.BridgeEnds`.
* A node's exit offers a chunk whole or not at all (crates/wsnet-node/src/inbound.rs:362-373),
  so its bytes wait beside usable credit: `ExitPump.NodeStallsExactlyWhenCreditIsShort`. It goes
  out once the credit covers a read buffer (`ExitPump.CoveredChunkIsOut`). With a link window
  below the 16 KiB read buffer it could wait for ever, and only then
  (`Journey.EveryChunkFitsExactly`); no caller sets such a window, since every session is built
  with 256 KiB (crates/wsnet-session/src/engine.rs:119), so in the code as it stands it does not
  happen: `Journey.BuiltWindowFitsEveryChunk`.
* Restoring a nonce store forgets a storage-loss hold and does not enforce the caps:
  `NonceRuns.ImageIsSafeExactlyOutsideHold`, `NonceStore.RestoreExceedsCaps`,
  `NonceStore.RestoredWithinCapsExactly`.
* A wall clock one second slow defeats nonce retention: `NonceStore.OneSecondLagDefeatsRetention`,
  with the exact condition in `NonceStore.ReplayAcceptedExactlyWhen`.
* Signing inputs tell fields apart within one schema and below the prefix's range only:
  `SignedFields.SchemasCollide`, `SignedFields.WrappedPrefixCollides`.
* Idle reclaim throws away deliverable datagrams when the idle limit is shorter than the queue
  TTL: `UdpRuns.ShortIdleDiscardsLive`.

## Model

| member | source | states |
|---|---|---|
| StreamEngine.SendDataKeeps | crates/wsnet-session/src/engine.rs:518-562 | a send is all or nothing against credit; it puts exactly the payload on the wire, in contiguous records within the size limit and the peer's limit or, when sealing fails between records, a proper prefix of it |
| StreamEngine.SendDataAnswersExactly | crates/wsnet-session/src/engine.rs:518-562 | a payload is refused exactly beyond the credit, fails exactly without a stream or when the session cannot seal every record it needs, and goes out otherwise |
| StreamEngine.ConsumeAnswersExactly | crates/wsnet-session/src/engine.rs:663-683 | the limit rises to a window past what was consumed, and the peer is told exactly when it rises and the session seals |
| StreamEngine.DispatchKeeps | crates/wsnet-session/src/engine.rs:734-873 | whatever arrives, what is queued was charged to credit first, within what was granted, and nothing else of the leg moves but its limit and its being owned |
| StreamEngine.DispatchTellsExactly | crates/wsnet-session/src/engine.rs:734-873 | message by message: what reaches the owner of the stream, when a limit is raised, and when the stream leaves the engine |
| StreamEngine.DataIsHonest | crates/wsnet-session/src/engine.rs:541-560 | every data record on a leg's wire is a piece of that wire's payload at its offset |
| StreamEngine.ChargeCovers | crates/wsnet-stream/src/lib.rs:364-391 | blocks are charged only in order and within the limit; a batch that is charged whole is charged exactly |
| Reorder.NeighboursDecide | crates/wsnet-stream/src/lib.rs:245-276 | looking at the two nearest blocks decides the same as comparing with every held block |
| Reorder.InsertKeeps | crates/wsnet-stream/src/lib.rs:211-310 | blocks stay disjoint and ahead of the gap, the byte count is exact, both budgets hold, and what is released is contiguous from the awaited offset |
| Reorder.InsertAnswersExactly | crates/wsnet-stream/src/lib.rs:211-310 | for any block, honest or not: each answer comes exactly when its check is the first to fail |
| Reorder.ReleasedIsPrefix | crates/wsnet-stream/src/lib.rs:211-310 | for every order, repetition or loss of an honest sender's blocks, what has been released is a prefix of the stream |
| Reorder.AwaitedBlockTaken | crates/wsnet-stream/src/lib.rs:278-300 | the awaited block is taken if and only if it fits the byte budget beside what is held |
| Reorder.DelayedRecordRefused | crates/wsnet-stream/src/lib.rs:278-288 | however a stream is cut: when records behind a missing one use up the byte budget, it is refused, and no later arrival ever changes the buffer |
| Reorder.EightFullRecordsFill | crates/wsnet-stream/src/lib.rs:278-288 | eight full records do that |
| Reorder.OverrunRecordIsLost | crates/wsnet-stream/src/lib.rs:278-310 | however a stream is cut: a record that overruns a budget while the first is missing is refused, then the first is taken, everything held comes out, and the buffer is empty short of the refused record |
| Reorder.TwoBytesOverrun | crates/wsnet-stream/src/lib.rs:278-288 | ten records, the last of two bytes, do that to the byte budget |
| Reorder.ManyRecordsOverrun | crates/wsnet-stream/src/lib.rs:289-299 | 130 records of one byte do that to the block budget |
| Reorder.ReorderBuffer.InsertOffsets | crates/wsnet-stream/src/lib.rs:211-310 | the in-place buffer does what the specification does and keeps its invariant |
| Reorder.DrainLoop | crates/wsnet-stream/src/lib.rs:300-310 | the drain loop releases the whole contiguous run and counts its bytes |
| Relay.Push | crates/wsnet-hub/src/relay.rs:615-652 | the push loop sends exactly the longest prefix the credit admits and terminates |
| Relay.PushKeeps | crates/wsnet-hub/src/relay.rs:615-652 | sent plus pending is what was there before, and bytes remain only when the limit is reached exactly; when a send breaks, what is on the wire is still a prefix |
| Relay.Pump | crates/wsnet-hub/src/relay.rs:400-606 | the pump loop with its two buffers and flags follows the specified steps over every sequence of moves |
| Relay.BridgeConserves | crates/wsnet-hub/src/relay.rs:400-470 | at every wait of every run, in each direction: forwarded plus buffered equals taken, credit equals forwarded, buffered plus queued fits the window, no send passes the far limit, no byte waits beside usable credit |
| Relay.BridgeEnds | crates/wsnet-hub/src/relay.rs:246-393 | on every way out the open got at most one answer, `Ok` only after the publisher's accepting result and then `Ready`; what was forwarded is a prefix of what was taken, no data after `Fin`, `Fin` covers all bytes taken, at most one reset per leg, no more credit than was forwarded, both mappings released |
| Farewell.EveryoneIsTold | crates/wsnet-hub/src/relay.rs:246-613 | in every run: a peer that resets after the open was answered has its reason passed to the other leg and is not answered; without a reset the bridge ends for late data, both half-closes, a lost session or a leg that cannot carry on, with each leg told as that case asks; before the answer the open is declined as the publisher, its session or the deadline decided, and the publisher let go |
| Farewell.NoLegInTheDark | crates/wsnet-hub/src/relay.rs:593-613 | a bridge that ends after the answer without both half-closes told every leg whose own peer did not reset it, as far as its session still seals |
| Farewell.RefusedAtOnceIsAnswered | crates/wsnet-hub/src/relay.rs:296-337 | an open that cannot be passed on is refused at once, and a publisher stream opened under a taken id is reset |
| RelayTrace.BreaksOffExactlyOnLateData | crates/wsnet-hub/src/relay.rs:505-600 | in every run and on both sides the pump breaks off with a protocol error exactly when data queued behind its own leg's half-close was taken, and then both legs are told |
| RelayTrace.OvertakenDataBreaksOff | crates/wsnet-hub/src/relay.rs:513-522 | a run in which a `Fin` overtakes the bytes it counts and the bridge breaks off |
| RelayTrace.StepAdds | crates/wsnet-hub/src/relay.rs:246-750 | whatever a bridge does on its own, it only adds records and credit to its legs |
| Hop.FlowsKeeps | crates/wsnet-node/src/stream.rs:242-405 | each direction of a hop forwards what it heard in order and is at most two copy buffers ahead with its credit, even when it fails part-way |
| Hop.StepKeeps | crates/wsnet-node/src/inbound.rs:462-490 | both directions of a hop stay in order through every arrival, copy, flush, half-close and failure |
| HopFarewell.HopEndsForACause | crates/wsnet-node/src/inbound.rs:462-490 | in every run a hop ends with both directions half-closed and no reset, or because a peer reset or a leg could carry no more, and then the peer it serves is told |
| HopFarewell.HalfClosesExactly | crates/wsnet-node/src/stream.rs:293-405 | a direction is half-closed exactly when nothing is under way and every final offset heard was reached or the source is gone |
| HopFarewell.FarSideLeftInTheDark | crates/wsnet-node/src/inbound.rs:462-490 | a hop whose caller resets writes nothing on the stream it opened onward, whatever the reason and the windows |
| Link.RecordArrives | crates/wsnet-session/src/engine.rs:853-873 | any record of the sender's wire, again or for the first time, in any order: what the receiver queued stays a prefix of what was sent, and the sender's limit stays within what was granted |
| Path.EndsMeet | crates/wsnet-hub/src/relay.rs:400-652 | for any row of nodes that keep order and only add to their legs: both ways, what arrived at one end is a prefix of what the other sent, and what is under way fits the windows and the nodes' slack |
| Journey.Laws | crates/wsnet-node/src/inbound.rs:307-490 | clients, Hub bridges, hops and exits are such nodes |
| Journey.EndToEnd | crates/wsnet-hub/src/relay.rs:426-495 | over any number of bridges and hops, with records reordered, repeated or lost and sessions failing: the exit wrote a prefix of what the client sent, the client received a prefix of what was read from the target, and bytes in transit are at most the links' windows plus the hops' copy buffers |
| Journey.EveryChunkFitsExactly | crates/wsnet-node/src/inbound.rs:362-400 | on any path, no run leaves a node's exit with a chunk that its link's window can never cover if and only if that window is at least the read buffer |
| Journey.BuiltWindowFitsEveryChunk | crates/wsnet-session/src/engine.rs:104-123 | with the window every session is built with, no run over any bridges and hops does |
| Journey.OversizedChunkWaitsForever | crates/wsnet-node/src/inbound.rs:362-373 | what failing that condition costs: once a node has read a chunk larger than its link's window, no run ever sends any of it |
| Journey.OversizedChunkIsRead | crates/wsnet-node/src/inbound.rs:395-400 | behind any path whose last window is below the read buffer, such a chunk is read at once |
| Path.RunKeeps | crates/wsnet-session/src/engine.rs:734-873 | in every run of any row of such nodes each link stays in order; each receiver waits at a record's start, holds whole records only, hears no half-close that was not sent, and its credit is on the wire |
| Keeping.RefusedExactly | crates/wsnet-stream/src/lib.rs:222-299 | an honest record is refused if and only if the receiver does not have it and it overruns the look-ahead, the byte budget or the block budget |
| Keeping.ArrivalKeeps | crates/wsnet-stream/src/lib.rs:211-310 | an arrival keeps every record the receiver had, adds the one that arrived unless it is refused, and adds no other |
| Keeping.WholeExactlyWhenKept | crates/wsnet-stream/src/lib.rs:300-310 | the whole stream is released if and only if the receiver has every record |
| Arrivals.RunKept | crates/wsnet-session/src/engine.rs:384-397 | in every run of any row of nodes a receiver ends up with exactly the records of which an arrival was not refused |
| Wiring.CarriedExactlyUnlessJammed | crates/wsnet-stream/src/lib.rs:211-310 | had every record been sent again until that changes nothing, the receiver would have the whole stream if and only if the record it waits for is not shut out by the byte budget |
| Standstill.NodeEmpties | crates/wsnet-hub/src/relay.rs:400-652 | a bridge or hop that has nothing left to do, with room ahead, holds nothing, has passed on all it heard and has credited all of it |
| Delivery.DeliveredExactlyWhenTaken | crates/wsnet-hub/src/relay.rs:400-652 | in every run over any bridges and hops that has come to rest with healthy sessions: the exit has written all the client sent if and only if some arrival of every record on every link was taken, the same back to the client, and then no node holds anything |
| Delivery.DeliveredExactlyWhenNoneRefused | crates/wsnet-session/src/engine.rs:384-397 | when no record arrives twice, that is if and only if every record arrived and none was refused |
| Delivery.NothingPastUntaken | crates/wsnet-session/src/engine.rs:853-873 | in every run, at rest or not, nothing comes out at either end past a record of which no arrival was taken |
| Delivery.OnlyBudgetsRefuse | crates/wsnet-stream/src/lib.rs:234-299 | with windows up to the look-ahead, as sessions have, a record is refused if and only if it is new and overruns the byte budget or the block budget |
| Delivery.StandsStillOnlyWhenJammed | crates/wsnet-stream/src/lib.rs:278-288 | were records sent again until that changes nothing, a path at rest would have delivered everything if and only if no reorder buffer on the way is jammed |
| Jam.OvertakenRecordJamsPath | crates/wsnet-stream/src/lib.rs:278-288 | on any path over any bridges and hops: when records that overtake the first fill the byte budget at the first link, the exit writes nothing in any continuation |
| Jam.JammedPathRests | crates/wsnet-stream/src/lib.rs:278-288 | between a client and its exit that path has come to rest |
| Jam.RefusedOnceIsLost | crates/wsnet-session/src/engine.rs:384-397 | on any path: after a record overran a budget and the overtaken one arrived, nothing is jammed and the record would fit, yet in no continuation that does not carry it again does the exit write past it |
| Jam.StuckForGood | crates/wsnet-stream/src/lib.rs:278-288 | on any path, in either direction: past a reorder buffer with its byte budget used up nothing comes out in any run |
| ExitPump.ExitConserves | crates/wsnet-hub/src/dataplane.rs:341-450 | in every run of either pump: what was sent is a prefix of what was read, `Fin` only at end of file with everything sent, no send past the limit; the target got a prefix of what arrived, and the write half was shut only with everything below an announced final offset written |
| ExitPump.ExitWaitsOnlyWhenItMust | crates/wsnet-hub/src/dataplane.rs:363-450 | at every wait read equals sent plus pending, credit equals bytes written, the queue fits the window, and neither half-close nor shutdown is held back |
| ExitPump.Pump.SendSome | crates/wsnet-hub/src/dataplane.rs:453-489 | either way of sending terminates and sends exactly what it specifies within the credit |
| ExitPump.NodeStallsExactlyWhenCreditIsShort | crates/wsnet-node/src/inbound.rs:362-373 | a node sends a pending chunk if and only if the credit covers all of it, and otherwise none of it |
| ExitPump.CoveredChunkIsOut | crates/wsnet-node/src/inbound.rs:362-373 | at a wait with a healthy session and no news of credit queued, nothing is pending once the limit covers a read buffer |
| ExitPump.Pump.Drive | crates/wsnet-hub/src/dataplane.rs:341-450 | the loop follows the specified steps over every sequence of moves |
| ExitFarewell.ExitEndsForACause | crates/wsnet-hub/src/dataplane.rs:341-450 | in every run of either pump an exit is over because its peer reset it, or both directions are done, or the session is gone, or the half-close could not be sent, each without a reset; or because the socket failed, data could not be sent or credit could not be granted, and then the peer is told |
| Routing.CheckChain | crates/wsnet-routing/src/router.rs:231-262 | the loops with their list of nodes seen decide as specified, error by error |
| Routing.ChainRefused | crates/wsnet-routing/src/router.rs:231-262 | each error by its condition on the whole list: too long, the first faulty hop is no slug or the caller, a repetition, the destination among the hops |
| Routing.ChainAccepted | crates/wsnet-routing/src/router.rs:231-262 | a chain is accepted if and only if it has at most four hops, all slugs, all distinct, without the caller and the destination's node |
| Routing.TailWellShaped | crates/wsnet-routing/src/router.rs:231-262 | what is left of a well-shaped chain is well shaped for the hop that carries it on |
| Routing.RuleMatches | crates/wsnet-routing/src/acl.rs:175-207 | a rule is passed over exactly when it names another caller or action or states a node, service, port, protocol or network that the query does not meet |
| Routing.CheckAcl | crates/wsnet-routing/src/acl.rs:157-173 | the loop allows exactly when some matching rule allows and no rule before it matches |
| Routing.DenyAhead | crates/wsnet-routing/src/acl.rs:157-173 | a deny put first takes exactly the queries it matches away from what the table allowed |
| Registry.Registry.Publish | crates/wsnet-registry/src/lib.rs:221-265 | only the owning session publishes; the lease is filed under its own node with the revision kept for the same target and protocol and raised otherwise, and everything else stays as it is |
| Registry.RunFiled | crates/wsnet-registry/src/lib.rs:172-289 | in every run of calls each lease is filed under the node and name it belongs to |
| Registry.SupersededIsPowerless | crates/wsnet-registry/src/lib.rs:162-289 | whatever superseded sessions call, in any order and among calls about other nodes, leaves a node and its services as they are |
| Registry.RevisionIdentifiesExactly | crates/wsnet-registry/src/lib.rs:172-289 | in every run without a registration of the node and without an unregistration or withdrawal by its owner, a revision identifies its target and protocol, and it goes on doing so after exactly the calls that are none of these |
| Registry.SecondHelloReusesRevision | crates/wsnet-hub/src/hub.rs:1057-1085 | two Hellos of one node with different targets both leave revision 1 |
| Registry.WithdrawnRevisionComesBack | crates/wsnet-registry/src/lib.rs:221-289 | a service withdrawn and published again for another target has revision 1 both times |
| Registry.HelloRevision | crates/wsnet-hub/src/hub.rs:1057-1085 | after a Hello a service's lease comes from one of its offers, and its revision is 1 if and only if all offers of its name agree |
| Registry.HelloKeepsLast | crates/wsnet-hub/src/hub.rs:1057-1085 | after a Hello the lease of a name belongs to the sender and carries the target and protocol of its last acceptable offer under that name |
| Chain.CheckHops | crates/wsnet-hub/src/hub.rs:1239-1256 | the loop over hops passes exactly when every hop is allowed to relay and the caller may use it |
| Chain.TripStaysOnRoute | crates/wsnet-hub/src/relay.rs:139-215 | every open terminates: hops are visited in `via` order, the destination is unchanged, the remaining chain shrinks by one per visit, and only the right exit dials |
| Chain.NoHopTwice | crates/wsnet-node/src/hub.rs:599-715 | no node is visited twice on any trip |
| Chain.ShapeRefusedAtOnce | crates/wsnet-hub/src/hub.rs:1185-1200 | a chain accepted at the first edge is never refused later for its shape; a badly shaped one goes nowhere |
| Chain.EdgeDecided | crates/wsnet-hub/src/hub.rs:1185-1311 | the Hub's decision on one edge, both ways, in terms of the first rule that covers the target and each hop, the relay switch, lease and liveness |
| Chain.DialsExactlyWhenPermitted | crates/wsnet-node/src/inbound.rs:146-279 | a trip dials if and only if on every edge the first covering rules allow the target and each hop left for the node before it and the lease holds, every hop is online, every intermediate hop consents and the exit's own list or policy has the target |
| Chain.DialsWhatWasAsked | crates/wsnet-node/src/inbound.rs:146-279 | whatever is dialled is the address of the destination itself, or the target the named node lists first under the service name |
| Chain.DialsExactly | crates/wsnet-hub/src/hub.rs:1185-1311 | a trip ends in a given dial if and only if it is permitted, the exit is the one the chain and destination name, and the target is what the destination stands for |
| Chain.HubRefusesExactly | crates/wsnet-hub/src/hub.rs:1185-1256 | each early refusal comes exactly when its check is the first to fail: destination, chain, ACL on the target, and the first hop that may not relay or may not be used |
| Chain.LastChecksRefuseExactly | crates/wsnet-hub/src/hub.rs:1257-1311 | past those, each remaining refusal exactly: no lease, another protocol, another revision, next node offline |
| Chain.NodeAnswersExactly | crates/wsnet-node/src/inbound.rs:146-279 | a node hands an open on exactly if it is not the exit and consents to forward; as the exit each refusal says what its own list or policy lacks |
| Chain.PinnedDialsExactlyAtRevisionOne | crates/wsnet-node/src/inbound.rs:230-245 | a pinned open dials if and only if the same open without a pin dials, the pin is 1, and the lease is at its first revision |
| Chain.RaisedRevisionIsUnreachable | crates/wsnet-hub/src/hub.rs:1185-1311 | a node that announces its own list with a service twice and two targets: the Hub's lease names the second at revision 2, an open pinned to 2 is authorised and declined by the node, one pinned to 1 is refused by the Hub, and one without a pin dials the first |
| PacketNumbers.NextKeeps | crates/wsnet-crypto/src/packet_no.rs:111-167 | every atomic step of any thread keeps the invariant and never lowers the counter |
| PacketNumbers.AllocatorIsSafe | crates/wsnet-crypto/src/packet_no.rs:111-167 | under every interleaving, stale load and spurious failure, numbers are handed out strictly increasing, at most the ceiling, and never after `allocate` reported exhaustion |
| PacketNumbers.AnswersAreHonest | crates/wsnet-crypto/src/packet_no.rs:111-167 | under every interleaving: a reservation is granted its own number only and refused for reuse only below the counter; exhaustion is reported only when it is so |
| PacketNumbers.AloneAnswersExactly | crates/wsnet-crypto/src/packet_no.rs:111-167 | a call no other thread disturbs hands out the next number or the wished one, or names exactly why not |
| PacketNumbers.AllocateLeavesNoGaps | crates/wsnet-crypto/src/packet_no.rs:111-135 | with `allocate` alone the numbers are 0, 1, 2, ... |
| ReplayWindow.Window.CheckAndRecord | crates/wsnet-auth-store/src/replay.rs:90-134 | the recycled bitmap decides every number as the unbounded set and high-water mark do, and a refusal changes nothing |
| ReplayWindow.Window.Slide | crates/wsnet-auth-store/src/replay.rs:100-122 | clearing the skipped slots, or all of them, makes their reuse safe |
| ReplayWindow.Filter | crates/wsnet-auth-store/src/replay.rs:90-134 | over any sequence of numbers the bitmap's verdicts are the unbounded set's, and no number is accepted twice |
| ReplayWindow.NeverAgain | crates/wsnet-auth-store/src/replay.rs:90-134 | what was accepted once is refused for the rest of any run |
| ReplayWindow.VerdictsExactly | crates/wsnet-auth-store/src/replay.rs:90-134 | each verdict of a run in terms of the numbers accepted before it: too old, duplicate or accepted |
| SecureChannel.AcceptedAtMostOnce | crates/wsnet-auth-store/src/replay.rs:90-134 | with arbitrary reordering, duplication and loss each sealed record is accepted at most once |
| SecureChannel.InFlightBoundSuffices | crates/wsnet-limits/src/lib.rs:84-91 | within the configured in-flight bound no first arrival is ever refused |
| SecureChannel.WindowIsTheExactPace | crates/wsnet-limits/src/lib.rs:80-91 | an in-flight bound keeps first arrivals safe in every run if and only if it is within the window |
| Clocks.RetentionNeedsSteadyClocks | crates/wsnet-auth-store/src/nonce.rs:290-294 | what is forgotten is past its acceptance, for every deadline, if and only if the wall clock kept up with the whole monotonic seconds |
| NonceStore.Store.Register | crates/wsnet-auth-store/src/nonce.rs:231-306 | the registration in place follows the specification, errors in their order, and keeps the per-node index exact |
| NonceStore.Store.PurgeExpired | crates/wsnet-auth-store/src/nonce.rs:308-333 | purging removes exactly the expired records, keeps the index exact and counts what it removed |
| NonceStore.CensusRemove | crates/wsnet-auth-store/src/nonce.rs:315-327 | decrementing, or removing at one, is exactly the index without the record |
| NonceStore.Store.MarkStorageLost | crates/wsnet-auth-store/src/nonce.rs:339-344 | everything is forgotten and the hold of twice the window plus the margin begins |
| NonceStore.Store.Snapshot | crates/wsnet-auth-store/src/nonce.rs:348-353 | the list holds every record once with its last acceptable second |
| NonceStore.Store.Restore | crates/wsnet-auth-store/src/nonce.rs:357-380 | from a list without repeated keys the unexpired records and their index are rebuilt exactly |
| NonceStore.RegisterKeeps | crates/wsnet-auth-store/src/nonce.rs:265-306 | no call exceeds a cap, and none, refused or not, drops an unexpired record |
| NonceStore.RegisterAnswersExactly | crates/wsnet-auth-store/src/nonce.rs:231-306 | each answer comes exactly when its check is the first to fail: window, rollback, hold, the record itself, the store, the node |
| NonceStore.RegisterLeavesExactly | crates/wsnet-auth-store/src/nonce.rs:245-306 | a refusal before the purge changes no record, after it exactly the past records are gone, and a registration is retained until one second past its last acceptable one |
| NonceStore.LossLeavesExactly | crates/wsnet-auth-store/src/nonce.rs:339-344 | a loss leaves no record and a hold of twice the window and ten seconds |
| NonceStore.RestoreBringsBackExactly | crates/wsnet-auth-store/src/nonce.rs:348-380 | a snapshot restored later brings back exactly the records that are not past, with their deadlines rebuilt |
| NonceStore.ReplayAcceptedExactlyWhen | crates/wsnet-auth-store/src/nonce.rs:231-306 | whatever else the store holds, a registered pair is registered a second time if and only if the monotonic clock has passed its retention, it is in the window, the wall clock is within the rollback tolerance, and there is room |
| NonceStore.RestoredWithinCapsExactly | crates/wsnet-auth-store/src/nonce.rs:357-380 | a restored store is within the caps if and only if the unexpired rows of its image are |
| NonceStore.RestoreExceedsCaps | crates/wsnet-auth-store/src/nonce.rs:357-380 | two rows restored under caps of one exceed them |
| NonceStore.OneSecondLagDefeatsRetention | crates/wsnet-auth-store/src/nonce.rs:290-294 | a wall clock one second slow lets a pair in twice |
| NonceRuns.RegisteredAtMostOnce | crates/wsnet-auth-store/src/nonce.rs:231-380 | in every run of registrations, purges, storage losses, snapshots outside a hold and restarts, with every reading following all before it in its boot, no pair is registered twice and no cap is exceeded |
| NonceRuns.RollbackSeenExactly | crates/wsnet-auth-store/src/nonce.rs:251-263 | in every run, clocks moving back included: the remembered wall reading is one shown in this boot and the highest of them, and a registration in its window is refused for rollback exactly when an earlier reading lies ahead by more than the tolerance |
| NonceRuns.HoldShields | crates/wsnet-auth-store/src/nonce.rs:339-344 | the hold outlasts every timestamp accepted before the loss |
| NonceRuns.ImageIsSafeExactlyOutsideHold | crates/wsnet-auth-store/src/nonce.rs:339-380 | from any state of a run: a restart from an image taken now keeps every registered pair out, at every later reading, if and only if there is no hold or every pair is already past |
| NonceRuns.HoldWithLivePair | crates/wsnet-auth-store/src/nonce.rs:339-344 | a run that reaches a hold with a pair that is not yet past |
| SignedFields.EncodingIsInjective | crates/wsnet-crypto/src/mac.rs:36-70 | within one schema and below the prefix's range the bytes determine the fields |
| SignedFields.WrappedPrefixCollides | crates/wsnet-crypto/src/mac.rs:36-43 | at the prefix's range two different field lists share their bytes |
| SignedFields.SchemasCollide | crates/wsnet-crypto/src/mac.rs:49-70 | an integer field and an empty text field share their bytes |
| SignedFields.Build | crates/wsnet-crypto/src/mac.rs:30-52 | pushing the fields one after another builds the encoding |
| SignedFields.BigEndianAt | crates/wsnet-crypto/src/mac.rs:36-52 | integers are written most significant byte first |
| Envelope.BuildAad | crates/wsnet-crypto/src/envelope.rs:81-99 | appending field by field builds the associated data |
| Envelope.AadLayout | crates/wsnet-crypto/src/envelope.rs:81-99 | the associated data byte by byte: domain, version, Hub, session, epoch and direction, each behind its two-byte length |
| Envelope.NonceLayout | crates/wsnet-crypto/src/envelope.rs:102-106 | four zero bytes, then the packet number, most significant byte first |
| Envelope.AadIsInjective | crates/wsnet-crypto/src/envelope.rs:81-99 | two contexts share associated data if and only if hub, session, epoch and direction agree |
| Envelope.NonceIsInjective | crates/wsnet-crypto/src/envelope.rs:102-106 | no two packet numbers share a nonce |
| Envelope.OpensExactlyInPlace | crates/wsnet-crypto/src/envelope.rs:117-204 | a sealed record opens if and only if key, hub, session, epoch and direction agree, and then to its number and plaintext |
| Envelope.OnlySealsOpen | crates/wsnet-crypto/src/envelope.rs:164-204 | whatever opens is, byte for byte, the seal of what it opens to |
| Envelope.OpenRefusesExactly | crates/wsnet-crypto/src/envelope.rs:159-204 | a record fails to open exactly for being too short, of another version, of another epoch, or no seal for this place, in that order |
| BindProof.Parse | crates/wsnet-hub/src/bind.rs:178-226 | the slot-filling loop reads as specified, first error first |
| BindProof.ParsesExactlyWhatItSays | crates/wsnet-hub/src/bind.rs:178-226 | a header parses to a proof if and only if every part is readable, no field but the version repeats, and the fields say that proof |
| BindProof.PartReadsExactly | crates/wsnet-hub/src/bind.rs:178-226 | what one part of a header says, by its key and its trimmed value |
| BindProof.FaultsExactly | crates/wsnet-hub/src/bind.rs:178-226 | a header gets the error of its first part that is unreadable or repeats a field |
| BindProof.GapsExactly | crates/wsnet-hub/src/bind.rs:178-226 | a readable header without repeats gets the error of the first field it leaves out |
| BindProof.RoundTrip | crates/wsnet-hub/src/bind.rs:154-226 | parsing an encoded proof gives the proof, negative expiries included |
| BindProof.ParsedIsValid | crates/wsnet-hub/src/bind.rs:178-249 | whatever parses has the right widths and re-encodes to a header with the same meaning |
| BindProof.SigningInputIsInjective | crates/wsnet-hub/src/bind.rs:98-118 | two targets share a signing input if and only if they agree but for negative expiries |
| BindProof.BuildSigningInput | crates/wsnet-hub/src/bind.rs:98-118 | the builder's output is the encoding of the target's fields |
| BindProof.NamesInTurn | crates/wsnet-hub/src/bind.rs:98-118 | the nine field names in the order in which they are signed |
| BindRegistry.Registry.Claim | crates/wsnet-hub/src/bind.rs:287-310 | the claim in place follows the specification, pruning on its budget or when full |
| BindRegistry.ClaimLeavesExactly | crates/wsnet-hub/src/bind.rs:287-320 | a claim drops records only when a prune is due, and then exactly the past ones; one that succeeds is retained until one second past its expiry |
| BindRegistry.VerifyBinding | crates/wsnet-hub/src/hub.rs:802-853 | the checks in the code's order do what the specification does, and the nonce is claimed only after the MAC |
| BindRegistry.AcceptedExactly | crates/wsnet-hub/src/hub.rs:802-853 | a request is accepted if and only if its header says a proof of an open session, the expiry is not past, not after the session's and at most 30 seconds ahead, the MAC verifies for this very request, and the nonce is new or was pruned and there is room |
| BindRegistry.RefusedExactly | crates/wsnet-hub/src/hub.rs:802-853 | each refusal comes exactly when its check is the first to fail |
| BindRegistry.AcceptedWasSigned | crates/wsnet-hub/src/hub.rs:830-853 | an accepted request is, field by field, one that a holder of the session's key signed |
| BindRegistry.AcceptedAtMostOnce | crates/wsnet-hub/src/bind.rs:287-320 | in every run whose readings follow one another pairwise no nonce and expiry are accepted twice, and at most the maximum is held |
| BindRegistry.SteadyIsPairwise | crates/wsnet-hub/src/bind.rs:287-310 | remembering the last reading and the largest lead checks each reading against all before it |
| BindRegistry.RefusalIsJustified | crates/wsnet-hub/src/bind.rs:293-320 | a refusal for reuse means the nonce was used or the registry is full of unexpired records, and drops none of them |
| UdpTable.Table.Enqueue | crates/wsnet-forward/src/udp.rs:190-224 | an arriving datagram is queued or dropped as specified, reclaiming only under pressure |
| UdpTable.EnqueueAnswersExactly | crates/wsnet-forward/src/udp.rs:190-224 | each answer comes exactly when its check is the first to fail: size, room for the source after reclaiming, room in its queue |
| UdpTable.EnqueueLeavesExactly | crates/wsnet-forward/src/udp.rs:190-224 | a queued datagram stands last in its source's queue with its time, a refused one is counted, and other sources keep theirs unless a full table cleared idle ones |
| UdpTable.Table.PopReady | crates/wsnet-forward/src/udp.rs:226-249 | the loop skips expired datagrams and returns the oldest valid one |
| UdpTable.PopReturnsExactly | crates/wsnet-forward/src/udp.rs:226-249 | exactly the datagrams past their TTL at the front are skipped, and the first that is not is returned |
| UdpTable.Table.Sweep | crates/wsnet-forward/src/udp.rs:251-271 | expired datagrams go everywhere, then idle associations |
| UdpTable.SweepLeavesExactly | crates/wsnet-forward/src/udp.rs:251-286 | exactly the sources heard of within the idle limit are left, each with exactly its datagrams within their TTL, and the loss is counted |
| UdpTable.Table.ReclaimIdle | crates/wsnet-forward/src/udp.rs:273-286 | exactly the idle associations are removed |
| UdpRuns.EveryDatagramAccounted | crates/wsnet-forward/src/udp.rs:190-288 | in every reachable table counts and bytes are exact and within limits; each accepted datagram has one fate; deliveries are an in-order subsequence, none past its TTL; accepted equals delivered plus expired plus queued plus discarded; idle reclaim discards only expired ones when the TTL is no longer than the idle limit |
| UdpRuns.LedgerRecordsReturn | crates/wsnet-forward/src/udp.rs:226-249 | what is recorded as delivered is what the call returned |
| UdpRuns.ShortIdleDiscardsLive | crates/wsnet-forward/src/udp.rs:273-286 | with a shorter idle limit a deliverable datagram is discarded |
| Guard.WindowBound | crates/wsnet-hub/src/guard.rs:75-92 | for every sequence of clock readings, in order or not: between any two calls allowed attempts number at most the burst plus the rate times the time the readings went forward |
| Guard.OrderedWindowBound | crates/wsnet-hub/src/guard.rs:75-92 | for readings in time order that is the elapsed time |
| Guard.AllowedExactlyWithinEveryWindow | crates/wsnet-hub/src/guard.rs:75-92 | a call is allowed if and only if every window ending at it has room: the bucket never refuses without need |
| Guard.DosGuards.SpendAuthToken | crates/wsnet-hub/src/guard.rs:75-92 | each source's bucket is what its own calls left, whatever other sources do |
| Guard.DosGuards.BeginUnauthenticated | crates/wsnet-hub/src/guard.rs:57-72 | a connection is charged exactly while fewer than the cap are live, and charges equal live guards |
| Guard.DosGuards.Release | crates/wsnet-hub/src/guard.rs:113-122 | dropping a guard returns its charge and leaves no empty entry |

## Left out

- Relay.BridgeConserves: records that arrive while a turn of the pump runs are modelled as arriving before or after it, because every engine call takes the session lock and no property stated depends on the moment in between.
- Journey.EndToEnd: the client is any owner of its stream that half-closes once and credits what it takes; all nodes of a path exist from the start, and both ends of a link run with the same flow window.
- Delivery.DeliveredExactlyWhenTaken: covers paths none of whose nodes is over, with windows of at least the read buffer; how a path ends is in Relay.BridgeEnds and ExitPump.ExitConserves.
- Hop.StepKeeps: the copy loop's buffer size is the runtime library's, and its scheduling is left open: absorbing, copying, flushing and failing happen in any order.
- NonceRuns.RegisteredAtMostOnce: pairs registered after the last snapshot are not covered across a restart, because the code does not remember them.
- BindProof.RoundTrip: strings are sequences of characters; UTF-8 encoding is not modelled.
- Guard.WindowBound: tokens are thousandths, so the rounding of the `f64` bucket is not modelled.
- Relay.BridgeEnds: the engine entry of an open whose session died while the `Open` record was being sent stays behind, as in the code; resets the Hub sends for records of unknown streams are not the bridge's and are not modelled.
- Offsets, packet lengths and wall seconds are unbounded; overflow near 2^63 or 2^64 is modelled only for packet numbers, monotonic deadlines and length prefixes.
- Splitting `host:port`, reading address literals and CIDR blocks: the model takes their results as configuration.
- The exits' DNS resolution, egress policy and dialling: I/O and address tables.
- The async runtime, sockets, HTTP, SSE and WebSocket carriers, POST batching, the CLI and configuration.
- Key derivation, HMAC and the cipher themselves: ideal functions.
- `UdpForwardListener`, datagram routes of a session stream and `HealthTracker`: wake-up bookkeeping and one-branch rules.
- Router rules, peer lists and the operation table: mostly one-branch decisions.

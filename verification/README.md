# A verified model of the MPC service layer

The service lets a group of peers run round-based threshold protocols, FROST key generation and
signing, over an asynchronous network. This project models its distributed core in Dafny and proves
what that core is for.

- `Execution.dfy`, `ExecutionStreams.dfy`: the protocol execution. Broadcasts arrive in any order; the execution hands the
  protocol whole blocks in number order.
- `Echo.dfy`, `EchoOrder.dfy`, `EchoGadget.dfy`, `EchoEnd.dfy`: the echo gadget. It groups the n payloads of a
  broadcast number, hashes them in sender order, acknowledges with the hash, and accepts a round
  when n - 1 acknowledgements match.
- `EchoNetwork.dfy`: n executions and gadgets with copies, acknowledgements and replies in flight, as
  a step system. Senders may give any copies to anyone, several to one recipient, and any numbers.
- `EchoRefinement.dfy`: what executions and gadgets do is what that step system does.
- `EchoChannel.dfy`: room in the channels from the execution to the protocol and to the gadget.
- `Cbor.dfy`: data items of RFC 8949, whose self-delimiting form is what makes the concatenated
  hash input unambiguous.
- `Signing.dfy`, `SigningOutcome.dfy`, `SigningOrder.dfy`, `Dkg.dfy`, `DkgOutcome.dfy`, `DkgOrder.dfy`: the
  collection loops of signing and of key generation, with their deferral of early messages.
- `Peers.dfy`, `Identifiers.dfy`: session indices, key-share identifiers and peer ids.
- `SigningAgreement.dfy`: the layers together, from the wire to the signing package.
- `Scheduler.dfy`, `Worker.dfy`: the room scheduler, per room and as the event loop over its tables.
- `Pipeline.dfy`, `PipelineOrder.dfy`, `PipelineFilter.dfy`, `PipelineOrigin.dfy`, `PipelineRuns.dfy`,
  `PipelineChannels.dfy`: a session's way through Phase 1, Phase 2 and the receiver proxy.
- `Negotiation.dfy`: how the proposer assembles a peer set.
- `Varint.dfy`, `PeersetCodec.dfy`, `StartCodec.dfy`, `RequestCodec.dfy`: the wire formats.
- `Basics.dfy`, `Messages.dfy`: shared types.

Where the source updates objects or loops over mutable variables, the model has a class or a method
with a loop, proved equal to a specification function. The theorems about that function are then
lemmas over all inputs, all runs or all reachable states.

Hypotheses are stated in the contracts:

- at least two parties, because the forwarding loop never ends for one;
- an injective hash, where equal hashes must mean equal bytes;
- a base58 text form that reads back, for identifier mapping;
- signature shares that do not parse as commitments, for order independence of signing;
  `SigningOrder.SwapIff` shows that exactly this is needed;
- for signing agreement, that the two signers compared follow the signing program: their first
  broadcast is their commitment, their second is made after the first loop has finished, and they
  send no other copies; nothing is assumed about the rest, except that nobody sends direct messages,
  which signing reads without their being echoed (`SigningAgreement.DirectMessageWins`; the exact
  condition for any streams is `SigningAgreement.SameMapIff`);
- in-order arrival per sender, for the channel bounds; `EchoChannel.EveryPollFitsIff` gives the exact
  condition and `Execution.OutOfOrderOverflows` an input outside it;
- no local request taken while a room drains, for the scheduler; `Scheduler.LocalKeepsOrderIff` gives
  the exact condition and `Scheduler.DrainingIsReached` a run that leads there;
- at most 65536 peers, where a session index must fit 16 bits;
- encodings that fit the buffered writer, whose capacity is a parameter, because the encoders return
  only what is still in its buffer.

Three facts about the code that the model keeps. The second receive loop of a round
(`crates/client/service/src/echo.rs:99-117`) never receives, since a ready group is already full. A
peer set larger than the writer's buffer is encoded as its tail only, and a start message frames that
tail with its own length and may again lose its front. A request that arrives between the end of an
execution and the end of its proxy does not wait: it is refused, or gets a Phase-1 future that nothing
is ever sent to.

## Model

| member | source | states |
|---|---|---|
| Cbor.ItemsPrefixFree | crates/client/service/src/echo.rs:143 | no CBOR data item is a proper prefix of another (section 3 of RFC 8949): two items with any continuations that give the same bytes are equal, and so are the continuations |
| Cbor.ConcatInjective | crates/client/service/src/echo.rs:135-150 | unique decodability: what the echo hashes, payloads one after the other with nothing between, determines the whole vector of payloads when each is one data item |
| Cbor.BareConcatenationIsAmbiguous | crates/client/service/src/echo.rs:143 | without that hypothesis the hashed bytes do not determine the vector: a concrete pair of different vectors |
| Cbor.ConcatEqualIffLengthsAgree | crates/client/service/src/echo.rs:143 | for arbitrary payloads, equal concatenations mean equal vectors if and only if the payload lengths agree position by position |
| Cbor.RoundTrip | crates/tss/src/keysign.rs:234 | a payload of bytes encoded for broadcast decodes to itself |
| Cbor.EncodedIsItem | crates/tss/src/keygen.rs:212 | every body a party broadcasts is exactly one data item |
| Cbor.EncodedBytes | crates/tss/src/keysign.rs:234 | the exact bytes of a body of less than 65536 bytes: the shortest array head of its length, then each byte, with 0x18 in front from 24 on |
| Cbor.DecodedIsItem | crates/tss/src/keysign.rs:296 | every body a party decodes successfully is exactly one data item |
| Execution.ReadyIffComplete | crates/client/service/src/execution.rs:366-377 | counting n - 1 buffered senders of a broadcast is the same as having every remote, and the ready senders are then the remotes in ascending order |
| Execution.AcceptKeepsUp | crates/client/service/src/execution.rs:268-287 | a broadcast that is taken in, new, repeated or different from an earlier copy, leaves the stream handed out equal to the complete blocks of what has arrived, where a later copy replaces an earlier one until its block is handed out |
| Execution.DeliveryConfluence | crates/client/service/src/execution.rs:359-404 | for every arrival order, with duplicates that carry equal payloads, the stream handed out is exactly blocks 0..K-1 of what arrived, each with all n - 1 remotes in ascending order, K being the first incomplete block |
| Execution.SameArrivalsSameStream | crates/client/service/src/execution.rs:359-404 | two arrival orders of the same broadcasts give the protocol the same stream |
| Execution.WithoutShrinks | crates/client/service/src/execution.rs:366-403 | an iteration of the forwarding loop shrinks the buffer, so the loop ends; n >= 2 is needed |
| Execution.SinglePartyNeverLeaves | crates/client/service/src/execution.rs:375-377 | for n = 1 the exit test of that loop fails at every block number |
| Execution.ChannelBound | crates/client/service/src/execution.rs:74-75 | if each sender's broadcasts arrive in number order, no poll hands out more than n - 1 messages |
| Execution.PollFitsChannelIff | crates/client/service/src/execution.rs:366-403 | taking in one broadcast hands out at most n - 1 messages if and only if it does not complete two blocks at once |
| Execution.WholePollFitsIff | crates/client/service/src/execution.rs:148-287 | the same for a whole poll with any outgoing message and any incoming one, direct or broadcast, of whatever session |
| Execution.OutOfOrderOverflows | crates/client/service/src/execution.rs:74-75 | with out-of-order arrival two parties are enough for one poll to hand out more than the capacity |
| EchoChannel.EveryPollFitsIff | crates/client/service/src/execution.rs:231-287 | in every state that polls can reach, the next poll puts at most n - 1 messages in the protocol channel if and only if it does not complete two blocks at once |
| EchoChannel.GadgetChannelFits | crates/client/service/src/echo.rs:20 | in a session of at most two broadcast rounds with in-order arrival, if the gadget has its turn between polls, its channel, with room for n + 1, never holds more than n messages |
| ExecutionStreams.OutgoingStreams | crates/client/service/src/execution.rs:148-221 | for any polls, the k-th broadcast the protocol makes is sent as number k and given to the gadget under that number, with this party as sender and the same body; direct messages go to their parties in order |
| ExecutionStreams.IncomingStreams | crates/client/service/src/execution.rs:231-430 | for any polls whose broadcasts come from remotes and agree where they repeat, protocol and gadget get exactly the blocks of the leading complete rounds, message j of block b being what the j-th remote broadcast as number b, with its sender and payload; direct messages arrive in order with their senders |
| Execution.ProtocolExecution.ForwardBufferedMessages | crates/client/service/src/execution.rs:359-404 | the loop hands out every complete block to the protocol and to the echo, and nothing else |
| Execution.ProtocolExecution.PollOnce | crates/client/service/src/execution.rs:148-287 | one poll numbers and sends at most one outgoing message, takes in or rejects at most one incoming one, and forwards all complete blocks; rejection is exactly for another session or a coordination message |
| Echo.RoundConfirmedIff | crates/client/service/src/echo.rs:119-193 | a round on a ready group is confirmed if and only if its n senders differ and n - 1 replies equal its own hash |
| Echo.ClosedConserves | crates/client/service/src/echo.rs:75-117 | a clean end means the confirmed groups hold exactly the messages that were handed in, per number |
| Echo.ConfirmedGroups | crates/client/service/src/echo.rs:119-193 | every group in the outcome is full, of different senders, with an own message, and met n - 1 equal hashes |
| EchoOrder.RoundsInOrder | crates/client/service/src/echo.rs:75-150 | fed by any interleaving of incoming blocks and own broadcasts, the gadget confirms numbers 0, 1, 2, ... in order and without a gap, each on one message per party; a repeated sender and a missing own message cannot occur |
| EchoOrder.ExecutionDrivesRounds | crates/client/service/src/execution.rs:211-218 | every sequence of polls of the execution is such an interleaving, so the two components together have that property |
| EchoGadget.EchoGadget.ReadyMessageId | crates/client/service/src/echo.rs:200-212 | the lowest number whose group is full and holds an own message |
| EchoGadget.EchoGadget.HashAndCompare | crates/client/service/src/echo.rs:119-193 | the loop over the sorted group hashes in sender order, acknowledges every remote with that hash before it waits, and ends as the specification of a round says |
| EchoGadget.EchoGadget.ProceedRound | crates/client/service/src/echo.rs:75-198 | one call confirms exactly the next group of the specified outcome, or ends as the outcome does |
| EchoGadget.EchoGadget.WrapExecution | crates/client/service/src/echo.rs:32-73 | the result combines the echo outcome with the computation whatever the moment the computation resolves at; success means all rounds of the outcome were confirmed |
| EchoGadget.EchoClosure | crates/client/service/src/echo.rs:32-117 | a wrapped execution succeeds only if the computation did and every message ever handed to the gadget is in a full group confirmed by n - 1 equal hashes |
| EchoGadget.SuccessIff | crates/client/service/src/echo.rs:32-117 | for the streams an execution produces, success is equivalent to a successful computation with as many blocks received as broadcasts sent as rounds confirmed |
| EchoGadget.AcknowledgesAll | crates/client/service/src/echo.rs:135-161 | a full group is acknowledged once to every other party, in order, under its number, with the hash of the n payloads in sender order |
| EchoEnd.ReportsIff | crates/client/service/src/echo.rs:32-193 | for the streams an execution produces: an error is reported if and only if no failed computation came first and either the first unconfirmed round is complete and has its n - 1 replies, and then the error names the first reply that differs from the hash of what all sent, or the input ended unbalanced; the execution never ends if and only if the computation succeeded and that round lacks replies |
| EchoNetwork.RunInv | crates/client/service/src/echo.rs:75-198 | the invariant of n parties with copies, acknowledgements and replies in flight holds after every run, whatever copies senders give to whom, how often and with which numbers |
| EchoNetwork.SameBytesHashed | crates/client/service/src/echo.rs:154-193 | if one party confirms a round then every party has hashed the same bytes for it, given an injective hash |
| EchoNetwork.EchoAgreement | crates/client/service/src/echo.rs:119-193 | echo agreement: if one party confirms a round then all n parties hashed the same sender-indexed vector, given an injective hash and bodies that are data items |
| EchoNetwork.EchoDeadlockFreedom | crates/client/service/src/echo.rs:152-171 | with faithful delivery, in every reachable state where all copies and acknowledgements are delivered and processed, each party has confirmed every round that all n parties broadcast |
| EchoRefinement.PollRefines | crates/client/service/src/execution.rs:148-287 | a poll of the execution does to a party what the network model does: at most its own broadcast and the delivery of one copy |
| EchoRefinement.AcksRefine | crates/client/service/src/echo.rs:152-161 | the gadget acknowledges a full group to the same parties, with the same hash, as the party of the network model |
| Signing.CollectCommitmentsLoop | crates/tss/src/keysign.rs:254-346 | the first loop computes the specified collection: maps, deferred shares, unread messages and every error |
| Signing.MergeDeferred | crates/tss/src/keysign.rs:392-404 | early shares are merged into the second round without overwriting |
| Signing.CollectSharesLoop | crates/tss/src/keysign.rs:406-466 | the second loop computes the specified collection of shares |
| Signing.SizeTestExact | crates/tss/src/keysign.rs:272 | the loops' size test is met if and only if every signer has been heard |
| Signing.CommitmentsSound | crates/tss/src/keysign.rs:272-346 | on any input, a finished first loop has exactly the signers as keys |
| Signing.CollectMore | crates/tss/src/keysign.rs:272-346 | a finished first loop is not affected by what arrives later |
| Signing.NothingMissing | crates/tss/src/keysign.rs:349-476 | the two missing-participant errors cannot occur, and both final maps have exactly the signers as keys, whatever is received |
| SigningOutcome.CommitmentsOutcome | crates/tss/src/keysign.rs:254-346 | the first loop on any stream, told by positions: it stops at the first point where every signer has been heard, with the first commitment and the first spare share of each and the rest unread, or before that at the first faulty message with its error, or at the end of the stream |
| SigningOutcome.SharesOutcome | crates/tss/src/keysign.rs:392-466 | the second loop on any stream and any shares set aside, told the same way: local share, else the one set aside, else the first received |
| SigningOutcome.WholeOutcome | crates/tss/src/keysign.rs:254-476 | signing is these two loops around the local signature share, whose failure is the only other error |
| SigningOrder.SigningOrderIndependent | crates/tss/src/keysign.rs:254-466 | for every interleaving of one commitment and one share per remote signer both loops finish, read everything, and end with the same two maps; nothing deferred is lost |
| SigningOrder.ArrangementLength | crates/tss/src/keysign.rs:254-466 | such an interleaving has exactly 2(n - 1) messages |
| SigningOrder.SwapIff | crates/tss/src/keysign.rs:299-345 | the two messages of a signer may be swapped if and only if the share does not parse as a commitment |
| Dkg.ExpectedIds | crates/tss/src/keygen.rs:231-237 | the expected identifiers are exactly 1..max |
| Dkg.Collect1Loop | crates/tss/src/keygen.rs:227-277 | the first loop computes the specified collection of broadcast packages and sets direct ones aside in order |
| Dkg.Collect2Loop | crates/tss/src/keygen.rs:342-378 | the second loop reads the deferred messages, then the channel, as specified |
| Dkg.Round1Sound | crates/tss/src/keygen.rs:241-295 | on any input, a finished first loop has a package of every other party and of no one else |
| Dkg.DkgSound | crates/tss/src/keygen.rs:279-399 | the count errors cannot occur; if no message claims to come from the local party, both maps given to the last step have exactly {1..n} without self as keys |
| Dkg.DkgAccepts | crates/tss/src/keygen.rs:177-196 | success needs a non-zero identifier, a threshold from two to the number of parties, and packages the second part accepts; which error each violation gives |
| Dkg.Part2FailedIff | crates/tss/src/keygen.rs:305-307 | the second part is reported as failed if and only if the first loop finished and it rejects the packages of the others |
| DkgOutcome.Round1Outcome | crates/tss/src/keygen.rs:227-277 | the first loop on any stream, told by positions: it stops at the first point where every party has been heard, with the last broadcast of each other party and the direct messages in order, or before that at the first faulty message with its error, or at the end of the stream |
| DkgOutcome.Round2Outcome | crates/tss/src/keygen.rs:342-378 | the second loop on any stream, told the same way: the first direct message of each of n - 1 senders |
| DkgOrder.DkgOrderIndependent | crates/tss/src/keygen.rs:227-378 | for every interleaving of the n - 1 broadcasts and n - 1 direct packages the later parts get exactly the same maps, with domains {1..n} without self, and nothing is left over |
| DkgOrder.DeferredThenRest | crates/tss/src/keygen.rs:240-252 | early direct packages followed by the unread ones are all direct packages in order: none lost, none counted twice |
| Peers.SortAscending | crates/client/service/src/peerset.rs:31 | distinct peers are put in strictly ascending byte order |
| Peers.AscendingUnique | crates/client/service/src/peerset.rs:31 | a set of peers has one ascending order, whatever order it was listed in |
| Peers.SharedIndices | crates/client/service/src/peerset.rs:26-41 | two parties that build the set from differently ordered lists share one numbering 0..n-1 |
| Peers.RemotesCover | crates/client/service/src/peerset.rs:195-201 | the remotes of a set are all members but the local one, each once, in order |
| Identifiers.IdentifierTable | crates/tss/src/keysign.rs:54-81 | the loop reads the stored participants into a table or fails with the specified error |
| Identifiers.KeySharePartiesForPeers | crates/tss/src/keysign.rs:45-96 | the whole mapping, with its error cases, as specified |
| Identifiers.ReadTableIff | crates/tss/src/keysign.rs:54-81 | a stored mapping is accepted if and only if every entry names a peer and has an identifier within 1..max, and no two share a peer or an identifier; the table has just those entries |
| Identifiers.MapPartiesIff | crates/tss/src/keysign.rs:45-96 | the mapping succeeds if and only if, besides, there are entries and one for each peer and the local one; party numbers and identifier are those of the entries |
| Identifiers.AcceptedShareIsSound | crates/tss/src/keysign.rs:50-95 | for any stored share, if the mapping succeeds on distinct peers that include the local one, identifiers are distinct, within 1..max, and include the local one |
| Identifiers.AcceptedShareNothingMissing | crates/tss/src/keysign.rs:349-356 | with such a share signing never ends in a missing-participants error |
| Identifiers.KeygenParties | crates/tss/src/keygen.rs:146-155 | the mapping of a share from key generation succeeds if and only if all peers and the local one took part, and then inverts the numbering of key generation |
| Identifiers.IdentifierRecovery | crates/tss/src/keysign.rs:98-111 | for every keygen peer set and every signing subset, a sender's session index leads back to its keygen identifier, and the signers are strictly increasing |
| Identifiers.SameSigners | crates/tss/src/keysign.rs:45-96 | all members of a signing session compute the same list of signers |
| SigningAgreement.CollectedSourced | crates/tss/src/keysign.rs:272-346 | every commitment in the collected map comes from a message of that signer |
| SigningAgreement.SignsWithMap | crates/tss/src/keysign.rs:349-367 | the commitments that the whole of signing uses are those its first loop ended with, whatever comes after |
| SigningAgreement.FirstToSign | crates/tss/src/keysign.rs:272-386 | of two parties that follow the signing program, one of whom has broadcast its share, one has finished its first loop on the first block alone |
| SigningAgreement.SameCommitments | crates/tss/src/keysign.rs:254-364 | once some party has confirmed the first echo round, any two parties that follow the signing program and have finished their first loops hold the same commitment map, so the same signing package (section 5.2 of RFC 9591); the other parties may broadcast anything, to anyone, any number of times |
| SigningAgreement.SigningAgreement | crates/tss/src/keysign.rs:254-364 | the same across all layers and for the result of the whole of signing: from shares of one key generation and one session, signers agree on who signs and with which commitments |
| SigningAgreement.SameMapIff | crates/tss/src/keysign.rs:272-346 | for any two streams, direct messages included, two signers sign with the same commitments if and only if the first commitment each received from every participant, or its own, is the same |
| SigningAgreement.DirectMessageWins | crates/tss/src/keysign.rs:278-326 | the first loop does not look at whom a message was for: a commitment that comes as a direct message first is signed with, and the map is still the one of the echoed stream if and only if that says the same |
| Scheduler.SchedulerInvariant | crates/client/service/src/worker.rs:66-278 | after every run with no local request taken for a draining room: each network receiver has exactly one owner, at most one execution is live per room, a room neither busy nor draining has a live request sender |
| Scheduler.PerRoomFifo | crates/client/service/src/worker.rs:68-84 | in such runs the requests of a room are dispatched once each in arrival order, the rest queued, none refused, and a queue exists only while its room is busy or draining |
| Scheduler.RequestFate | crates/client/service/src/coordination.rs:54-104 | in such runs the dispatched requests of a room are, in order, those that began a session and those dropped for an invitation, then the one its future still holds |
| Scheduler.DroppedIff | crates/client/service/src/coordination.rs:55-75 | a dispatched request is dropped if and only if a session that a peer proposed begins on the future that holds it |
| Scheduler.LifeCycle | crates/client/service/src/worker.rs:68-277 | what every event does to a room: a request starts an idle room and waits for a busy one, a started session runs, an aborted one frees the room, and of execution and proxy the second to end frees it; a freed room is idle or has dispatched its oldest queued request |
| Scheduler.LocalKeepsOrderIff | crates/client/service/src/worker.rs:369-398 | a local request keeps a room in order if and only if the room is not draining; draining with a left-over sender it is refused, without one a second Phase-1 future appears |
| Scheduler.DrainingIsReached | crates/client/service/src/worker.rs:226-277 | a concrete run that reaches a draining room without a sender |
| Workers.Worker.constructor | crates/client/service/src/worker.rs:59-64 | every configured room starts with one Phase-1 future on its receiver and its sender at hand |
| Workers.Worker.DispatchToRoom | crates/client/service/src/worker.rs:369-398 | sends to the live future of the room, or refuses, or makes a virtual one, and leaves every other room alone |
| Workers.Worker.DispatchPendingLocal | crates/client/service/src/worker.rs:299-326 | dispatches the oldest queued request of a free room, as the cell step says; other rooms untouched |
| Workers.Worker.OnLocal | crates/client/service/src/worker.rs:68-84 | queues or dispatches a local request, as the cell step says; other rooms untouched |
| Workers.Worker.OnSession | crates/client/service/src/worker.rs:85-225 | starts an execution and its proxy, or restores the room and serves its queue; other rooms untouched |
| Workers.Worker.OnExecutionEnd | crates/client/service/src/worker.rs:226-260 | frees the room and unparks its restored future if there is one; other rooms untouched |
| Workers.Worker.OnProxyEnd | crates/client/service/src/worker.rs:261-277 | parks the restored future of a busy room, or puts it to work; other rooms untouched |
| Workers.Worker.Run | crates/client/service/src/worker.rs:66-278 | the loop over any sequence of events brings the tables to the state that the theorems about runs speak of |
| PipelineOrder.SessionStream | crates/client/service/src/network_proxy.rs:51-115 | in every run, once a session has started, what the execution got and is still to get is exactly the computation messages of the session from members, in arrival order across Phase 1, Phase 2 and the proxy, if and only if every forwarding found room and no such message came after the first 1024 early ones |
| PipelineRuns.CrowdedOut | crates/client/service/src/coordination.rs:254-267 | for any 1024 or more early computation messages, of whatever sessions, the run in which a message of the next session comes after them, then its invitation and start: the message is late, and the stream is not what arrived |
| PipelineRuns.ChannelOverflows | crates/client/service/src/network_proxy.rs:95-102 | for any 1026 or more matching messages in a row that nobody receives, the run in which forwarding finds the channel full and the stream is not what arrived |
| PipelineOrder.FewAreNotLate | crates/client/service/src/coordination.rs:254-267 | with at most 1024 early messages none is lost that way |
| PipelineOrder.NothingVanishes | crates/client/service/src/coordination.rs:54-231 | in every run each message that arrived is queued, held, answered with an error, or passed on, and only one of these; at most 1024 are held |
| PipelineFilter.OnlyWantedDelivered | crates/client/service/src/network_proxy.rs:81-110 | in every run, each message the execution has received or will receive is a computation message of its session from a member that arrived, unchanged but for its index, which is its sender's position in the peer set |
| PipelineFilter.AllWantedDelivered | crates/client/service/src/network_proxy.rs:51-110 | and if every forwarding found room and none came after the first 1024 early ones, these are, one by one and in order, all such messages that were polled |
| PipelineOrigin.SessionOrigin | crates/client/service/src/coordination.rs:54-216 | in every run, a session that a peer proposed goes by the id of an invitation that arrived, and its peer set was read from the first later coordination message with that id |
| PipelineOrigin.StrayAnswered | crates/client/service/src/coordination.rs:158-167 | in Phase 2 a coordination message of another session is answered with an error and changes nothing else, timer or not |
| PipelineOrigin.UnwantedAnswered | crates/client/service/src/network_proxy.rs:81-110 | the proxy answers a message with an error if and only if it is not a computation message of the session from a member |
| PipelineOrigin.FewFindRoom | crates/client/service/src/network_proxy.rs:95-102 | in every run, while at most 1025 messages of a session have come, every forwarding finds room |
| PipelineOrder.TimeoutRestarts | crates/client/service/src/coordination.rs:216-226 | a poll of Phase 2 that finds the timer run out, and no coordination message, leads to an empty Phase 1 with everything held or just polled answered with an error |
| PipelineOrder.UnreadableRestarts | crates/client/service/src/coordination.rs:169-182 | so does a start message that cannot be read, for everything held |
| PipelineOrder.RequestLeavesPhase1 | crates/client/service/src/coordination.rs:82-104 | a local request takes the room out of Phase 1 unless an invitation came first, with everything held or just polled answered with an error |
| PipelineChannels.Phase1Channel.Poll | crates/client/service/src/coordination.rs:54-109 | one poll of Phase 1 as specified: invitation with the buffer handed over, or buffering, or the local request with the buffer rejected |
| PipelineChannels.Phase2Channel.Poll | crates/client/service/src/coordination.rs:155-231 | one poll of Phase 2 as specified: start, stray or unreadable coordination, buffering by session, timeout |
| PipelineChannels.BufferEarlyComputation | crates/client/service/src/coordination.rs:254-267 | an early message is kept while there are fewer than 1024, and answered with an error otherwise |
| PipelineChannels.Replies.RejectBuffered | crates/client/service/src/coordination.rs:269-276 | every buffered message is answered with an error, in order |
| PipelineChannels.ReceiverProxy.Forward | crates/client/service/src/network_proxy.rs:81-110 | a matching message from a member gets its sender index and is sent if there is room; everything else is answered with an error |
| PipelineChannels.ReceiverProxy.Poll | crates/client/service/src/network_proxy.rs:51-78 | buffered messages go before live ones, one per poll, and an ended execution is noticed first |
| Negotiation.NegotiationOutcome | crates/client/service/src/negotiation.rs:126-186 | for n >= 2 and any response sequence the collected set stays below n, and a start carries exactly n distinct peers in ascending order, the proposer and others that accepted |
| Negotiation.StartsIff | crates/client/service/src/negotiation.rs:126-186 | without a timeout the session starts if and only if n peers, the proposer included, are willing |
| Negotiation.AbortedIff | crates/client/service/src/negotiation.rs:309-323 | for n >= 2 a negotiation is aborted if and only if the timer ran out at a poll by which fewer than n peers, the proposer included, were willing |
| Negotiation.AloneNeverStarts | crates/client/service/src/negotiation.rs:132 | for n = 1 it never starts unless the proposer answers itself |
| Negotiation.MembersAgree | crates/client/service/src/negotiation.rs:136-160 | from the collected answers to the members: if the start message fits the writer, every member that reads the bytes sent gets the proposer's order, so indices are one bijection onto 0..n-1 shared by all |
| Negotiation.NegotiationChannel.PollOnce | crates/client/service/src/negotiation.rs:126-186 | one poll as specified, with a peer set that does not depend on the order the hash set is walked in |
| Varint.RoundTrip | crates/client/service/src/peerset.rs:114-118 | a number written as a varint is read back, consuming exactly the bytes written |
| Varint.Canonical | crates/client/service/src/peerset.rs:50-51 | bytes read as a number that fits its type are exactly the bytes written for it |
| Varint.WrittenDigit | crates/client/service/src/peerset.rs:114-118 | byte k of a written number holds its bits 7k to 7k+6, and the high bit says whether another follows |
| Varint.LengthIs | crates/client/service/src/peerset.rs:50-51 | a number ends with the first byte below 128; without one it is cut short or too long |
| PeersetCodec.PeersetRoundTrip | crates/client/service/src/peerset.rs:43-106 | every receiver decodes the same peers and parties in the same order, with itself as the local peer |
| PeersetCodec.PeersetBytes | crates/client/service/src/peerset.rs:108-150 | the exact bytes of a set of two peers with short ids: each field with its length in front, in this order |
| PeersetCodec.CutPeerset | crates/client/service/src/peerset.rs:43-106 | a peer set of which the end is missing is never read as one |
| PeersetCodec.DecodedTwice | crates/client/service/src/peerset.rs:43-106 | whatever bytes are decoded, the result has valid peer ids only, and its own encoding decodes to it |
| PeersetCodec.BufWriter.WriteAll | crates/client/service/src/peerset.rs:109-149 | writing appends to what was written, and nothing leaves the buffer before it overflows or one write fills it alone |
| PeersetCodec.ToBytes | crates/client/service/src/peerset.rs:108-150 | the result is the whole encoding if and only if that fits the writer's capacity, and otherwise a tail of it |
| PeersetCodec.FromBytes | crates/client/service/src/peerset.rs:43-106 | the loops decode as specified, with the error of the first bad field |
| StartCodec.StartRoundTrip | crates/client/service/src/negotiation.rs:373-397 | every receiver decodes the peers, parties and body that were encoded |
| StartCodec.CutStart | crates/client/service/src/negotiation.rs:373-397 | a start message of which the end is missing is never read as one |
| StartCodec.StartBytes | crates/client/service/src/negotiation.rs:399-426 | the exact bytes of a short message: the peer set, then the body, each with its length in front |
| StartCodec.StartToBytes | crates/client/service/src/negotiation.rs:399-426 | what is sent is a tail of two blocks, the first around a tail of the peer set, each the whole if and only if the whole fits its writer |
| StartCodec.SentWholeIff | crates/client/service/src/negotiation.rs:399-426 | so the whole message is sent if and only if it fits the capacity |
| StartCodec.StartFromBytes | crates/client/service/src/negotiation.rs:374-397 | both blocks are read before the peer set is decoded, with the error of the first bad one |
| RequestCodec.RequestRoundTrip | crates/client/network/src/request_responses.rs:1263-1326 | a request followed by anything is read back as itself, consuming exactly its bytes, if and only if its payload is within the limit; otherwise it is refused |
| RequestCodec.ResponseRoundTrip | crates/client/network/src/request_responses.rs:1328-1361 | a response is read back as itself if and only if it is a refusal or within the limit |
| RequestCodec.ResponsesDiffer | crates/client/network/src/request_responses.rs:1432-1457 | no two responses have the same bytes; a refusal is not an empty success |
| RequestCodec.RequestBytes | crates/client/network/src/request_responses.rs:1363-1430 | the exact bytes of a request with small numbers: type, broadcast mark, protocol id, session, message id, length, payload |
| RequestCodec.FrameRead | crates/client/network/src/request_responses.rs:1263-1326 | any such frame, whoever wrote it: a type above one stops the reader, any mark but zero means a broadcast, and a payload over the limit is refused |
| RequestCodec.CutRequest | crates/client/network/src/request_responses.rs:1263-1326 | a request of which the end is missing is never read as one |
| RequestCodec.CutResponse | crates/client/network/src/request_responses.rs:1328-1361 | a response that ends inside its length is read as a refusal, one that ends later is an error |
| RequestCodec.WriteRequest | crates/client/network/src/request_responses.rs:1363-1430 | field by field exactly the specified frame, then the substream is closed |
| RequestCodec.ReadRequest | crates/client/network/src/request_responses.rs:1263-1326 | field by field as specified, including the unknown message type and the size limit |
| RequestCodec.WriteResponse | crates/client/network/src/request_responses.rs:1432-1457 | nothing is written for a refusal, length and payload for a success |
| RequestCodec.ReadResponse | crates/client/network/src/request_responses.rs:1328-1361 | an input that ends before the length is a refusal, every other failure an error |

## Left out

- Threshold cryptography: nonces, commitments, shares, packages and their parsers are abstract values and functions; so are Blake2s, base58 and peer id validation.
- Hash, CBOR and varint libraries: modelled from RFC 8949 and the multiformats unsigned-varint specification, not from their own code; an allocation that fails for a huge length is not modelled.
- Timers, wakers, connection probes and broadcast retries: a timeout is a flag of a poll; how often the proposer broadcasts is not modelled, since any sequence of answers is covered.
- EchoNetwork.EchoDeadlockFreedom: is about states where everything sent has been delivered; that such a state is reached is not stated.
- EchoNetwork.EchoAgreement: the bounded channels between execution, gadget and protocol, and the panics on a full one, are not in the network model; their bounds are the subject of EchoChannel.
- EchoChannel.GadgetChannelFits: is about runs in which the gadget has its turn between two polls of the execution; the order in which the two are polled is up to the select macro.
- SigningAgreement.SameCommitments: the network model has broadcasts only; a direct message during a signing session is not covered, see SigningAgreement.DirectMessageWins.
- EchoNetwork.RunInv: each party gets at most one reply per recipient and round, as the response channel of a multicast gives.
- Execution.ProtocolExecution.PollOnce: the sender of an incoming message is another member of the peer set, as the proxy has made sure; the reply to the RPC caller after the quiet period is not modelled.
- EchoGadget.EchoGadget.ProceedRound: the 16-bit round counter is unbounded here; it is never read.
- Dkg.DkgSound: the domain of the second-round map is stated for inputs without a direct message that claims to come from the local party.
- StartCodec.StartRoundTrip: says nothing about what a receiver makes of a message that did not fit the writer's buffer.
- Scheduler.SchedulerInvariant: rooms that were never configured, and the virtual rooms made for them, are not covered.
- Workers.Worker.OnSession: waiting for Phase 2 or for the negotiation inside the loop is one step.
- PipelineOrder.SessionStream: closing of the room's own network queue is the same as an empty queue; how a session that the proposer starts comes about is one step, stated in Negotiation.
- Peer-set caching, discovery, swarm events, request bookkeeping, RPC, command line, configuration, storage and benchmarks.

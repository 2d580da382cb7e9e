# ibc-rs in Dafny

A model of the IBC protocol as ibc-rs implements it, and proofs about it. Two chains run the handlers of ICS-02/07
(clients), ICS-03 (connections), ICS-04 (channels and packets) and ICS-20 (token transfer). Relayers, users and block
producers take arbitrary steps: any message with any proof, however stale, any send, any payment, any new block. The
theorems are about every state of every such run.

## How the model is built

- `Heights`, `Strings`, `Paths`, `Commitments`, `Versions`, `Merkle`, `Denoms`: the pure cores, with the source's loops as
  methods proved against functions.
- `Tendermint`: the light client's store. `ClientStore` is the store changed in place.
- `IbcStore`, `Connections`, `Channels`, `Packets`, `Transfer`, `Dispatch`: the handlers as functions from store to store.
  An error is `Rejected` (or `None`) and changes nothing, as the host rolls back.
- `HostContext`: the same handlers in the source's form, a context written to in place in the source's order. Each method
  is proved equal to its function.
- `World`: a chain with its block history and a record of the module callbacks that ran; the steps; the runs of a pair.
- `Invariants`, `ChannelSteps`, `NodeSteps`, `Preservation`, `HandshakeSteps`, `Runs`: the inductive invariant and its proof.
  It relates each store to its own callbacks and to past states of the other chain.
- `Safety`, `Halting`, `NeverClosed`, `Delays`, `Requests`, `Negotiation`, `TransferChannels`, `ClientHistory`,
  `ClientMessages`, `OneProof`: what no run does to clients, connections, channels and packets.
- `Payments`, `Accounting`, `Conservation`, `Coverage`, `ForeignPorts`, `Unanswered`, `RoundTrips`: whose coins move, and that
  none are lost or made.
- `Acceptance`, `Openings`, `Frames`: exactly which messages succeed, and exactly what they may change.
- `StoreProofs`: derives the proof contracts used by the handlers from those of single-level ICS-23 proofs.

Everything outside the repository is a field of `Env`, with its contract in `Contracts`: SHA-256 (injective), proof checks
(sound for the store behind the root, at well-formed paths), the root an upgraded client starts from (nothing verifies
against it), the Tendermint header verifier. The theorems on coins also use `CodecFaithful`: the JSON framing of transfer
records and acknowledgements loses nothing. What a record's denomination text means is modelled and proved here. The
theorems on what can be accepted use `ProofsComplete`: whatever a store holds or lacks at a well-formed path has a proof.

`tracks` names the clients of a chain whose accepted headers really come from the other chain; the cross-chain theorems
speak about channels over such clients (`Tracked`), and about nothing else. A snapshot of block h is taken no earlier than
the start of block h and carries its time.

## Where the code departs from its documentation or from what one would expect

The model follows the code.

- `recv_packet.rs`: the comment in execute promises that a packet relayed twice does not fail. On unordered channels
  validation refuses it because the acknowledgement exists; on ordered channels it is a no-op (`Safety.RelayedAgain`).
  The receipt that validation looks up is keyed by the sender's port and channel and decides nothing.
- `timeout.rs`: an ordered timeout proves that nextSequenceRecv equals the packet's sequence, not the one in the message.
- `timeout_on_close.rs`: both the closed end and the missing receipt, or the sequence, are checked with the same proof field.
  No proof passes both, so the message never resolves a packet (`OneProof.TimeoutOnCloseIsIdle`). The theorems that cover
  both timeout messages hold for it, without effect.
- `chan_close_init.rs`: closing an end still in Init fails, since its close event needs a counterparty channel.
- `chan_open_init.rs`: the stored version is the one proposed in the message, not the one the module returns. A transfer end
  proposed with the empty version is therefore never answered by a transfer module (`Negotiation.BlankProposalIsNeverAnswered`).
- `execution.rs` (Tendermint): the upgrade comment says no processed time is set; the code stores update metadata.
- `path.rs`: parsing the single word "clients" panics (`Paths.ParseAcceptsOnlyValidPaths`). Numbers may carry a plus sign or
  leading zeros, so a parsed path need not print as it was read (exact condition in `Paths.ReprintsPathExactly`).
- `version.rs`: a picked version need not pass the picker's own list when identifiers repeat
  (`Versions.RepeatedIdentifierCounterexample`, exact condition in `Versions.PickedIsAcceptedByOwnList`).
- `denom.rs`, `packet.rs`: a denomination with slashes in its base can be built but not recovered from the packet
  (`RoundTrips.SlashedCoinLosesThePeg`, exact condition in `RoundTrips.SendCarriesExactly`). Transfer messages are read
  from text, so no run of the model contains one.
- `send_transfer.rs`: the port of a transfer is not compared with the module's own. Coins sent from another port are never
  refunded (`ForeignPorts.ForeignTransferIsLocked`, exact condition in `ForeignPorts.TimeoutRefundsExactly`).

## Model

| member | source | states |
|---|---|---|
| `Safety.NeverDeliveredAndTimedOut` | ibc-core/ics04-channel/src/handler/timeout.rs:129-263 | in every reachable pair of chains no packet that timed out at the sender, by either timeout message, is ever delivered on any channel of the receiver, whatever proofs were relayed; only the sender's client has to track the receiver |
| `Safety.TimedOutSequenceIsNeverDelivered` | ibc-core/ics04-channel/src/handler/timeout.rs:129-263 | where the receiver's client tracks the sender too, no packet at all is delivered under a timed-out source and sequence |
| `OneProof.TimeoutOnCloseIsIdle` | ibc-core/ics04-channel/src/handler/timeout_on_close.rs:92-162 | with proofs checked as the client checks them, a timeout-on-close message is valid exactly when the packet decodes, its channel exists with a matching remote, and no commitment is stored: it can only be a no-op |
| `OneProof.TimeoutOnCloseNeverResolves` | ibc-core/ics04-channel/src/handler/timeout_on_close.rs:92-162 | so no packet of any run is ever resolved by a timeout on close |
| `Safety.JustifiedExcludes` | ibc-core/ics04-channel/src/handler/timeout.rs:129-263 | a timeout justified by any past receiver state (expired, or end closed, though the latter never passes in this code) excludes a delivery of that packet before or after that state |
| `Safety.TimedOutStaysTimedOut` | ibc-core/ics04-channel/types/src/packet.rs:140-147 | once a packet has expired at a height and time it is expired at every later height and time |
| `Conservation.EscrowBacksVouchers` | ibc-apps/ics20-transfer/src/handler/send_transfer.rs:139-153 | in every reachable state, for each transfer channel pair and every denomination, escrow on one chain equals voucher supply on the other plus the amounts in flight in both directions |
| `Accounting.BooksAlwaysBalance` | ibc-apps/ics20-transfer/src/handler/on_recv_packet.rs:33-113 | over every run each escrow balance is sent less refunded less returned, and each voucher supply is arrived plus refunded less sent home, per channel and denomination; on another module's port only transfers sent from it count and nothing is refunded |
| `Accounting.TakePosts` | ibc-apps/ics20-transfer/src/handler/send_transfer.rs:139-153 | sending moves exactly one escrow balance or one voucher supply, by exactly the packet amount, and nothing else in the books |
| `Accounting.ReceivePosts` | ibc-apps/ics20-transfer/src/handler/on_recv_packet.rs:33-113 | receiving unescrows exactly what the packet brings home or mints exactly what it brings out, and nothing else in the books |
| `Accounting.RefundPosts` | ibc-apps/ics20-transfer/src/handler/mod.rs:14-41 | a refund undoes the posting of the send exactly |
| `Conservation.FlowSplits` | ibc-core/ics04-channel/src/handler/recv_packet.rs:46-105 | everything sent on a channel has been refunded, has been paid out, or is in flight; no packet is counted twice |
| `Conservation.NotRefundedAndArrived` | ibc-apps/ics20-transfer/src/module.rs:219-245 | no packet is both refunded to its sender and successfully received |
| `Conservation.TransfersDecode` | ibc-apps/ics20-transfer/src/handler/send_transfer.rs:155-170 | every packet ever sent on the transfer port carries data that decodes, as transfer messages are read from text |
| `Coverage.TimeoutRefundIsCovered` | ibc-apps/ics20-transfer/src/module.rs:280-310 | a valid timeout of a pending transfer (in this code never one on close) succeeds whenever the host accepts the refund: escrow always covers it |
| `Coverage.FailureRefundIsCovered` | ibc-apps/ics20-transfer/src/module.rs:219-245 | a valid error acknowledgement of a transfer succeeds whenever the host accepts the refund |
| `Coverage.ReturnIsCovered` | ibc-apps/ics20-transfer/src/handler/on_recv_packet.rs:33-70 | a first delivery of a transfer to a willing host answers with the success acknowledgement: returning coins are always found in escrow |
| `ForeignPorts.TimeoutRefundsExactly` | ibc-apps/ics20-transfer/src/module.rs:280-310 | a valid timeout the module accepts pays the sender back exactly the packet's coins, out of escrow or minted again, every other balance and supply unchanged, if it left the transfer module's port; if it left another module's the ledger is untouched |
| `ForeignPorts.FailureRefundsExactly` | ibc-apps/ics20-transfer/src/module.rs:219-245 | the same for an error acknowledgement |
| `ForeignPorts.AcceptanceIgnoresThePort` | ibc-apps/ics20-transfer/src/handler/send_transfer.rs:30-100 | whether a transfer is accepted, its packet and its effect on the coins do not depend on which port is the module's |
| `ForeignPorts.ForeignTransferIsLocked` | ibc-apps/ics20-transfer/src/handler/send_transfer.rs:30-153 | an accepted transfer sent from another module's port leaves its coins in that channel's escrow in every later state of every run |
| `Unanswered.EscrowUntilNamedBack` | ibc-apps/ics20-transfer/src/handler/send_transfer.rs:139-153 | while the named end does not name the sending end back (still in Init, or answering another), all coins sent are in the sending end's escrow and none has arrived |
| `Unanswered.LosingEndsKeepTheirCoins` | ibc-core/ics04-channel/src/handler/timeout.rs:129-160 | of several ends towards one counterparty, those that lose to an opened one stay unopened with all their coins in escrow in every later state of every run |
| `RoundTrips.NoCoinCrossedTwice` | ibc-apps/ics20-transfer/types/src/denom.rs:268-290 | no reachable state holds a coin whose two latest hops are one transfer channel crossed both ways |
| `RoundTrips.HeldCoinsReturn` | ibc-apps/ics20-transfer/src/handler/on_recv_packet.rs:33-81 | every coin anyone holds in a reachable state comes back from a trip over a transfer channel under the same denomination |
| `RoundTrips.SendCarriesExactly` | ibc-apps/ics20-transfer/src/handler/send_transfer.rs:155-170 | the packet of a transfer decodes to exactly the coins taken if and only if their denomination is canonical |
| `RoundTrips.MessagesAreCanonical` | ibc-apps/ics20-transfer/types/src/msgs/transfer.rs:51-86 | an accepted transfer message always carries a canonical denomination |
| `RoundTrips.SlashedCoinLosesThePeg` | ibc-apps/ics20-transfer/types/src/packet.rs:35-60 | a native coin named like a traced one, if put into a transfer by hand, is escrowed by the sender and unescrowed as another coin by the receiver |
| `IbcStore.DecodesExactly` | ibc-apps/ics20-transfer/types/src/packet.rs:35-60 | transfer data survives its text record exactly when its denomination is canonical |
| `IbcStore.ReadDecodes` | ibc-apps/ics20-transfer/types/src/packet.rs:35-60 | data read from a text record is written back as that record |
| `TransferChannels.TransferChannelsAreUnordered` | ibc-apps/ics20-transfer/src/module.rs:20-135 | over every run each channel of the transfer port is unordered and past Init has the ICS-20 version |
| `NeverClosed.TransferChannelsNeverClose` | ibc-apps/ics20-transfer/src/module.rs:137-165 | in every reachable state neither end of a channel between two transfer modules is closed |
| `NeverClosed.StepCloses` | ibc-core/ics04-channel/src/handler/chan_close_confirm.rs:32-60 | on the transfer port only a confirmed closing can close an end: the module refuses to start one and unordered timeouts leave it open |
| `NeverClosed.ConfirmedByPeer` | ibc-core/ics04-channel/src/handler/chan_close_confirm.rs:94-166 | a confirmed closing means the counterparty's end is closed and names this end |
| `Safety.DeliveredOnce` | ibc-core/ics04-channel/src/handler/recv_packet.rs:46-105 | the receive callback runs at most once per channel and sequence |
| `Safety.DeliveredWasSent` | ibc-core/ics04-channel/src/handler/recv_packet.rs:188-226 | only packets the other chain sent to this channel are delivered, equal in every field, well formed, and from an end that names this channel |
| `Safety.AcknowledgementIsGenuine` | ibc-core/ics04-channel/src/handler/acknowledgement.rs:167-207 | an acknowledgement that resolves a packet is the one written by the delivery of that very packet |
| `Safety.ResolvedOnce` | ibc-core/ics04-channel/src/handler/acknowledgement.rs:61-86 | each sent sequence is resolved at most once, by the packet that was sent in every field, and its commitment is stored exactly until then |
| `Safety.OrderedDelivery` | ibc-core/ics04-channel/src/handler/recv_packet.rs:228-246 | an ordered channel delivers 1..nextSequenceRecv-1 in order, acknowledges in order, and while not Closed its commitments are exactly [nextSequenceAck, nextSequenceSend) |
| `Safety.OrderedWindow` | ibc-core/ics04-channel/src/handler/send_packet.rs:84-119 | nextSequenceAck of the sender <= nextSequenceRecv of the receiver <= nextSequenceSend of the sender |
| `Safety.OrderedTimeoutStops` | ibc-core/ics04-channel/src/handler/timeout.rs:83-96 | once an ordered packet has timed out the receiver stays at its sequence in every later state |
| `Safety.RelayedAgain` | ibc-core/ics04-channel/src/handler/recv_packet.rs:46-76 | a packet relayed again is accepted as a no-op exactly when the channel is ordered; on an unordered channel it is an error |
| `Safety.FirstRelay` | ibc-core/ics04-channel/src/handler/recv_packet.rs:228-289 | a message passing the other checks delivers exactly when its sequence was not delivered before and, on an ordered channel, is the next one |
| `Safety.ChannelAgreement` | ibc-core/ics04-channel/src/handler/chan_open_ack.rs:44-56 | a channel that ever opened has a counterpart that names it back with the same ordering and version over the two ends of one agreed connection whose version allows that ordering, in every later state |
| `Safety.CounterpartAlwaysExists` | ibc-core/ics04-channel/src/handler/chan_open_try.rs:118-185 | an end past Init, opened or not, answers an existing end with the same ordering, towards this port, over the other end of the connection |
| `Safety.IdentifiersNeverReused` | ibc-core/ics04-channel/src/handler/chan_open_init.rs:38-85 | in every reachable state the next connection and channel identifiers are unused and every connection end past Init has exactly one version |
| `Safety.OneOpenEnd` | ibc-core/ics04-channel/src/handler/chan_open_confirm.rs:93-166 | of all ends created towards one counterparty end at most one ever opens |
| `Safety.ClosedStaysClosed` | ibc-core/ics04-channel/src/handler/chan_close_init.rs:93-122 | over every further run a closed channel stays closed, sends and delivers nothing and sees no acknowledgement and no plain timeout, ends keep ordering, hops and counterparty, connections never go back, and nothing is deleted |
| `Safety.ConnectionAgreement` | ibc-core/ics03-connection/src/handler/conn_open_ack.rs:53-101 | an open connection end has a counterpart mirroring its client ids, connection ids and prefixes with the same single version and delay |
| `Negotiation.ResponderPickIsAccepted` | ibc-core/ics03-connection/src/handler/conn_open_try.rs:57-133 | while the initiator is still in Init, the version the responder picks passes the initiator's check against the list it stored |
| `Negotiation.InitiatorSpeaksOwnVersion` | ibc-core/ics03-connection/src/handler/conn_open_init.rs:13-60 | whatever the responder answers, an initiator only opens on a version its own host supports |
| `Negotiation.BlankProposalIsNeverAnswered` | ibc-core/ics04-channel/src/handler/chan_open_init.rs:57-68 | over tracked clients a transfer module only ever answers ends proposed with its version: one proposed with the empty version, which its own module accepts, is never answered by one |
| `Negotiation.BlankProposalNeverOpens` | ibc-core/ics04-channel/src/handler/chan_open_ack.rs:89-159 | nor can it be opened on the word of one |
| `Negotiation.PeerClientIsOurs` | ibc-core/ics03-connection/src/handler/conn_open_try.rs:87-133 | opening messages pass only if the other chain's client really had the checked state and held a consensus state of this chain |
| `Halting.InactiveForever` | ibc-clients/ics07-tendermint/src/client_state/validation.rs:152-192 | from the moment a client is frozen, or its latest state is older than its trusting period or gone, over every run it never changes, nor does any connection end, channel end, sequence, commitment, receipt or acknowledgement over it, none are added over it, and no callback runs on its channels |
| `Halting.TimeoutSpares` | ibc-core/ics04-channel/src/handler/timeout.rs:158-164 | with a frozen or expired client a timeout of either kind is refused or is a no-op |
| `Halting.OpensExactlyWhileTrusted` | ibc-core/ics03-connection/src/handler/conn_open_init.rs:13-33 | a connection is opened over a client exactly while it is unfrozen and its latest state is no older than the trusting period, that last moment included, and any requested version is supported |
| `Payments.TransferTakesFromSender` | ibc-apps/ics20-transfer/src/handler/send_transfer.rs:104-172 | an accepted transfer message sends a packet with exactly its text, timeouts and destination; the sender it names held the amount and loses it, the escrow of the channel gains it exactly where this chain is the source, every other balance and supply stays |
| `Payments.SendThenRefund` | ibc-apps/ics20-transfer/src/handler/mod.rs:14-41 | taking the coins and refunding them cannot fail and leaves every balance and supply as it was |
| `Payments.RefundReversesSend` | ibc-apps/ics20-transfer/src/handler/mod.rs:14-41 | in every account and denomination a refund gives back exactly what the send took |
| `Payments.DeliveryPaysReceiver` | ibc-apps/ics20-transfer/src/handler/on_recv_packet.rs:17-113 | a delivered transfer is answered with success exactly when it can be paid, and then the receiver it names gains the amount, out of the escrow of the channel or as new coins, and no other balance changes; otherwise the ledger is untouched and the answer is an error |
| `Payments.ForeignDelivery` | ibc-core/ics04-channel/src/handler/recv_packet.rs:78-105 | on the port of another module the answer is that of the module and the ledger stays |
| `Payments.SuccessMovesNothing` | ibc-apps/ics20-transfer/src/module.rs:219-245 | a success acknowledgement moves no coins; an unreadable acknowledgement or packet fails the message |
| `Acceptance.StaleIsIdle` | ibc-core/ics04-channel/src/handler/acknowledgement.rs:133-140 | in every reachable state an acknowledgement or timeout of a packet not pending changes nothing and passes, whatever its proof, exactly when the packet is well formed, its end is open (on close: exists), and the module agrees |
| `Acceptance.ProvableExactly` | ibc-clients/ics07-tendermint/src/client_state/common.rs:196-221 | with complete proofs, a value is provable through a tracking client exactly where the client is active and not behind, and the other chain stored that value at that height |
| `Acceptance.AbsenceProvableExactly` | ibc-clients/ics07-tendermint/src/client_state/common.rs:223-236 | the same for absence |
| `Acceptance.SendAcceptedExactly` | ibc-core/ics04-channel/src/handler/send_packet.rs:29-99 | in every reachable state a packet is sent exactly when its end has the named counterparty, is not closed, carries the next sequence, and its client is active with a latest state the packet outlives |
| `Acceptance.TransferAcceptedExactly` | ibc-apps/ics20-transfer/src/handler/send_transfer.rs:30-100 | a transfer message is accepted exactly when it reads, the host consents, the sender holds the amount and its packet can be sent |
| `Acceptance.DeliverableExactly` | ibc-core/ics04-channel/src/handler/recv_packet.rs:140-289 | in every reachable state some proof delivers a packet at a height exactly when the other chain had sent that very packet by then and not resolved it, and it is next (ordered) or new (unordered) here, in time, on an open end whose delay has passed |
| `Acceptance.AcknowledgeableExactly` | ibc-core/ics04-channel/src/handler/acknowledgement.rs:106-207 | some proof resolves a packet by an acknowledgement exactly when it is sent and unresolved, it is its turn, the module agrees, and the other chain had by then received it with that very answer |
| `Acceptance.TimeoutAllowedExactly` | ibc-core/ics04-channel/src/handler/timeout.rs:129-263 | some proof times a packet out exactly when it is sent and unresolved, the module agrees, and at that block, too late for the packet, the other chain had not received it; the claimed next sequence matters only by not exceeding it |
| `Openings.ProposedExactly` | ibc-core/ics04-channel/src/handler/chan_open_init.rs:110-135 | a channel is proposed exactly over one connection that lists its ordering, over an active client, with the consent of the module, which for transfers is an unordered channel with its version or none |
| `Openings.AnsweringExactly` | ibc-core/ics04-channel/src/handler/chan_open_try.rs:118-185 | a channel is answered exactly when the other chain really holds such a proposal towards this port over the other end of an open connection that lists the ordering, and the module agrees |
| `Openings.MovesExactly` | ibc-core/ics04-channel/src/handler/chan_open_ack.rs:89-159 | an end is opened, or closed after its peer, exactly when it is in the right state, the module agrees and the other chain really held the matching end in the matching state |
| `Openings.ClosableExactly` | ibc-core/ics04-channel/src/handler/chan_close_init.rs:93-122 | an end is closed first exactly when it has a counterpart, is not closed, its client is active and a module other than transfer agrees |
| `Openings.ConnMovesExactly` | ibc-core/ics03-connection/src/handler/conn_open_try.rs:26-133 | a connection message succeeds exactly when the other chain, under the named prefix, really held the matching end, the versions agree, and the client at the other end is one of this chain |
| `Frames.MessageFrame` | ibc-core/ics25-handler/src/entrypoint.rs:25-35 | a message changes only the one client, connection or channel it names, new ones take the next identifier, a packet message changes only its half of the channel and its own sequence, and balances move only on the transfer port |
| `Frames.SendingFrame` | ibc-core/ics04-channel/src/handler/send_packet.rs:101-119 | a send adds the commitment of the next sequence, moves that sequence by one and changes nothing else |
| `Delays.DelayIsMeasured` | ibc-core/ics03-connection/src/delay.rs:8-54 | a height a client does not know at some moment serves no packet callback in any later state of any run before the delay of the connection has passed since, in time and blocks |
| `Delays.StampsArePast` | ibc-clients/ics07-tendermint/src/client_state/execution.rs:118-177 | in every reachable state the time and height stored with each consensus state have come |
| `Requests.ConnectionKeepsRequest` | ibc-core/ics03-connection/src/handler/conn_open_init.rs:35-85 | over every run a connection keeps the client, counterparty and delay of the message that opened it, and a responder the version it picked |
| `Requests.ChannelKeepsRequest` | ibc-core/ics04-channel/src/handler/chan_open_init.rs:38-85 | over every run a channel keeps the ordering, connection and counterparty of the message that started it, and a responder the version of the module |
| `Negotiation.AllowsExactlyCommonOrderings` | ibc-core/ics03-connection/src/handler/conn_open_try.rs:187-210 | the connection a responder stores allows exactly the orderings that both matched version entries list |
| `Negotiation.ListedOrderingIsAllowed` | ibc-core/ics03-connection/src/handler/conn_open_try.rs:187-210 | an ordering both sides list under the settled identifier is allowed on the connection |
| `OneProof.ClosedIsFinal` | ibc-core/ics04-channel/src/handler/timeout_on_close.rs:92-162 | with proofs checked as the client checks them, over every run a packet unresolved when its channel closes stays unresolved and its commitment stays stored |
| `StoreProofs.ChainedProofsAreSound` | ibc-clients/ics07-tendermint/src/client_state/common.rs:196-236 | single-level soundness, the chained check over prefix and printed path, and injective keys give the proof contract all handlers rely on |
| `StoreProofs.ChainedProofsAreComplete` | ibc-clients/ics07-tendermint/src/client_state/common.rs:196-236 | single-level completeness and the chained check give a proof for everything a store holds or lacks at a well-formed path |
| `Runs.StepKeeps` | ibc-core/ics25-handler/src/entrypoint.rs:25-35 | every step of one chain keeps everything the two chains hold about themselves and each other, and the chain only grows |
| `Runs.RunKeeps` | ibc-core/ics25-handler/src/lib.rs:6-11 | the same over every admissible run of the pair |
| `Runs.ReachableInv` | ibc-core/ics25-handler/src/entrypoint.rs:25-35 | the invariant holds in every reachable pair |
| `Preservation.SendStep` | ibc-core/ics04-channel/src/handler/send_packet.rs:101-119 | a send keeps the invariant: the commitment is stored for exactly the new sequence |
| `Preservation.RecvStep` | ibc-core/ics04-channel/src/handler/recv_packet.rs:32-105 | a first delivery keeps the invariant: receipt or next sequence, acknowledgement and callback agree, and the packet was sent by the peer |
| `Preservation.AckStep` | ibc-core/ics04-channel/src/handler/acknowledgement.rs:33-90 | an acknowledgement keeps the invariant and is justified by a past state of the peer |
| `Preservation.TimeoutStep` | ibc-core/ics04-channel/src/handler/timeout.rs:47-97 | a timeout of either kind keeps the invariant and is justified by a past state of the peer (in this code only the plain one resolves anything) |
| `HandshakeSteps.ChannelStep` | ibc-core/ics04-channel/src/handler/chan_open_try.rs:44-87 | every channel handshake and close message keeps the invariant, including agreement with the peer when an end opens |
| `HandshakeSteps.OrderingAllowed` | ibc-core/ics04-channel/src/handler/chan_open_try.rs:118-145 | the initiator may rely on the responder having checked the ordering against the version both connection ends agreed on |
| `HandshakeSteps.ConnectionMessageStep` | ibc-core/ics03-connection/src/handler/conn_open_confirm.rs:64-120 | every connection handshake message keeps the invariant, including mirroring when an end opens |
| `HandshakeSteps.ClientMessageStep` | ibc-core/ics02-client/src/handler/update_client.rs:14-75 | every client message keeps the invariant: consensus states of tracked clients remain states of the peer |
| `Preservation.CommitmentSeen` | ibc-core/ics04-channel/src/handler/recv_packet.rs:188-226 | a commitment proven at any past height of the sender names the packet it sent, destination included |
| `HostContext.Context.Dispatch` | ibc-core/ics25-handler/src/entrypoint.rs:25-35 | validate then execute on the context in place equals the store function; a refused message leaves the context as it was |
| `HostContext.Context.SendTransfer` | ibc-apps/ics20-transfer/src/handler/send_transfer.rs:104-172 | coins escrowed or burnt, then the packet committed to, in place, equal the store function on every channel |
| `HostContext.Context.MsgTransfer` | ibc-apps/ics20-transfer/types/src/msgs/transfer.rs:51-86 | reading a transfer message and sending it equals the store function |
| `Tendermint.ClientStore.PruneOldest` | ibc-clients/ics07-tendermint/src/client_state/execution.rs:298-346 | the sorted early-break loop leaves exactly the states and metadata of the specified filter, and fails exactly when an expiry overflows first |
| `Tendermint.ClientStore.UpdateState` | ibc-clients/ics07-tendermint/src/client_state/execution.rs:118-177 | prune, then store header state, latest height and metadata unless the height is still present; after an overflow only the pruning has happened |
| `Tendermint.ClientStore.UpdateOnMisbehaviour` | ibc-clients/ics07-tendermint/src/client_state/execution.rs:185-205 | freezes the client and changes nothing else |
| `Tendermint.ClientStore.constructor` | ibc-clients/ics07-tendermint/src/client_state/execution.rs:73-110 | one consensus state with its metadata at the latest height |
| `Tendermint.RunKeepsInv` | ibc-clients/ics07-tendermint/src/client_state/execution.rs:73-177 | over every run of updates and misbehaviour reports timestamps increase with height, the latest height bounds every stored height and never decreases, metadata sits at exactly the stored heights, and a frozen client never changes |
| `Tendermint.InitialisedKeepsInv` | ibc-clients/ics07-tendermint/src/client_state/execution.rs:73-110 | a new client satisfies the store invariant |
| `Tendermint.UpdatedKeepsInv` | ibc-clients/ics07-tendermint/src/client_state/update_client.rs:100-165 | an update that shows no misbehaviour keeps the store invariant, also when pruning removes and the update re-adds its own height |
| `Tendermint.FitsBetween` | ibc-clients/ics07-tendermint/src/client_state/update_client.rs:120-164 | a header that shows no misbehaviour fits strictly between its stored neighbours in time |
| `Tendermint.UpgradeKeepsShape` | ibc-clients/ics07-tendermint/src/client_state/execution.rs:216-290 | an upgrade raises the latest height and keeps metadata and consensus states together |
| `Tendermint.PruningIsFilter` | ibc-clients/ics07-tendermint/src/client_state/execution.rs:308-343 | while timestamps increase with height the early-break loop is the filter "delete every expired state" on the states and on their update metadata |
| `Tendermint.UpdateKeepsTrustedAndLatest` | ibc-clients/ics07-tendermint/src/client_state/update_client.rs:16-96 | a validated update never prunes the state it trusts nor the latest one |
| `Tendermint.NoFalseFreezing` | ibc-clients/ics07-tendermint/src/client_state/misbehaviour.rs:128-148 | if all headers come from one history with one block per height and increasing times, no sequence of messages freezes the client |
| `ClientMessages.EvidenceFreezesExactly` | ibc-clients/ics07-tendermint/src/client_state/misbehaviour.rs:18-148 | where equal hashes mean equal blocks, two headers freeze a client if and only if it is active, each builds on a state it holds and still trusts and convinces the light client, they are of one chain in order, and no honest history contains both; else the message is an error, and freezing changes nothing else |
| `ClientMessages.HeaderFreezesExactly` | ibc-clients/ics07-tendermint/src/client_state/update_client.rs:16-165 | a header freezes a client if and only if the client is active, the header builds on a state it holds and convinces the light client, and no honest history contains the header and the stored states |
| `ClientMessages.ReachableHeaderFreezesExactly` | ibc-clients/ics07-tendermint/src/client_state/update_client.rs:100-165 | the same for every client of every reachable state that holds no upgraded state |
| `ClientMessages.HeaderIsTakenExactly` | ibc-core/ics02-client/src/handler/update_client.rs:14-75 | a header is taken exactly when the client is active, it convinces it, and, where it fits, the message is an update and not every unexpired state expires past the largest representable time |
| `ClientMessages.UpdateLeaves` | ibc-clients/ics07-tendermint/src/client_state/execution.rs:118-177 | an update keeps exactly the part of the store at or above a state still trusted, adds the state of the header stamped with the time and height of the host, raises the latest height and changes nothing else |
| `ClientMessages.UpgradeLeaves` | ibc-clients/ics07-tendermint/src/client_state/execution.rs:216-290 | an upgrade takes the parameters of the chain from the committed state and those of the client from the client, whatever the submitted state says, adds one state, and succeeds exactly for an active client, a greater height, valid proofs and consistent parameters |
| `ClientMessages.UpgradeIsCommitted` | ibc-clients/ics07-tendermint/src/client_state/common.rs:127-190 | an upgrade only goes through with a plan committed to by the latest state of the client |
| `ClientMessages.SoundVerifierKeepsTheClient` | ibc-clients/ics07-tendermint/src/client_state/validation.rs:68-150 | where the light client is sound for headers built on real blocks with their validators, no sequence of messages by anyone makes the client leave its honest chain or freeze |
| `ClientHistory.ClientIsCreatedExactly` | ibc-core/ics02-client/src/handler/create_client.rs:12-88 | in every reachable state a client is created exactly from an unfrozen state and a non-empty root, under an unused identifier, holding just that state stamped now |
| `ClientHistory.ClientsAlwaysWellKept` | ibc-clients/ics07-tendermint/src/client_state/execution.rs:73-290 | over every run of the pair, upgrades included, every client has metadata at exactly its stored heights, none above the latest, and timestamps increasing with height except across an upgraded state |
| `ClientHistory.NeverUpgradedIncreases` | ibc-clients/ics07-tendermint/src/client_state/execution.rs:262-284 | where no stored state comes from an upgrade the timestamps increase throughout |
| `ClientHistory.UpdatedWellKept` | ibc-clients/ics07-tendermint/src/client_state/update_client.rs:100-165 | an update without misbehaviour keeps that, also when pruning removes the states its header was compared with |
| `ClientHistory.UpgradedWellKept` | ibc-clients/ics07-tendermint/src/client_state/execution.rs:216-290 | so does an upgrade, whatever timestamp it brings |
| `ClientHistory.TimeoutNeedsNews` | ibc-core/ics04-channel/src/handler/send_packet.rs:57-82 | in every reachable state, while the sender's client is unchanged since a send, the packet can be due to time out only at a state later in time than the latest one and from before an upgrade |
| `ClientHistory.ExpiryNeedsNewsExactly` | ibc-core/ics04-channel/src/handler/send_packet.rs:57-82 | no packet fresh at the client's latest state has expired at a stored one if and only if no stored state is later in time than the latest one |
| `ClientHistory.UpgradeTurnsTimeBack` | ibc-clients/ics07-tendermint/src/client_state/execution.rs:262-284 | at an active client upgraded to an earlier timestamp a packet is sent and, with the client unchanged, at once passes every timeout check short of the proof at the older height |
| `ClientHistory.TurnedBackIsUpgraded` | ibc-clients/ics07-tendermint/src/client_state/execution.rs:216-290 | that client is what the upgrade handler makes of a freshly created one |
| `Merkle.VerifyMembership` | ibc-core/ics23-commitment/types/src/merkle.rs:56-123 | the upward loop accepts exactly when the fold of all levels reaches the root |
| `Merkle.MembershipIsLookup` | ibc-core/ics23-commitment/types/src/merkle.rs:56-123 | an accepted membership proof fixes the value found by top-down lookup, for any number of levels |
| `Merkle.NonMembershipIsLookup` | ibc-core/ics23-commitment/types/src/merkle.rs:125-192 | an accepted absence proof means the lookup reaches the last store and finds nothing |
| `Merkle.MembershipExactly` | ibc-core/ics23-commitment/types/src/merkle.rs:56-123 | where every entry of a tree has a single-level proof, a chained proof exists exactly when the lookup finds the value and path, root and value are not empty |
| `Merkle.NonMembershipExactly` | ibc-core/ics23-commitment/types/src/merkle.rs:125-192 | an absence is shown exactly when the lookup reaches the last store and a single-level proof by the left neighbour, or without one the right, shows the key absent there |
| `Merkle.ProofsNeverConflict` | ibc-core/ics23-commitment/types/src/merkle.rs:56-192 | one root never admits two values for a path, nor both a value and an absence |
| `Paths.PathRoundTrip` | ibc-core/ics24-host/types/src/path.rs:711-1072 | parsing the printed form of any path with valid identifiers returns that path |
| `Paths.PrintInjective` | ibc-core/ics24-host/types/src/path.rs:696-735 | no two distinct valid paths share a key |
| `Paths.ParseAcceptsOnlyValidPaths` | ibc-core/ics24-host/types/src/path.rs:711-1072 | the parser accepts only valid paths, and panics on exactly one input, the text "clients" |
| `Paths.ReprintsPathExactly` | ibc-core/ics24-host/types/src/path.rs:711-1072 | a parsed path prints as the text it was read from exactly when the numbers in that text carry no plus sign and no leading zero |
| `Paths.SignedNumberIsTaken` | ibc-core/ics24-host/types/src/path.rs:869-886 | the parser takes both, so two texts can name one path |
| `Paths.PrintedSegments` | ibc-core/ics24-host/types/src/path.rs:133-655 | the keys that other chains prove split into the segments ICS-24 lists |
| `Paths.PlainIdentifiers` | ibc-core/ics24-host/types/src/validate.rs:29-108 | an identifier of allowed ASCII characters is valid exactly within the length bounds of its kind |
| `IbcStore.IssuedIdentifiersAreValid` | ibc-core/ics24-host/types/src/identifiers/channel_id.rs:41-44 | every client, connection and channel identifier a chain hands out is valid |
| `Paths.IdentifierHasNoSlash` | ibc-core/ics24-host/types/src/validate.rs:10-24 | a valid identifier contains no path separator |
| `Denoms.ParseTrace` | ibc-apps/ics20-transfer/types/src/denom.rs:144-178 | the backward loop over pairs returns the trace specified by recursion, or fails with it |
| `Denoms.PrintAfterParse` | ibc-apps/ics20-transfer/types/src/denom.rs:293-318 | every accepted text is the text of what was parsed |
| `Denoms.ParseAfterPrint` | ibc-apps/ics20-transfer/types/src/denom.rs:293-356 | every canonical denomination (valid hops and a slash-free, non-blank base) is recovered from its text |
| `Denoms.ParsedIsCanonical` | ibc-apps/ics20-transfer/types/src/denom.rs:293-318 | the parser only builds denominations with valid hops and a slash-free, non-blank base |
| `Denoms.TextRoundTripExactly` | ibc-apps/ics20-transfer/types/src/denom.rs:293-356 | a denomination is recovered from its text if and only if it is canonical |
| `Denoms.HopIsPrinted` | ibc-apps/ics20-transfer/types/src/denom.rs:194-210 | each hop puts its port and channel in front of the printed denomination |
| `Denoms.SlashedNameCollides` | ibc-apps/ics20-transfer/types/src/denom.rs:347-356 | a native name with slashes prints like a traced denomination |
| `Denoms.OutAndBack` | ibc-apps/ics20-transfer/types/src/denom.rs:268-290 | a transfer out and back on one channel restores the exact denomination through escrow, mint, burn, unescrow |
| `Denoms.OutAndBackExactly` | ibc-apps/ics20-transfer/types/src/denom.rs:234-290 | the branches of the round trip for every trace path, both ways |
| `Denoms.TracePath.AddPrefix` | ibc-apps/ics20-transfer/types/src/denom.rs:129-131 | pushes one prefix |
| `Denoms.TracePath.RemovePrefix` | ibc-apps/ics20-transfer/types/src/denom.rs:122-127 | pops the prefix exactly when it is the first |
| `Versions.ComputePickVersion` | ibc-core/ics03-connection/types/src/version.rs:120-143 | the loop and sort return the specified pick |
| `Versions.VerifyIsSupported` | ibc-core/ics03-connection/types/src/version.rs:38-52 | the loop accepts exactly when identifier and all features are found |
| `Versions.PickVersionIsLeast` | ibc-core/ics03-connection/types/src/version.rs:120-178 | the pick is the first entry of least identifier among those sharing a feature with their first match; it fails exactly when none shares one |
| `Versions.PickIsWholeIntersection` | ibc-core/ics03-connection/types/src/version.rs:120-178 | the pick is every feature that the first entry of least identifier shares with its first match, in the supported order, and none is picked exactly when no entry shares one |
| `Versions.SingleEntriesKeepAll` | ibc-core/ics03-connection/types/src/version.rs:120-143 | with one entry a side the pick keeps every feature both list |
| `Versions.SupportedExactly` | ibc-core/ics03-connection/types/src/version.rs:38-52 | a version is supported exactly when it has a feature and each is listed by the first entry of its identifier |
| `Versions.PickedIsAcceptedByCounterparty` | ibc-core/ics03-connection/types/src/version.rs:38-52 | whatever is picked passes the counterparty's own list |
| `Versions.PickedIsAcceptedByOwnList` | ibc-core/ics03-connection/types/src/version.rs:120-178 | it passes the picker's own list exactly when the first entry of that identifier shares a feature |
| `Versions.DistinctIdentifiersAccept` | ibc-core/ics03-connection/types/src/version.rs:120-178 | with distinct identifiers it always passes the picker's own list |
| `Versions.RepeatedIdentifierCounterexample` | ibc-core/ics03-connection/types/src/version.rs:120-178 | with a repeated identifier the picker can pick a version its own list rejects |
| `Commitments.ComputePacketCommitment` | ibc-core/ics04-channel/types/src/commitment.rs:85-98 | the buffer filled in place holds the fixed-layout preimage, and its hash is the commitment |
| `Commitments.PreimageLayout` | ibc-core/ics04-channel/types/src/commitment.rs:85-98 | bytes 0-8, 8-16 and 16-24 are the big-endian timestamp, revision number and revision height, zero when unset, and the rest is the hash of the data |
| `Commitments.PreimageInjective` | ibc-core/ics04-channel/types/src/commitment.rs:85-98 | the preimage determines timeout height, timestamp and data hash |
| `Commitments.EqualCommitmentsOrCollision` | ibc-core/ics04-channel/types/src/commitment.rs:85-98 | equal commitments mean equal data and timeouts, or an explicit hash collision |
| `Commitments.TimeoutHeightEncodingInjective` | ibc-core/ics04-channel/types/src/timeout.rs:53-66 | the encoding of Never as (0,0) clashes with no height |
| `Heights.IterationKey` | ibc-core/ics24-host/types/src/path.rs:326-332 | the extended byte vector is the specified key |
| `Heights.IterationKeyOrder` | ibc-core/ics24-host/types/src/path.rs:326-332 | lexicographic order of iteration keys is exactly the order of heights |
| `Heights.ExpiryBoundary` | ibc-core/ics04-channel/types/src/timeout.rs:70-77 | the timeout itself is the last moment of receipt: expiry starts at the next height and the next nanosecond |
| `Heights.FromNanoseconds` | ibc-primitives/src/types/timestamp.rs:110-128 | every 64-bit count of nanoseconds gives a timestamp that gives it back, zero being no timestamp |
| `Heights.ExpiryIsMonotone` | ibc-primitives/src/types/timestamp.rs:199-211 | expiry by height or time is monotone |

## Left out

- Liveness: that a message which can succeed (`Acceptance`, `Openings`) is ever sent depends on relayers.
- Acceptance of timeouts on close: `OneProof.TimeoutOnCloseIsIdle` says exactly when they pass.
- SHA-256, ICS-23 single-level proofs and the Tendermint header verifier: library code, stated as contracts.
- Protobuf, JSON, borsh and SCALE encodings, and amounts as text: values are stored as such and their encodings taken to be
  injective.
- Commitment prefixes as keys: taken to be injective, though the source prints a prefix that is not UTF-8 as text.
- Error values: every error is one refusal; which error is returned is not distinguished.
- 64-bit overflow of sequences and of host times, and 256-bit overflow of amounts: numbers are unbounded except where a
  byte layout or a parser fixes the width.
- Signer validation, routing, and the host's own checks on accounts and amounts: a `Reply` that may veto.
- `validate_self_client` and the block delay function: parameters.
- Escrow accounts as payees of transfers or payments: users and escrow accounts are separate holders.
- Applications other than ICS-20: their callbacks answer arbitrarily and hold no coins.
- Packets sent on the transfer port other than through a transfer message, and transfers a host builds by hand: not part of
  the runs. A transfer built by hand with a canonical denomination and a timeout is the one read from its text; the others
  are covered by the lemmas on `send_transfer` alone.
- Store entries for ports and for upgraded states of the chain itself: no handler here writes them.
- ICS-721, wasm clients, queries, events, logging, derive macros, test kits: plumbing or a repetition of ICS-20.
- Safety.AcknowledgementIsGenuine: states equality of the whole packet only where the receiver's client is tracked too, because
  otherwise nothing ties that chain's deliveries to this one.
- HostContext.Context.ClientMessage: replaces a client's entry as one value; the entry-by-entry writes are in Tendermint.ClientStore.

# FAXE verified model

FAXE sends and receives faxes over SIP. This project models its protocol logic in Dafny
and proves what that logic keeps over every run. Each part comes in up to three files:
a model (`…Model.dfy`: what one step does, on values), theorems (`…Theorems.dfy`: what
every run keeps) and an imperative class that updates its fields in place and is proved
to take exactly the steps of the model. What must happen, and not only what must not, is
in `…Outcomes.dfy`, `…Progress.dfy` and `PlayoutArrivals.dfy`: exactly which packets are
heard and kept, which answers make a call, when a modem starts and a call ends, and that
an export which nothing disturbs publishes.

- **Receiving audio.** `Playout*` is the timestamp-indexed sample ring, refined to a map
  from positions to samples; `Rtp`, `Nat`, `Network*` decide which peer and which source
  feed it; `Stun` and `Udptl` are the neighbouring wire formats.
- **Calls.** `Service*` is the SIP service loop with its admission and capacity tables;
  `Call*` is media negotiation of one call; `Keepalive*` the TLS keepalive, poll by poll;
  `Receiver*` the configuration of the receiver.
- **Durable work.** `Queue*` is the outgoing queue with its cached view and crash
  recovery; `Reception*` the path of a reception between service, actor and inbox;
  `ServiceRefinement` and `ServiceRuns` put the service loop in the place of that service
  and prove the guarantees over their joint runs; `Publication*` and `Exporter` are the
  journalled publication of PDFs.
- **Formats.** `Sdp*` (with `Text`) prints, reads and answers session descriptions;
  `Ecm*` credits page data; `Tiff*` packs pixels and turns strips around.

Processes may die between any two effects, other programs may change foreign files,
messages may be delayed, and every external answer (sockets, credentials, the SIP stack,
the parser, the clock) is an argument of the step it influences.

Six statements one might expect do not hold of the code. Each is proved to fail, with
the condition under which it holds:

- A cleared job can come back into the view: exactly when the process dies before its
  send has ended (`ClearedReappearsIffDeathBeforeEnd`, `ClearedJobReappears`).
- A second file can be linked for one reception: only if saving `Published` failed after
  the link and the failure itself was saved (`AtMostOneDestination`,
  `LostPublicationIsRepeated`).
- A listed TIFF strip can be turned around in part: exactly when, somewhere before its
  end, a strip ends as it was last listed and no other is recorded to continue there
  (`ListedStripIsCutShortIff`, `ReplacedStripIsCutShort`). A strip that is the last listed
  at its start is always turned around as a whole (`ListedOnceIsWhole`).
- How a TLS stream is cut into reads can change what a CRLF means: exactly when the tick
  after a read gives the connection up, or sends a probe while the last CRLF has answered
  one and may still be half a ping (`SplitIsHarmlessIff`, `PingAcrossProbeIsTwoAnswers`).
  So a peer that only ever pings is given up exactly when a probe goes out between the
  halves of a ping whose first half was taken for an answer (`PingsAreNoPromiseIff`,
  `PingingPeerIsGivenUp`).
- A connected call does not always settle: exactly while its T.38 offer counts as accepted
  and the peer describes audio again, it waits for the limit of the whole call
  (`ConnectedCallsSettle`, `StalledStays`, `AcceptedCallStalls`).
- Our own session description is not always understood by its own reader: exactly when
  the local address is unspecified or multicast, or the port is zero (`OfferIsUnderstood`,
  `AnswerIsUnderstood`).

## Model

| member | source | states |
|---|---|---|
| `PlayoutRing.Playout.New` | crates/faxe-native/src/playout.rs:37-52 | a ring is built exactly for delays of 40 to 1000 ms, and is empty |
| `PlayoutRing.Playout.RestartStream` | crates/faxe-native/src/playout.rs:57-61 | the next timestamp continues at the end of what is buffered, or at the play position if that is later |
| `PlayoutRing.Playout.RewindIsSound` | crates/faxe-native/src/playout.rs:63-83 | before playout the window may move backwards: no slot then holds a sample of another position, because nothing is stored at or beyond the end |
| `PlayoutRing.Playout.Insert` | crates/faxe-native/src/playout.rs:63-94 | one packet leaves ring, window, deadline and counters exactly as the map model says, for every 32-bit timestamp; `InsertOutcome` says what that is |
| `PlayoutRing.Playout.Receive` | crates/faxe-native/src/playout.rs:96-106 | a frame is handed out exactly when its deadline has come, holding the buffered samples with silence for gaps |
| `PlayoutRing.Playout.TakeFrame` | crates/faxe-native/src/playout.rs:108-123 | the ring slots are emptied and the window slides exactly as the map model takes samples |
| `PlayoutRing.Playout.Drain` | crates/faxe-native/src/playout.rs:125-132 | terminates with every buffered sample emitted in order, in frames of 160 |
| `PlayoutModel.DepositStores` | crates/faxe-native/src/playout.rs:84-94 | what a packet adds is exactly its samples that fall in the window on free positions |
| `PlayoutModel.DepositCounts` | crates/faxe-native/src/playout.rs:84-94 | late, overflowing and duplicate samples are counted exactly |
| `PlayoutModel.InsertFacts` | crates/faxe-native/src/playout.rs:63-94 | no packet changes a buffered sample, the delay, or whether playout has begun |
| `PlayoutArrivals.InsertOutcome` | crates/faxe-native/src/playout.rs:63-94 | the whole effect of a packet: the window moves back to it exactly if playout has not begun, it lies before the window and everything fits; then every sample on a free position of the window is stored at its own, and late and overflowing ones are counted |
| `PlayoutArrivals.EarlierPacketIsKept` | crates/faxe-native/src/playout.rs:75-83 | an early packet before the window is kept whole, nothing of it late |
| `PlayoutModel.TakeSplit` | crates/faxe-native/src/playout.rs:108-123 | taking samples in two steps is taking them once: nothing is skipped or repeated between |
| `PlayoutTheorems.RunKeepsValid` | crates/faxe-native/src/playout.rs:57-132 | over any run every stored position lies between the play position and the end, and the end within the window |
| `PlayoutTheorems.SamplesAreConserved` | crates/faxe-native/src/playout.rs:63-132 | samples offered = late + overflowed + duplicate + played + still buffered, and samples emitted = played + missing |
| `PlayoutTheorems.BufferedSamplesSurvive` | crates/faxe-native/src/playout.rs:57-132 | a buffered sample stays unchanged until it is played at its own position |
| `PlayoutTheorems.PlaysEachPositionOnceInOrder` | crates/faxe-native/src/playout.rs:96-132 | once playout has begun, every position is played once and in order |
| `PlayoutTheorems.DrainEmitsEverything` | crates/faxe-native/src/playout.rs:125-132 | draining leaves nothing buffered and emits each buffered sample at its place |
| `PlayoutTheorems.PlayoutClock` | crates/faxe-native/src/playout.rs:63-106 | a frame is due exactly from first insert + delay + 20 ms for each frame already received |
| `PlayoutArrivals.EarlyPacketsAreKept` | crates/faxe-native/src/playout.rs:63-94 | before the first frame the order of arrival is no matter: as long as the packets fit together nothing is late or lost, and every position holds the sample first offered for it |
| `PlayoutTheorems.FramesCarrySlots` | crates/faxe-native/src/playout.rs:108-123 | every sample played stands at its place in the frames handed out, with silence for a gap |
| `PlayoutTheorems.SpliceJoinsTail` | crates/faxe-native/src/playout.rs:57-94 | packets of a new source land contiguously from the tail for every timestamp base, wrap included, with no late or duplicate sample |
| `PlayoutTheorems.SpliceIsLosslessIffItFits` | crates/faxe-native/src/playout.rs:57-94 | a splice stores all its samples and changes no counter exactly when it fits the window |
| `PlayoutTheorems.PositionsAreBounded` | crates/faxe-native/src/playout.rs:63-132 | positions exceed the samples emitted by at most the capacity, which keeps 32-bit distances exact within a call |
| `RtpPackets.Parse` | crates/faxe-native/src/network.rs:389-417 | nothing shorter than the fixed header is read, and a payload fits behind that header |
| `RtpPackets.ParseWritten` | crates/faxe-native/src/network.rs:389-417 | whatever contributing sources, header extension, marker and padding another sender adds, exactly its packet is recovered |
| `RtpPackets.ParsePlain` | crates/faxe-native/src/network.rs:212-232 | the reader returns exactly the packet the sender wrote |
| `NatPeer.Peer.Accept` | crates/faxe-native/src/nat.rs:131-155 | the decision and the new address, pin and candidate, by the step for which `HeardExactly` says when a packet is heard |
| `NatPeer.HostIsFixedAndPinIsFinal` | crates/faxe-native/src/nat.rs:131-155 | over any arrivals the peer's host never changes and a pinned address never moves |
| `NatPeer.PortIsLearnedFromThreePackets` | crates/faxe-native/src/nat.rs:136-155 | another port is adopted only on the third of three packets of one stream with consecutive sequence numbers from it |
| `NatPeer.HeardExactly` | crates/faxe-native/src/nat.rs:131-155 | over any arrivals a packet is heard exactly if it comes from the current address, or is the third in a row of one stream and consecutive from one other port of the host while ports are learned and none is pinned; exactly then the address moves there |
| `NatPeer.PinnedOnceHeard` | crates/faxe-native/src/nat.rs:131-155 | over any arrivals an address is pinned exactly once something has been heard |
| `Network.AudioNetwork.UpdateRemote` | crates/faxe-native/src/network.rs:190-210 | a re-INVITE keeps ring, send clock and, on the same address, the learned peer; a codec change makes the next source pending |
| `Network.AudioNetwork.Send` | crates/faxe-native/src/network.rs:212-232 | one frame becomes one packet with the next sequence number and sample clock, whatever was renegotiated |
| `Network.AudioNetwork.Replace` | crates/faxe-native/src/network.rs:286-350 | taking up a source retires the old one and splices its probation packets into the ring |
| `Network.AudioNetwork.Handle` | crates/faxe-native/src/network.rs:262-352 | one RTP packet selects, plays, joins the probation run, or is ignored, by the step for which `PeersPacketIsPlayed` and the switching theorems hold |
| `Network.AudioNetwork.ReceivePackets` | crates/faxe-native/src/network.rs:248-353 | at most 64 queued datagrams are taken per turn, each exactly once and in order |
| `Network.AudioNetwork.Receive` | crates/faxe-native/src/network.rs:234-241 | a turn hears the queued datagrams first and then hands out a frame exactly if one is due |
| `Network.AudioNetwork.Drain` | crates/faxe-native/src/network.rs:243-246 | the end of a call hears the queued datagrams and then emits everything buffered |
| `Network.SentStreamPassesProbation` | crates/faxe-native/src/network.rs:212-232 | the stream this endpoint sends passes the same probation test at a peer, wrap included |
| `NetworkTheorems.RunKeepsValid` | crates/faxe-native/src/network.rs:190-352 | the endpoint's invariant over any datagrams, renegotiations, frames played and drains |
| `NetworkTheorems.RingRunsUnderneath` | crates/faxe-native/src/network.rs:234-352 | every run of the endpoint is, for its ring, a run of the ring, so conservation, order and clock hold on it |
| `NetworkTheorems.BufferedAudioSurvives` | crates/faxe-native/src/network.rs:190-352 | through renegotiations and switches of source a buffered sample stays until it is played at its own position |
| `NetworkTheorems.PositionsFitACall` | crates/faxe-native/src/network.rs:234-352 | within the time of a call no ring position comes near 2^31 |
| `NetworkTheorems.CandidateTracksRivals` | crates/faxe-native/src/network.rs:286-350 | the candidate is always the latest consecutive run of rival packets with no accepted packet between |
| `NetworkTheorems.SwitchNeedsProbation` | crates/faxe-native/src/network.rs:286-350 | the selected source changes to another only on the third of three rival packets consecutive in sequence and sample clock |
| `NetworkTheorems.SwitchIsByRival` | crates/faxe-native/src/network.rs:282-350 | without a codec change, only a rival packet of the new source can switch to it |
| `NetworkTheorems.RetiredReturnsOnlyAfterDeparture` | crates/faxe-native/src/network.rs:282-350 | a retired source returns only after another switch or an endpoint change |
| `NetworkTheorems.SwitchesAreLossless` | crates/faxe-native/src/network.rs:286-350 | in any call, at every switch the three probation packets join the buffered tail, and nothing is lost exactly when they fit |
| `NetworkProgress.PeersPacketIsPlayed` | crates/faxe-native/src/network.rs:262-352 | a playable packet from the peer's own address, of the selected source or when there is none, is never turned away: its source is or becomes the selected one, and its samples on free positions of the window are in the ring afterwards |
| `NetworkProgress.LearnedPacketIsPlayed` | crates/faxe-native/src/network.rs:262-352 | so is the packet that teaches us the peer's port |
| `NetworkProgress.SwitchesExactlyAfterThree` | crates/faxe-native/src/network.rs:286-350 | over any run a rival packet takes over exactly if it is the third of three consecutive ones, and the old source is retired |
| `NetworkProgress.CodecChangeLetsNextSourceIn` | crates/faxe-native/src/network.rs:190-210 | after a codec change the first packet of a new source takes over at once, behind what is buffered |
| `NetworkProgress.NewAddressIsHeard` | crates/faxe-native/src/network.rs:190-210 | after a change of address the first packet from there is played |
| `NetworkProgress.QueuedPacketsAreHeard` | crates/faxe-native/src/network.rs:248-285 | of the datagrams queued exactly the readable RTP packets are handled, each once and in order, so that they are a run of the endpoint; the others are counted or belong to STUN |
| `Stun.ParseResponse` | crates/faxe-native/src/nat.rs:73-111 | the attribute walk yields the first XOR-mapped address, else the last plain one, and nothing after a malformed one |
| `Stun.OnlyOwnUsableAddresses` | crates/faxe-native/src/nat.rs:76-111 | an address is believed only from a success response to our own request, and only if it is usable |
| `Stun.AttributesAreReadBack` | crates/faxe-native/src/nat.rs:84-110 | attributes of any kinds and lengths are read back as written, padding skipped |
| `Stun.MappedAddressIsReadBack` | crates/faxe-native/src/nat.rs:90-108 | a server's XOR-mapped address is recovered from behind any other attributes, usable plain addresses included |
| `Stun.PlainAddressIsReadBack` | crates/faxe-native/src/nat.rs:90-110 | without an XOR-mapped address the last plain one is recovered from among any other attributes |
| `Stun.UnusableAddressRefuses` | crates/faxe-native/src/nat.rs:90-110 | one address that cannot be used refuses the whole response |
| `Udptl.PacketNetwork.Envelope` | crates/faxe-native/src/network.rs:455-478 | the datagram carries the most redundancy that fits the peer's limit, newest packets first |
| `Udptl.PacketNetwork.Send` | crates/faxe-native/src/network.rs:455-502 | a packet that fits is sent with the next sequence number and 1 to 6 repetitions, and joins the run of sends; one that cannot fit changes nothing |
| `Udptl.RefusedExactlyIfOversized` | crates/faxe-native/src/network.rs:455-478 | a packet is refused exactly if it exceeds the limit alone and with every redundancy; otherwise it goes out |
| `Udptl.EverySendCarries` | crates/faxe-native/src/network.rs:455-502 | over any run of sends every datagram carries its own packet and the ones just before it, in order |
| `Udptl.LostPacketsAreRecovered` | crates/faxe-native/src/network.rs:455-541 | over any run of sends and any losses, repetitions and reorderings, a receiver that knows only the 16-bit numbers delivers every packet once and in order, across wrap, exactly when each datagram that skips some repeats all it skips |
| `SipService.Service.OnInvite` | crates/faxe-native/src/sip/service.rs:793-1002 | the answer to an INVITE, and the tables that answer leaves |
| `ServiceTheorems.InviteOutcome` | crates/faxe-native/src/sip/service.rs:793-1002 | 100 opens one admission in the first free slot, 488 uses that slot up, and after any other answer every table is as before |
| `ServiceOutcomes.AdmitOutcome` | crates/faxe-native/src/sip/service.rs:1183-1234 | an answer makes a call of the admission's account exactly if the offer is pending, persisted, in time, not hung up and answerable; otherwise every table but the admission stays, and a persisted reception is ended at once |
| `ServiceOutcomes.AdmissionsAfter` | crates/faxe-native/src/sip/service.rs:1129-1503 | after any event exactly those offers are pending that were and are not over, and the one just made |
| `ServiceOutcomes.CallsAfter` | crates/faxe-native/src/sip/service.rs:1129-1503 | after any event exactly those calls are there that were and have not ended by sleep, stop, loss of their account or their outcome, and those that have begun |
| `ServiceOutcomes.CallLasts` | crates/faxe-native/src/sip/service.rs:1129-1503 | over any run a call is there, as it was, exactly as long as nothing ends it |
| `ServiceOutcomes.AnsweredInTimeIsACall` | crates/faxe-native/src/sip/service.rs:1183-1234 | an offer still pending when it is answered in time is a call of its account, over any run, until something ends it |
| `ServiceOutcomes.SubmitOutcome` | crates/faxe-native/src/sip/service.rs:1237-1253 | a send is queued last exactly if calls and queue leave room |
| `ServiceOutcomes.PrepareOutcome` | crates/faxe-native/src/sip/service.rs:1442-1457 | every send that can be connected is in a call of its account and token, those that must wait keep their order, and exactly the refused ones are answered |
| `ServiceOutcomes.FailSendsOutcome` | crates/faxe-native/src/sip/service.rs:1274-1342 | a lost account answers exactly its own queued sends and keeps the others in order |
| `ServiceOutcomes.SlotsAfter` | crates/faxe-native/src/sip/service.rs:1274-1440 | free slots are used up by calls set up, dropped when configuration or connection changes, and otherwise kept |
| `SipService.Service.Admit` | crates/faxe-native/src/sip/service.rs:1183-1234 | on the tables: a call of the admission's account exactly if still pending, persisted, in time, not hung up and answerable; otherwise a persisted reception is ended at once |
| `SipService.Service.Submit` | crates/faxe-native/src/sip/service.rs:1237-1253 | a send is queued below the outgoing limit and otherwise answered at once |
| `SipService.Service.Wake` | crates/faxe-native/src/sip/service.rs:1129-1152 | after a sleep every call is ended and every admission withdrawn, each once |
| `SipService.Service.LoseAccount` | crates/faxe-native/src/sip/service.rs:1274-1342 | a lost account fails exactly its own sends, calls and admissions, leaving the others in order |
| `SipService.Service.FillSlots` | crates/faxe-native/src/sip/service.rs:1418-1440 | slots are bound up to the incoming limit, unless sockets run out |
| `SipService.Service.PrepareSends` | crates/faxe-native/src/sip/service.rs:1442-1457 | each queued send is connected, kept in order, or failed, exactly once |
| `SipService.Service.ExpireAdmissions` | crates/faxe-native/src/sip/service.rs:1469-1489 | exactly the admissions past their deadline or hung up are withdrawn |
| `SipService.Service.TickCalls` | crates/faxe-native/src/sip/service.rs:1490-1503 | exactly the calls that reached an outcome end |
| `SipService.Service.StopService` | crates/faxe-native/src/sip/service.rs:1655-1683 | after a stop nothing is open and every send and every persisted reception has had exactly one ending |
| `ServiceTheorems.AdmissionAccounting` | crates/faxe-native/src/sip/service.rs:793-1503 | in every reachable state the call identifiers are the disjoint union of pending admissions and incoming calls, and both capacity limits hold |
| `ServiceTheorems.EachSendEndsOnce` | crates/faxe-native/src/sip/service.rs:737-773 | every accepted send is queued, in a call, or answered, never two of these, and is answered once |
| `ServiceTheorems.EachReceptionEndsOnce` | crates/faxe-native/src/sip/service.rs:1183-1234 | every persisted reception is in a call until it has its one ending, whatever the order of events |
| `ServiceTheorems.ShutdownSettles` | crates/faxe-native/src/sip/service.rs:1655-1683 | a stop keeps the accounting and leaves every table empty |
| `CallModel.GlareDelay` | crates/faxe-native/src/sip.rs:195-204 | the wait after a collision: 0 to 2 s for the answering side, 2.1 to 4 s for the caller, in steps of 10 ms |
| `CallPumps.CallPump.Settle` | crates/faxe-native/src/sip.rs:396-458 | a final response moves the call by exactly the step for which `FinalResponsesDecide` and the budget of offers are proved; a stale or provisional one changes nothing |
| `CallPumps.CallPump.Negotiate` | crates/faxe-native/src/sip.rs:339-390 | a negotiation builds or updates one network, or ends the call, by exactly the step for which one modem on one medium is proved |
| `CallPumps.CallPump.Hangup` | crates/faxe-native/src/sip.rs:312-332 | an unanswered call refused with 488 is placed once more, any other ending is final |
| `CallPumps.CallPump.Choose` | crates/faxe-native/src/sip.rs:492-568 | the fax is started, T.38 offered or the call given up, by the step for which `ModemStartsExactly`, `OfferIsMadeExactly` and `TurnEndsIff` say when |
| `CallPumps.CallPump.Step` | crates/faxe-native/src/sip.rs:279-568 | a whole turn over any queued events is one step of the run theorems, and tells whether the call goes on |
| `CallTheorems.NegotiationIsBoundedAndSafe` | crates/faxe-native/src/sip.rs:279-568 | over any events at most three T.38 offers, one G.711 restoration and one modem, on the peer's medium and never while an offer is open; audio in automatic mode only after a refusal |
| `CallTheorems.ModemIsForGood` | crates/faxe-native/src/sip.rs:359-363 | a started modem is never replaced |
| `CallTheorems.FinalResponsesDecide` | crates/faxe-native/src/sip.rs:396-458 | an accepted offer means the peer's description is T.38 at that moment, a refused one that it is audio; only a collision postpones, by the prescribed time |
| `CallOutcomes.ResponsesDecideExactly` | crates/faxe-native/src/sip.rs:396-458 | a final response takes up, refuses, postpones or replaces the offer, each exactly in its case |
| `CallOutcomes.OpenOfferFollows` | crates/faxe-native/src/sip.rs:339-350 | while open, an offer awaits the response to the INVITE last sent for it, and counts as taken up exactly if the last word on the medium was of its kind |
| `CallOutcomes.DescriptionIsTaken` | crates/faxe-native/src/sip.rs:339-390 | before a modem runs every description is taken and its network built |
| `CallOutcomes.RefusedCallIsPlacedAgain` | crates/faxe-native/src/sip.rs:312-332 | an unanswered call refused with 488 goes on with T.38, once |
| `CallOutcomes.EventEndsIff` | crates/faxe-native/src/sip.rs:300-470 | exactly which events end a call |
| `CallOutcomes.ConnectedExactly` | crates/faxe-native/src/sip.rs:300-311 | a call is connected from the first turn that hears so |
| `CallOutcomes.TurnEndsIff` | crates/faxe-native/src/sip.rs:279-568 | a turn ends the call exactly if it is cancelled or out of time, one of the listed events occurs, its open offer fails, it has no usable medium, or the stack fails what is due |
| `CallOutcomes.ModemStartsExactly` | crates/faxe-native/src/sip.rs:492-568 | the turn that finds the medium for it starts the modem, on T.38 with no offer open, on audio where asked for or after a refusal, exactly unless the modem cannot be started |
| `CallOutcomes.OfferIsMadeExactly` | crates/faxe-native/src/sip.rs:525-552 | T.38 is offered by exactly the turns that find it due |
| `CallOutcomes.AcceptedOfferStartsModem` | crates/faxe-native/src/sip.rs:396-458 | an offer accepted with a T.38 description starts the modem in the same turn |
| `CallOutcomes.RefusedOfferFallsBack` | crates/faxe-native/src/sip.rs:396-458 | an offer refused by a peer on audio starts the audio modem in the same turn |
| `CallOutcomes.OffersAreCancelled` | crates/faxe-native/src/sip.rs:473-491 | an open offer is cancelled after 5 s, exactly |
| `CallOutcomes.CallsEndExactly` | crates/faxe-native/src/sip.rs:279-568 | over any run a call is over exactly if one of its turns had to end it |
| `CallOutcomes.StartedModemRunsOn` | crates/faxe-native/src/sip.rs:492-568 | over any run, once a turn has to start a modem the call has that modem and goes on until a later turn must end it |
| `CallOutcomes.PeersOffersAreLetThrough` | crates/faxe-native/src/sip.rs:1538-1588 | in every call the peer's offer is let through exactly if it is for the medium in use, or the mode is automatic and no modem runs yet |
| `CallTheorems.OpenOffersSettle` | crates/faxe-native/src/sip.rs:473-491 | an offer open too long ends the call or has just been cancelled, and no fax starts on it |
| `CallTheorems.MediumIsKept` | crates/faxe-native/src/sip.rs:1538-1588 | with a modem running, only the peer's offers for the modem's own medium are let through |
| `CallTheorems.AudioFollowsUpdates` | crates/faxe-native/src/sip.rs:351-358 | a running audio modem follows every audio update of the peer |
| `CallSettling.ConnectedCallsSettle` | crates/faxe-native/src/sip.rs:279-568 | whatever the peer and the stack do, a connected call is over or its modem runs within a fixed time, exactly unless its offer is accepted while the peer describes audio |
| `CallSettling.StalledStays` | crates/faxe-native/src/sip.rs:525-561 | such a call stays as it is through every turn that hears nothing, until the limit of the whole call |
| `CallSettling.AcceptedCallStalls` | crates/faxe-native/src/sip.rs:396-458 | a peer that accepts T.38 and describes audio again before the next turn brings it about |
| `TlsKeepalive.Keepalive.Crlf` | crates/faxe-native/src/tls.rs:62-78 | a CRLF is taken by exactly the step whose history reading is `FieldsAreTheReading`; the second of two adjacent ones is answered |
| `TlsKeepalive.Keepalive.Tick` | crates/faxe-native/src/tls.rs:85-104 | the verdict at a moment, and that a probe is sent exactly when due |
| `TlsKeepalive.Keepalive.NextDeadline` | crates/faxe-native/src/tls.rs:50-57 | a tick does something exactly from this moment on |
| `TlsKeepalive.Transport.Receive` | crates/faxe-native/src/tls.rs:454-520 | received bytes are split into CRLF tokens and messages until one is incomplete |
| `TlsKeepalive.Transport.Poll` | crates/faxe-native/src/tls.rs:431-525 | one turn takes everything received, answers pings, and only then judges the time, by the step for which the run theorems are proved |
| `KeepaliveTheorems.FieldsAreTheReading` | crates/faxe-native/src/tls.rs:23-83 | after any tokens the few fields equal what the whole history means when adjacent CRLFs are read as one peer ping |
| `KeepaliveTheorems.DeadExactlyAfterAnAnswer` | crates/faxe-native/src/tls.rs:85-104 | the connection is given up exactly when a lone CRLF once answered a probe and the latest probe has gone unanswered for the timeout |
| `KeepaliveTheorems.PairLeavesNoTrace` | crates/faxe-native/src/tls.rs:59-78 | two adjacent CRLFs restore the state before them and are answered once |
| `KeepaliveTheorems.EachPingIsAnsweredOnce` | crates/faxe-native/src/tls.rs:457-465 | over any tokens, the replies sent are as many as the peer's pings |
| `KeepaliveTheorems.ProbesAreTheLatest` | crates/faxe-native/src/tls.rs:62-104 | an outstanding or remembered probe is always the latest one sent |
| `KeepaliveTheorems.DeadlineIsExact` | crates/faxe-native/src/tls.rs:50-57 | nothing happens before the deadline and something does at it |
| `KeepaliveTheorems.ScansJoin` | crates/faxe-native/src/tls.rs:454-520 | without a tick between them, two scans are one, however the bytes are cut |
| `KeepaliveRuns.SplitIsHarmlessIff` | crates/faxe-native/src/tls.rs:85-104 | cutting a read in two changes no reply and no message, whatever follows, exactly when the tick between neither gives up nor sends a probe while the last CRLF has answered one |
| `KeepaliveRuns.QuietSplitIsOnePoll` | crates/faxe-native/src/tls.rs:431-525 | with nothing due between them two polls are one in everything |
| `KeepaliveRuns.ReadsMayBeSplitAnywhere` | crates/faxe-native/src/tls.rs:431-525 | over a whole run without such a tick, replies, messages and what is left are those of the byte stream taken at once |
| `KeepaliveRuns.PollsAreTokens` | crates/faxe-native/src/tls.rs:431-525 | over any run of polls the keepalive is what its tokens and probes, in order, make of it, and a connection is given up only on such a verdict |
| `KeepaliveRuns.PingsAreNoPromiseIff` | crates/faxe-native/src/tls.rs:59-104 | a peer whose CRLFs come only in pairs is never given up, exactly when no probe goes out between the halves of a ping whose first half was taken for an answer |
| `KeepaliveRuns.PingingPeerKeepsConnection` | crates/faxe-native/src/tls.rs:431-525 | under that condition no run of polls gives it up |
| `KeepaliveRuns.PingAcrossProbeIsTwoAnswers` | crates/faxe-native/src/tls.rs:92-98 | the same four bytes are one ping when read at once and two answers with a probe due between them |
| `KeepaliveRuns.PingingPeerIsGivenUp` | crates/faxe-native/src/tls.rs:85-104 | a peer that sent one ping and nothing else is given up, every probe being due |
| `ReceiverConfiguration.Receiver.Refresh` | crates/faxe-engine/src/runtime.rs:941-1011 | a refresh outdates earlier lookups and either tells the service or leaves at most one lookup under way, as `ConfigurationConverges` needs |
| `ReceiverConfiguration.Receiver.Found` | crates/faxe-engine/src/runtime.rs:983-1005 | an answer is installed, dropped at a stop, or replaced by a new refresh |
| `ReceiverConfiguration.Receiver.SaveProfile` | crates/faxe-engine/src/runtime.rs:815-825 | saving a profile refreshes the receiver exactly when it is the receiving one |
| `ReceiverConfiguration.Receiver.Configure` | crates/faxe-engine/src/runtime.rs:843-861 | saving valid settings refreshes the receiver, invalid ones change nothing |
| `ReceiverTheorems.ConfigurationConverges` | crates/faxe-engine/src/runtime.rs:815-1011 | at most one lookup is under way, and once none is the service was last told exactly what is saved, unless the last attempt failed |
| `ReceiverTheorems.StaleIsLastAttempt` | crates/faxe-engine/src/runtime.rs:941-1011 | over any run the configuration counts as not given exactly if the last attempt to give it failed |
| `ReceiverTheorems.ToldUnlessLastAttemptFailed` | crates/faxe-engine/src/runtime.rs:941-1011 | once no lookup is under way the service was last told exactly what is saved, if only the last attempt got on |
| `ReceiverTheorems.FoundPasswordIsGiven` | crates/faxe-engine/src/runtime.rs:983-1005 | the password found for what is still saved is what the service is told |
| `ReceiverTheorems.RefreshLooksUp` | crates/faxe-engine/src/runtime.rs:941-978 | a refresh that needs a password begins the one lookup, for what is saved now |
| `ReceiverTheorems.InstalledIsCurrent` | crates/faxe-engine/src/runtime.rs:983-1005 | a looked-up configuration is installed only for settings and a profile that are still the saved ones, failures included |
| `ReceiverTheorems.ChangesOutdateLookups` | crates/faxe-engine/src/runtime.rs:941-978 | a change of settings or of the receiving profile makes a lookup under way worthless |
| `ReceiverTheorems.NothingIsGivenAfterStop` | crates/faxe-engine/src/runtime.rs:715-740 | after a stop nothing more is given to the service |
| `Queue.Store.Recover` | crates/faxe-engine/src/store.rs:82-87 | every interrupted row is closed and no other row changes |
| `Queue.Store.ClaimNext` | crates/faxe-engine/src/store.rs:221-242 | the oldest waiting row becomes active, or nothing is waiting |
| `Queue.Store.UpdateJob` | crates/faxe-engine/src/store.rs:244-259 | a job is written back with the status its state implies, or its row is gone |
| `Queue.Store.ClearQueue` | crates/faxe-engine/src/store.rs:176-181 | exactly the rows not active are deleted, and counted |
| `Queue.Actor.Open` | crates/faxe-engine/src/runtime.rs:540-601 | a new process starts from the recovered table |
| `Queue.Actor.ClearQueue` | crates/faxe-engine/src/runtime.rs:894-903 | every running send is cancelled and marked, everything else goes |
| `Queue.Actor.Retry` | crates/faxe-engine/src/runtime.rs:910-922 | only a finished job is queued again, as a new one |
| `Queue.Actor.Cancel` | crates/faxe-engine/src/runtime.rs:923-940 | a running send is cancelled, a waiting one closed, anything else refused |
| `Queue.Actor.StartSend` | crates/faxe-engine/src/runtime.rs:1221-1285 | one turn claims the oldest waiting job if there is room, and nothing else |
| `Queue.Actor.Progress` | crates/faxe-engine/src/runtime.rs:1352-1436 | a report is shown, and stored unless it is mere activity or the job is being cleared; it fails only if the row is gone |
| `Queue.Actor.Sent` | crates/faxe-engine/src/runtime.rs:1437-1472 | the final state is recorded and shown, or a cleared row removed |
| `QueueTheorems.ViewAgreesWithStore` | crates/faxe-engine/src/runtime.rs:769-775 | between steps of any run the view is exactly the stored jobs not being cleared, equal but for activity, and the running sends are exactly the active rows |
| `QueueTheorems.AtMostOneDial` | crates/faxe-engine/src/runtime.rs:1221-1285 | over any process deaths and reopenings no job reaches the backend twice |
| `QueueTheorems.GuardIsExact` | crates/faxe-engine/src/runtime.rs:1222-1231 | the cached view shows a waiting job exactly when the table has one |
| `QueueTheorems.ClaimsTheOldest` | crates/faxe-engine/src/store.rs:221-242 | with room and work, the oldest waiting job is claimed and no other row changes |
| `QueueTheorems.JobsOnlyMoveForward` | crates/faxe-engine/src/store.rs:82-87 | over any run a job goes from waiting to active to finished to removed and never back |
| `QueueTheorems.ClearingEmptiesTheQueue` | crates/faxe-engine/src/runtime.rs:894-903 | after clearing, the view is empty and only running sends are left to end |
| `QueueTheorems.ClearedRowIsRemoved` | crates/faxe-engine/src/runtime.rs:1465-1471 | the row of a cleared job goes when its send ends |
| `QueueTheorems.ClearedReappearsIffDeathBeforeEnd` | crates/faxe-engine/src/runtime.rs:894-903 | a cleared job is shown again in a run exactly when the process dies before its send has ended |
| `QueueTheorems.ClearedJobReappears` | crates/faxe-engine/src/store.rs:82-87 | clearing during a send and dying shows the job as interrupted |
| `QueueTheorems.AJobIsActive` | crates/faxe-engine/src/runtime.rs:1221-1245 | the first send of an empty queue is such a state |
| `QueueTheorems.ProgressNeverGoesBack` | crates/faxe-engine/src/runtime.rs:1352-1436 | while a job is active its acknowledged pages, wire bytes and page fraction never decrease over any run |
| `QueueTheorems.DeliveredExactlyOnFullReceipt` | crates/faxe-engine/src/runtime.rs:1437-1472 | a job ends delivered exactly when the receipt covers its document |
| `QueueOutcomes.SendEndsExactly` | crates/faxe-engine/src/runtime.rs:1437-1472 | a send ends delivered, failed, interrupted by a stop or cancelled, each exactly in its case and with the pages known to have arrived, and nothing else changes |
| `QueueOutcomes.ReportsAreShown` | crates/faxe-engine/src/runtime.rs:1352-1436 | after any reports a job shows the most pages and bytes reported, and until a page is acknowledged the stage it is at |
| `QueueOutcomes.ReportIsRecorded` | crates/faxe-engine/src/runtime.rs:1352-1436 | a report is shown at once, and stored unless it is mere activity or the job is being cleared |
| `QueueOutcomes.PageIsShownIff` | crates/faxe-engine/src/runtime.rs:1352-1436 | a page report is shown exactly if it makes sense and is not behind the one shown |
| `QueueOutcomes.EnqueueOutcome` | crates/faxe-engine/src/runtime.rs:904-909 | a new job waits behind all others, and is shown |
| `QueueOutcomes.RetryOutcome` | crates/faxe-engine/src/runtime.rs:910-922 | exactly a finished job is sent again, as a new one behind all others |
| `QueueOutcomes.CancelOutcome` | crates/faxe-engine/src/runtime.rs:923-940 | cancelling stops a running send, closes a waiting one, and does nothing otherwise |
| `QueueOutcomes.DialOrCancelled` | crates/faxe-engine/src/runtime.rs:1247-1256 | a worker that may dial does so once; after a stop or a clearing none that is still starting does |
| `QueueOutcomes.UnspawnedHasFailed` | crates/faxe-engine/src/runtime.rs:1221-1285 | a claimed job whose worker cannot be spawned has failed and leaves its place |
| `QueueOutcomes.ReopenOutcome` | crates/faxe-engine/src/store.rs:82-87 | a new process shows every stored job, exactly those being sent as interrupted |
| `QueueTheorems.DeliveredMeansDialledOnce` | crates/faxe-engine/src/runtime.rs:1437-1472 | a job recorded as delivered was dialled exactly once with all pages acknowledged |
| `QueueTheorems.CancelledBeforeDialIsNeverDialled` | crates/faxe-engine/src/runtime.rs:1247-1256 | a job cancelled before its worker reached the backend is never dialled, now or later |
| `ReceptionInbox.Inbox.Open` | crates/faxe-engine/src/store.rs:88-95 | every record still receiving is closed and no other changes |
| `ReceptionInbox.Inbox.OfferIncoming` | crates/faxe-engine/src/runtime.rs:1048-1073 | an offer is held unless the actor is stopping or it is too late |
| `ReceptionInbox.Inbox.AcceptIncoming` | crates/faxe-engine/src/runtime.rs:1082-1121 | the record is written before the answer, and closed here if nobody can take the answer |
| `ReceptionInbox.Inbox.Received` | crates/faxe-engine/src/runtime.rs:1511-1591 | the one ending of a reception closes its record |
| `ReceptionTheorems.EventsFollowRecords` | crates/faxe-engine/src/runtime.rs:1082-1121 | every event under way is about a recorded reception |
| `ReceptionTheorems.OneEndingIsOnItsWay` | crates/faxe-engine/src/runtime.rs:1082-1121 | at every moment a record is receiving exactly when one ending is on its way to it, never two |
| `ReceptionTheorems.ClosedForGood` | crates/faxe-engine/src/runtime.rs:1511-1591 | a record leaves receiving once and never returns |
| `ReceptionTheorems.OffersAreDecidedExactly` | crates/faxe-engine/src/runtime.rs:1048-1121 | an offer is held, recorded and answered exactly while its caller is there and the actor is not stopping; what cannot be recorded is refused |
| `ReceptionTheorems.AnswersAreDelivered` | crates/faxe-engine/src/runtime.rs:1110-1121 | the answer reaches a service that is up; otherwise its record is closed |
| `ReceptionTheorems.AcceptedOfferIsReceived` | crates/faxe-engine/src/runtime.rs:1048-1121 | left undisturbed an accepted offer becomes a call with an open record, and its end closes the record |
| `ReceptionTheorems.OnlyStrandedStayOpen` | crates/faxe-native/src/sip/service.rs:1655-1683 | after the service has ended and all events are heard, exactly the receptions whose answer it dropped are open, and the next opening closes them |
| `ReceptionTheorems.OrderlyStopsCloseEverything` | crates/faxe-engine/src/runtime.rs:715-740 | when the service only ever ends by the actor's stop, hearing all events closes every reception |
| `ServiceRefinement.StageIsService` | crates/faxe-native/src/sip/service.rs:793-1683 | every stage of the service loop, answers and the stop included, changes what is between loop and engine as some steps of the service assumed by the reception model do |
| `ServiceRuns.EveryStageIsEnabled` | crates/faxe-engine/src/runtime.rs:1048-1121 | over any joint run of loop and engine, process deaths included, the loop takes an answer only for an offer of its own that was not answered before |
| `ServiceRuns.EngineSeesReceptions` | crates/faxe-engine/src/runtime.rs:1048-1121 | the engine's side of a joint run is a run of the reception model |
| `ServiceRuns.OneEndingIsOnItsWay` | crates/faxe-native/src/sip/service.rs:1183-1234 | with the concrete loop, at every moment a record is receiving exactly when one ending is on its way to it, never two |
| `ServiceRuns.OnlyStrandedStayOpen` | crates/faxe-native/src/sip/service.rs:1655-1683 | with the concrete loop, once all is taken and heard exactly the receptions whose answer a stopped loop dropped are open, and the next opening closes them |
| `PublicationTheorems.AtMostOneDestination` | crates/faxe-engine/src/export.rs:294-391 | over any deaths and retries at most one file is linked for a reception, unless a failed save overwrote the record of its publication |
| `PublicationTheorems.PublishedIsTruthful` | crates/faxe-engine/src/export.rs:294-391 | a published record names a file that exists and is the internal PDF of that reception, with its page count and outcome |
| `PublicationTheorems.ReportDescribesPdf` | crates/faxe-engine/src/export.rs:254-268 | a rendered PDF is always accompanied by the report describing it |
| `PublicationTheorems.NothingForeignIsTouched` | crates/faxe-engine/src/export.rs:294-391 | no step replaces or deletes a visible file or one of another program |
| `PublicationTheorems.ForeignFilesSurvive` | crates/faxe-engine/src/export.rs:294-391 | over any run of this program, files that were there before are unchanged |
| `PublicationTheorems.FinishedExportIsNoOp` | crates/faxe-engine/src/export.rs:294-310 | exporting a finished reception again changes nothing |
| `PublicationTheorems.DeathAfterLinkRecovers` | crates/faxe-engine/src/export.rs:318-334 | dying after a link and running again settles on the linked file without a second link |
| `PublicationTheorems.LinksFirstFree` | crates/faxe-engine/src/export.rs:362-391 | occupied names are walked past and the first free one is linked |
| `PublicationProgress.ExportEnds` | crates/faxe-engine/src/export.rs:294-391 | from whatever earlier exports left, an export that nothing disturbs ends exactly as stated in one piece, apart from the steps |
| `PublicationProgress.UndisturbedIsRun` | crates/faxe-engine/src/export.rs:294-391 | that is a run of the machine's own steps |
| `PublicationProgress.UndisturbedFailsIff` | crates/faxe-engine/src/export.rs:294-391 | it fails exactly while the reception is under way, or when the pages cannot be drawn, folder or stem are missing, a foreign file has its staging or temporary name, or no name is free |
| `PublicationProgress.PdfIsPublished` | crates/faxe-engine/src/export.rs:350-391 | a reception's PDF is published under the first free name, its staging copy goes, and no other file changes |
| `PublicationProgress.PagesArePublished` | crates/faxe-engine/src/export.rs:254-391 | with no PDF yet, the pages are drawn, described and published in one go |
| `PublicationProgress.EmptyReceptionIsRecorded` | crates/faxe-engine/src/export.rs:335-338 | a reception without pages is recorded as that and nothing is written |
| `PublicationProgress.FailureIsRecorded` | crates/faxe-engine/src/runtime.rs:1312-1326 | a failure marks an announced name and otherwise the record, and removes a temporary file |
| `PublicationTheorems.LostPublicationIsRepeated` | crates/faxe-engine/src/runtime.rs:1312-1332 | a link whose record was overwritten by a saved failure is followed by a second link on retry |
| `PublicationSafety.RunKeepsInv` | crates/faxe-engine/src/export.rs:254-391 | the relation between journal, spool, folder and program position over any run |
| `Exporter.Computer.Export` | crates/faxe-engine/src/export.rs:294-391 | one export, dying or failing anywhere, leaves the disk consistent and reports success only for a settled record; undisturbed it ends exactly as `ExportEnds` says |
| `Exporter.Computer.PublishUnderFreeName` | crates/faxe-engine/src/export.rs:362-391 | the suffix loop publishes under a name nobody had, or ends with the failure recorded; undisturbed, under the first free one |
| `Exporter.Computer.StageCopy` | crates/faxe-engine/src/export.rs:350-361 | a complete copy appears under the hidden staging name before any visible name is used; undisturbed, exactly unless the folder cannot take it |
| `Exporter.Computer.RenderSpool` | crates/faxe-engine/src/export.rs:110-268 | wherever rendering ends there is no PDF without the report describing it, and an empty reception is recorded as such |
| `Exporter.Computer.RetryAll` | crates/faxe-engine/src/runtime.rs:1286-1332 | receptions begin, end and are exported in any order, each with its own image: at most one file is linked for each, and what is recorded as published exists |
| `SdpTheorems.OfferIsUnderstood` | crates/faxe-native/src/sdp.rs:41-99 | reading our own offer recovers address, kind, codec and limits exactly when the address is usable and the port not zero |
| `SdpTheorems.AnswerMirrorsTheOffer` | crates/faxe-native/src/sdp.rs:69-93 | every readable offer with an acceptable medium is answered with as many media in the same order, all but the selected one refused |
| `SdpTheorems.AnswerIsUnderstood` | crates/faxe-native/src/sdp.rs:69-99 | reading our answer recovers the kind, codec and bit rate selected from the offer, exactly when the address is usable and the port not zero |
| `SdpTheorems.FieldIsFound` | crates/faxe-native/src/sdp.rs:242-249 | an attribute is found by its key when no earlier key is the same |
| `Sdp.ReadSession` | crates/faxe-native/src/sdp.rs:116-158 | the line loop reads a session or the first error |
| `Sdp.Choose` | crates/faxe-native/src/sdp.rs:161-238 | the first acceptable medium in the peer's order, or the error that ends the search |
| `Sdp.WriteAnswer` | crates/faxe-native/src/sdp.rs:69-93 | the answer text, or the error of reading or selecting |
| `Text.UnlinesReadsBack` | crates/faxe-native/src/sdp.rs:121-121 | printed lines are split back one for one |
| `Text.JoinSplits` | crates/faxe-native/src/sdp.rs:124-124 | words joined by spaces are split back in order |
| `Text.ParsesDecimal` | crates/faxe-native/src/sdp.rs:130-132 | a printed number below the bound is read back |
| `EcmModel.TotalRows` | crates/faxe-native/src/fax/progress.rs:137-143 | the page's length scaled to the resolution sent and rounded down, at least one and within 32 bits |
| `EcmProgress.Progress.Frame` | crates/faxe-native/src/fax/progress.rs:45-97 | one frame in either direction is taken, over a 256-entry array, by exactly the step for which `PageIsCreditedOnce` is proved |
| `EcmProgress.Progress.NonEcmData` | crates/faxe-native/src/fax/progress.rs:99-114 | page data without error correction is fed only once the peer is ready |
| `EcmProgress.Progress.Update` | crates/faxe-native/src/fax/progress.rs:116-132 | a report appears exactly when page or percentage changed, with rows within the total |
| `EcmTheorems.PageIsCreditedOnce` | crates/faxe-native/src/fax/progress.rs:45-97 | at every moment of a page the decoder has been fed the image so far without the last outgoing frame if that is new, and with the pending frame it is the image so far |
| `EcmTheorems.WholePageIsCreditedOnce` | crates/faxe-native/src/fax/progress.rs:45-97 | a whole page of blocks with any repeats is credited as its image data, each byte once |
| `EcmTheorems.FramesAreRead` | crates/faxe-native/src/fax/progress.rs:45-97 | an image frame is read with its number and all its bytes, the frames around it for what they are, exactly by their control field |
| `EcmTheorems.PlainPageIsCreditedIffReady` | crates/faxe-native/src/fax/progress.rs:99-114 | without error correction the page is credited chunk for chunk, exactly once the peer is ready |
| `EcmTheorems.ReadinessIsTheLastAnswer` | crates/faxe-native/src/fax/progress.rs:45-58 | the peer is ready from its confirmation until it asks for training again |
| `Tiff.PackPage` | crates/faxe-engine/src/document.rs:595-606 | a bit is set exactly for each black pixel, padding stays clear |
| `Tiff.Normalize` | crates/faxe-engine/src/export.rs:42-107 | the file with exactly the bytes of the recorded strips reversed, or refused for its size or an overlap |
| `Tiff.ReverseStrips` | crates/faxe-engine/src/export.rs:95-106 | succeeds exactly for disjoint strips, and then every byte in them is reversed once and no other |
| `Tiff.Collect` | crates/faxe-engine/src/export.rs:47-94 | the strips, page count and damage gathered from up to 250 directories |
| `TiffModel.Unpacked` | crates/faxe-engine/src/export.rs:138-156 | one gray pixel for each bit, padding left out |
| `TiffModel.BilevelImagesRoundTrip` | crates/faxe-engine/src/document.rs:595-606 | unpacking the inversion of what was packed returns an image of any size exactly when it is bilevel |
| `TiffModel.PackingIsUnique` | crates/faxe-engine/src/document.rs:595-606 | the packed rows are determined by the image |
| `TiffModel.StripsShareNoByte` | crates/faxe-engine/src/export.rs:95-106 | no byte lies in two accepted strips |
| `TiffModel.ReversingTwiceRestores` | crates/faxe-engine/src/export.rs:95-106 | turning the same strips around again restores the file |
| `TiffModel.ListedStripIsCutShortIff` | crates/faxe-engine/src/export.rs:75-79 | in an accepted file a listed strip is reversed as a whole exactly unless before its end a strip ends, as last listed, and none is recorded to continue there |
| `TiffModel.ListedOnceIsWhole` | crates/faxe-engine/src/export.rs:75-79 | a strip that is the last listed at its start is reversed as a whole |
| `TiffModel.ReplacedStripIsCutShort` | crates/faxe-engine/src/export.rs:42-107 | in any file long enough, ten bytes listed behind the header and then five at the same place leave the last five as they were |

## Left out

- Foreign code: PJSIP, SpanDSP, PDFium, rustls, the TIFF reader and the UDPTL encoding are arguments (a parser, a size, a decoder fed with bytes, a signalling event).
- Threads, channels and clocks: one actor step, service stage or process effect is atomic, time is an integer, and one datagram is handled at one instant.
- The retired connections of the service loop, STUN transactions over time, registration, reconnection back-off and receiver status messages.
- SQLite and serde: the store is a table with atomic statements; its input and output errors are not part of this model, except for a failing save during publication.
- The order in which the job list is opened: the list holds every job once, newest insertions first within one process.
- `SdpTheorems.OfferIsUnderstood`: addresses are printed and parsed by the standard library, assumed to read back what they print as one word.
- `NetworkTheorems.SwitchesAreLossless`: a call is taken to last an hour at most and to drain its ring at most a thousand times; the code ends it after thirty minutes and drains it at most twice.
- `PublicationTheorems.AtMostOneDestination`: foreign deletion or editing of our own published files and folders is excluded, PDFs of different receptions differ, and a file stem is not empty and does not begin with a dot.
- `PublicationProgress.UndisturbedFailsIff`: a folder that is set is also there; one that is not available is a failing operation, which disturbs the export.
- `KeepaliveRuns.ReadsMayBeSplitAnywhere`: the parser may change its mind only about messages it has not yet taken; the size limit of one received SIP message, and polling a retired connection after it was given up, are left out.
- `Udptl.LostPacketsAreRecovered`: the receiver is the one that the numbers alone allow; the one of the udptl package is foreign and is not part of this model.
- `ServiceRuns.EveryStageIsEnabled`: a stage of the loop is one step, identifiers are new, and a running call reports its progress at any time.
- `CallSettling.ConnectedCallsSettle`: turns follow each other within some fixed gap, on which the time depends.
- `TiffModel.BilevelImagesRoundTrip`: the decoder's photometric inversion is taken as the bitwise complement of the packed rows.
- `EcmTheorems.PageIsCreditedOnce`: the sender is one that follows Annex A of ITU-T T.30 within a block; frames it would never send are not constrained.
- Socket errors while sending a packet, which leave the sequence number as it was.
- The accounting of bytes copied while publishing, folder availability checks before settings are saved, and the notifications that follow a publication.
- Media frames inside a call turn (tones, playout, watchdogs on incoming media), the modem itself, and the finalisation of a partly received page.
- Floating-point image work, PDF layout, profiles and destinations as such, credentials, desktop, command line, HTTP and language bindings.

# Velvet Fabric: a verified model of the control plane's decisions

Velvet Fabric connects nodes by WireGuard Links over an untrusted network. This project models the decisions its
control plane takes, apart from sockets, the kernel and processes, and proves what the control plane promises about
them: that two nodes which act on their own end up with the same Link, path, agreement or operation; that ports,
interfaces and records are neither lost nor held twice; that what is written on the wire is what is read; and that a
packet from a Domain's source is decided by the shared infrastructure, by the Domain whose source it goes to, or by its
own Domain, whatever other Domains the node has.

How the files hang together:

| area | files |
|---|---|
| session and Link negotiation | `Negotiation`, `NegotiationPair` (safety of every run), `NegotiationProgress` (bounds, completeness), `Octets` and `Derive` (addresses), `LinkAgreement` (negotiation over derived addresses) |
| two-party discovery | `Discovery` (round loop, path choice), `DiscoveryPair` (two asynchronous nodes), `DiscoveryAgreement`, `DiscoveryProgress`, `DiscoveryReplay` (refinement of the loop), `ProbeAdapter` (waiting and probing windows) |
| centralized search | `Survey` (measurement plan, candidate choice), `Search` (the whole search) |
| durable agreements | `Durable`, `DurableTimers`, `DurableRuns` (safety of every run), `DurableHistory`, `DurableResume` and `DurableCrossing` (one unfinished agreement in every order), `DurableStall` (a history that stalls) |
| dynamic Links | `DynamicLinks`, `DynamicLedger` (interfaces conserved), `DynamicCrossing` (crossing proposals) |
| VFP wire format | `Bytes`, `Tlv`, `VfpValues`, `VfpControl`, `VfpMessage`, `VfpRoundTrip`, `VfpStream` |
| routing | `Routing`, `RoutingCompiler`, `RoutingValidation`, `RoutingLookup`, `RoutingIsolation`, `RoutingPackets` (rules and tables together) |
| ports, recovery, policy | `Ports`, `LinkResources`, `Recovery`, `Policy` |
| shared | `Common`, `Net` (addresses and prefixes as bit sequences), `Strings`, `Ascending` |

Where the source changes state in place, the model has a class whose methods are proved equal to a function of the old
state; the theorems are about those functions and about runs, which are sequences of events in any order. A run event
carries what the rest of the world answers (a write that fails, a kernel that refuses, a peer's message), so a theorem
over all runs is a theorem over all such answers. Time is an integer.

Results worth knowing before reading the code:

* A durable exchange in which nothing fails does not always confirm the agreement. Two nodes that both start one may
  each read the other's proposal before the SAVED that answers their own: each then moves its operation to the other's
  session, both SAVEDs arrive on sessions their operations have left, and neither node confirms.
  `DurableCrossing.CrossingStallsIff` says, for every order of starting, connecting and reading, that the agreement ends
  confirmed at both nodes if and only if they did not both do so; `DurableCrossing.BothOutcomesHappen` and
  `DurableStall.StallIsReached` give orders for both outcomes, the latter from two new nodes.
* NODE_STATE and LINK_PROPOSE are encoded without the address check that decoding makes, so `VfpRoundTrip.RoundTrip`
  says of every message that encodes: it decodes to itself, restricted to the fields its type uses, if and only if its
  addresses pass the check, and is refused otherwise. `VfpRoundTrip.GroupLoopbackIsRefused` is such a message.
* Every rule for a destination is tried before every rule for a source, so a packet from one Domain to a source of
  another is looked up among that other Domain's return routes first (`RoutingPackets.PacketReaches`).
* The error "no distinct counterproposal" in the negotiation cannot be reached, whatever the peer sends
  (`Negotiation.CounterIsDistinct`).
* The two ends of a probing window always choose mirrored paths exactly when no best pair also occurs the other way
  round (`Discovery.ChoiceIsSymmetricIff`).
* A proposal satisfies the configured addresses it was derived with exactly when no two of those disagree
  (`Derive.DerivedMatchesIff`).

## Model

| member | source | states |
|---|---|---|
| Negotiation.NextProposalFinds | internal/vfp/engine/engine.go:437-455 | the search for a counterproposal returns the first derived proposal that the session has not seen and this end accepts, marks it seen, and fails only when a derivation fails or all 64 were passed over |
| Negotiation.CounterIsDistinct | internal/vfp/engine/engine.go:404-435 | a counterproposal always differs from what it answers, so "no distinct counterproposal" cannot occur |
| Negotiation.StaticLink.FindProposal | internal/vfp/engine/engine.go:437-455 | the loop over attempts, with its updates of the attempt counter and the seen set, computes exactly the search the lemmas are about |
| Negotiation.StaticLink.Start | internal/vfp/engine/engine.go:390-402 | the opening offer of the initiator; the responder waits |
| Negotiation.StaticLink.OnProposal | internal/vfp/engine/engine.go:404-435 | accept, counter or fail, with the whole new Link state |
| Negotiation.StaticLink.OnMessage | internal/vfp/engine/engine.go:323-344 | which messages are legal in which Link state, and the commit an acceptance causes |
| Negotiation.SessionFsm.OnOpen | internal/vfp/engine/engine.go:346-357 | OPEN first, with another UUID than ours |
| Negotiation.SessionFsm.OnNodeState | internal/vfp/engine/engine.go:359-388 | NODE_STATE second, with a loopback the session expects; then the session's kind decides what follows |
| Negotiation.SessionFsm.OnMessage | internal/vfp/engine/engine.go:308-321 | every frame before the session is operational |
| Negotiation.Engine.Act | internal/vfp/engine/engine.go:180-195 | commit first, then send, then leave a finished Link session; a failed commit sends nothing |
| Negotiation.Engine.OnFrame | internal/vfp/engine/engine.go:156-207 | one frame: discarded, fatal, or acted on |
| Negotiation.Engine.Run | internal/vfp/engine/engine.go:137-228 | the whole event loop over any sequence of frames, invalid frames and read errors |
| NegotiationPair.CommitsAgree | internal/vfp/engine/engine.go:180-195 | in every run of two ends, with any derivation, acceptance and failures, the commits are none, the acceptor's alone, or the acceptor's and then the proposer's of the same proposal |
| NegotiationPair.PeersNeverRepeat | internal/vfp/engine/engine.go:404-435 | two ends of this code never close on "peer repeated" or "no distinct counterproposal" |
| NegotiationPair.RunKeepsInv | internal/vfp/engine/engine.go:323-344 | in every run at most one Link message is in flight, and the two seen sets differ by exactly that proposal |
| NegotiationProgress.BoundedProposals | internal/vfp/engine/engine.go:437-455 | no peer, however it behaves, makes this end send more than 64 proposals |
| NegotiationProgress.NegotiationTerminates | internal/vfp/engine/engine.go:137-228 | every run of two ends reads at most 136 frames |
| NegotiationProgress.NegotiationIsComplete | internal/vfp/engine/engine.go:404-455 | with one derived sequence and fixed acceptance, an undisturbed session that has nothing left to read has committed one proposal good for both ends at both ends if and only if one of the first 64 suits both, and otherwise nobody committed |
| NegotiationProgress.UnsettledRunAdvances | internal/vfp/engine/engine.go:323-344 | while something is unread some end can read it, so with the bound every fair run settles |
| Derive.FillBits | internal/link/derive.go:197-218 | the loop that sets or clears one bit of the octets after the other, with masks, yields the pool's bits, then entropy, then zeros |
| Derive.SubnetIsInPool | internal/link/derive.go:182-184 | a derived subnet is a canonical prefix of the wanted length inside the pool, and its free bits are exactly the entropy |
| Derive.BothEndsDeriveTheSame | internal/link/derive.go:93-119 | both ends derive the same proposal for the same attempt |
| Derive.DerivedIsInPools | internal/link/derive.go:93-119 | what is derived for a validated Link has /30 and /126 prefixes inside the pools |
| Derive.DerivedMatchesIff | internal/link/derive.go:138-152 | a derived proposal matches this end's configured addresses if and only if no two of them disagree in one family |
| Derive.EndpointAddresses | internal/link/derive.go:121-136 | the loop over both families yields each end's addresses by UUID order |
| Derive.EndsMirror | internal/link/derive.go:121-136 | the two ends take distinct addresses inside an agreed prefix, each one's own being the other's peer address |
| Derive.HostIsInPool | internal/link/derive.go:186-195 | a node address lies in its pool, and an IPv4 one is not the network address |
| Derive.LinkLocalIsUsable | internal/link/derive.go:64-79 | the interface address is link-local with the group bit clear and never has an all-zero identifier |
| LinkAgreement.FabricLinkIsAgreed | internal/link/derive.go:93-136 | two nodes of one fabric that settle have committed one derived proposal at both ends, if any of the first 64 suits both, and the addresses they then configure mirror each other |
| Discovery.Store.Add | internal/inference/survey.go:32-39 | an invalid or repeated sample is not added; `added` says whether it was |
| Discovery.AddAllKeepsDistinct | internal/inference/survey.go:28-40 | a store loses nothing, repeats nothing and holds exactly the valid samples given |
| Discovery.Reciprocal | internal/linkdiscovery/peer.go:104-138 | the nested loops and the sort pick the head of the sorted path list |
| Discovery.PickIsChoice | internal/linkdiscovery/peer.go:104-138 | the path chosen is a round trip the window proves, and none sorts before it; no choice means there is none, whatever the order of reports |
| Discovery.ChoiceIsSymmetricIff | internal/linkdiscovery/peer.go:104-138 | two ends whose probes were all reported always choose the two halves of one path if and only if no best path also occurs reversed |
| Discovery.MirroredWindowsMatch | internal/linkdiscovery/peer.go:80-90 | then, if some path works, both loops see a match and return "connected" |
| Discovery.RunRound | internal/linkdiscovery/peer.go:58-100 | one round: exchange, end without progress, try, agree, connect, survey |
| Discovery.RunPeer | internal/linkdiscovery/peer.go:44-102 | the loop with its store updates, counters and results is the recursive round function |
| DiscoveryAgreement.OutcomesAgree | internal/linkdiscovery/peer.go:52-101 | in every interleaving, with failures at any step: two ends that return without error give the same reason in the same round, and connected results name one endpoint pair mirrored |
| DiscoveryAgreement.AttemptingNeedsReadyPeer | internal/runtime/dynamic_probe.go:130-188 | an end opens its outbound side only after the other has connected to the mirrored pair and bound its receive side |
| DiscoveryProgress.NoPhaseErrors | internal/runtime/dynamic_probe.go:190-216 | without cancellation, overflow, end or candidate overrun no phase, barrier or control error occurs and at most two barriers are unread in each direction |
| DiscoveryProgress.NeverStuck | internal/runtime/dynamic_probe.go:190-216 | the two ends never wait for each other on empty channels, and none waits for an end that has finished |
| DiscoveryProgress.QuietRunIsFinished | internal/linkdiscovery/peer.go:44-102 | when neither end can move both have finished with agreeing results, and connected ends are both attempting the mirrored pair |
| DiscoveryProgress.DiscoveryTerminates | internal/linkdiscovery/peer.go:52-101 | probe reports aside, an undisturbed run makes at most 16 moves a round and 8 more |
| DiscoveryReplay.AsyncRunIsRunPeer | internal/linkdiscovery/peer.go:44-102 | whatever the interleaving, a node's result and evidence are those of the sequential loop on the answers that node was given |
| ProbeAdapter.WaitIsTake | internal/runtime/dynamic_probe.go:190-216 | waiting as the code does it, pending slot first, is what a waiting node of the pair model does with the same messages |
| ProbeAdapter.CollectIsTake | internal/runtime/dynamic_probe.go:273-319 | a probing window treats control messages as a probing node of the pair model does |
| ProbeAdapter.CollectIsEvidence | internal/runtime/dynamic_probe.go:273-319 | a report counts only for a probe of this window and round, an arrival only for this round |
| ProbeAdapter.NormalizeReports | internal/runtime/dynamic_probe.go:321-338 | the observations are the valid ones of the reported probes, in the order sent, independent of the map's order |
| ProbeAdapter.UdpAttempt.Wait | internal/runtime/dynamic_probe.go:190-216 | the wait loop with its pending slot, which it always empties |
| ProbeAdapter.UdpAttempt.CollectRound | internal/runtime/dynamic_probe.go:273-319 | the window loop with its maps and early end on a path |
| ProbeAdapter.UdpAttempt.Try | internal/runtime/dynamic_probe.go:236-269 | five passes within the packet budget; every observation returned answers a probe this window sent to that candidate, every arrival came in during it, and a failed window returns neither |
| Survey.PlanIsWhatIsLeft | internal/inference/survey.go:244-287 | the survey plan is every possible step that has not been sampled, each once and none in an empty group |
| Survey.NextPlanIsEmpty | internal/inference/survey.go:244-287 | once every step of a plan has a valid sample, whatever else was sampled, the next plan is empty |
| Survey.PlanSurvey | internal/inference/survey.go:244-287 | the loops over observers, sockets and offered endpoints, with the set of steps already seen, build that plan |
| Survey.AllocationRangeIsSmall | internal/inference/survey.go:199-217 | whatever samples a node has, the range made of the ports seen at one address with stride d has at most 3d+9 ports, all of them real, and holds the last three ports seen and the next |
| Survey.SelectionIsBounded | internal/linkdiscovery/search.go:243-272 | candidates are distinct, within the limit, only from batches that fit it whole, and one of those is left out only when the limit is reached |
| Survey.EarlierBatchesLead | internal/linkdiscovery/search.go:243-272 | later batches only add to the choice |
| Search.SearchEngine.SelectCandidates | internal/linkdiscovery/search.go:243-272 | the loops over batches, ranges and ports make that choice |
| Search.SearchEngine.Check | internal/linkdiscovery/search.go:216-224 | no step is taken after the context, the deadline or the packet budget has ended |
| Search.SearchEngine.Open | internal/linkdiscovery/search.go:226-241 | a socket is acquired at most once and recorded exactly if it is open |
| Search.SearchEngine.Try | internal/linkdiscovery/search.go:274-299 | only new pairs are tried, at most the round's limit; below it all of them are, and each is probed from both sides unless something failed |
| Search.SearchEngine.Window | internal/linkdiscovery/search.go:338-393 | each observation answers a probe of this window by a report given during it, at most one for a probe, in the order sent |
| Search.SearchEngine.Ingest | internal/linkdiscovery/search.go:395-403 | the stores gain exactly the new valid samples, and the count is right |
| Search.SearchEngine.MatchedPath | internal/linkdiscovery/search.go:405-417 | a path is two samples that mirror each other, and none is found only if there are none |
| Search.SearchEngine.Observe | internal/linkdiscovery/search.go:301-336 | branch after branch until one teaches something; if none did, every step of the plan has been measured |
| Search.SearchEngine.Release | internal/linkdiscovery/search.go:143-152 | every socket but the primaries of a path is closed, and the samples of closed sockets are forgotten |
| Search.SearchEngine.Run | internal/linkdiscovery/search.go:124-210 | what stays open is the two primaries of a path and nothing else, apart from sockets that refused to close; no budget is exceeded; no pair or measurement was taken twice; stores gained only samples witnessed in their own window; a path is backed by two retained samples; without progress both plans are measured to the end |
| Search.RunSearch | internal/linkdiscovery/search.go:124-142 | an invalid configuration is refused before anything is opened, and otherwise the same holds of the whole search |
| DurableTimers.CheckTimer.Failed | internal/runtime/durable_recovery.go:31-40 | one evaluation of the failure timer |
| DurableTimers.CheckTimer.AcceptReady | internal/runtime/durable_recovery.go:231-261 | READY makes the peer fresh for its interval and leaves the failure start alone |
| DurableTimers.CheckTimer.AcceptNotReady | internal/runtime/durable_recovery.go:231-261 | NOT_READY forgets both |
| DurableTimers.DroppedIffUnbroken | internal/runtime/durable_recovery.go:31-40 | the timer runs out if and only if every evaluation of the last thirty minutes or more found no direct Link, local readiness and fresh peer READY, with no NOT_READY between |
| DurableTimers.ObservationIsLastRun | internal/runtime/durable.go:200-259 | an observation repeats the last sample that counted and dates from the start of its unbroken run |
| DurableTimers.EligibleIffStable | internal/runtime/durable.go:240-267 | promotion is allowed if and only if the samples cover the stable interval with one local endpoint and port, without a gap of thirty seconds, the last of them recent and on the real port |
| Durable.DurableManager.SaveRecord | internal/runtime/durable.go:142-156 | memory follows the disk only when the write was synced; a replaced agreement loses its check |
| Durable.DurableManager.DeleteRecord | internal/runtime/durable.go:158-189 | a deleted agreement takes its operation, check and observations with it and starts a cooldown |
| Durable.DurableManager.Reservations | internal/runtime/durable.go:367-375 | the count of live operations for peers without a record |
| Durable.DurableManager.ProposalAllowed | internal/runtime/durable.go:401-447 | the admission rules of a proposal, in order |
| Durable.DurableManager.EndpointsAllowed | internal/runtime/durable.go:425-445 | every endpoint of a proposal is one this Link really uses, ours only if agreed before or stable now |
| Durable.DurableManager.AnswerPropose | internal/runtime/durable.go:401-481 | decline, counter with our own endpoint, or save and then say SAVED |
| Durable.DurableManager.AnswerSaved | internal/runtime/durable.go:482-502 | save if not yet saved, answer, then confirm and finish the operation |
| Durable.DurableManager.OnMessage | internal/runtime/durable.go:377-510 | every durable message on a Link's session |
| Durable.DurableManager.Tick | internal/runtime/durable.go:287-365 | when an exchange is started over a Link, new or resumed |
| Durable.DurableManager.OnObservation | internal/runtime/durable.go:200-259 | a sample updates the observation, and a moved endpoint ends its agreement |
| Durable.DurableManager.CheckOne | internal/runtime/durable_recovery.go:42-102 | one agreement's check: superseded, dropped, idle, or a query |
| Durable.DurableManager.CheckEnded | internal/runtime/durable_recovery.go:205-206 | when a worker ends only the check that asked its query is free to ask again |
| Durable.DurableManager.OnStatus | internal/runtime/durable_recovery.go:231-261 | a reply counts only for the current record, check and query |
| DurableRuns.SavedIsWriteAhead | internal/runtime/durable.go:401-502 | in every run with losses, repetitions, crashes, deletions and replacements, SAVED for an agreement was sent only by a node that had put it on disk with the endpoints it was made for |
| DurableRuns.ConfirmedMeansPeerSaved | internal/runtime/durable.go:142-156 | a confirmed record, in memory or on disk, implies that the peer earlier persisted the same agreement with the same endpoints |
| DurableRuns.OneAgreementPerId | internal/runtime/durable.go:401-502 | one identifier never names two lists of endpoints, at any two nodes |
| DurableRuns.RunKeepsInv | internal/runtime/durable.go:142-189 | the invariant of every run: all records, operations and packets are backed by what was minted and persisted |
| DurableHistory.ConfirmationSticks | internal/runtime/durable.go:401-502 | while a node keeps an agreement no event, a crash included, takes its confirmation back |
| DurableHistory.DropNeedsUnbrokenFailure | internal/runtime/durable_recovery.go:42-102 | in every run a check drops its agreement if and only if the evaluations it made since the check began have failed unbroken for thirty minutes |
| DurableHistory.OneQueryAtATime | internal/runtime/durable_recovery.go:42-102 | in every run, after asking a query a node asks its peer nothing more until the worker that asked it has ended or the check is gone |
| DurableResume.ProposalTaken | internal/runtime/durable.go:401-481 | a node that holds the agreement, or may take it, takes the other's proposal at any moment of an undisturbed exchange: saved, a confirmation kept, the operation moved to that session, and SAVED answered |
| DurableResume.SavedConfirms | internal/runtime/durable.go:482-502 | a SAVED on the session the operation is on confirms, in memory and on disk |
| DurableResume.SavedIsStale | internal/runtime/durable.go:482-502 | a SAVED on any other session changes nothing and is not answered |
| DurableCrossing.RunSeen | internal/runtime/durable.go:287-510 | in every undisturbed run over one unfinished agreement, whatever the order of starts, connections and reads, the two nodes and their sessions go through the few abstract states that the next results are read off |
| DurableCrossing.CrossingStallsIff | internal/runtime/durable.go:287-510 | once everything sent has been read, in any order, the agreement is confirmed at both ends, in memory and on disk, if and only if not both ends read the other's proposal before the SAVED that answers their own; if both did, both hold it unconfirmed |
| DurableCrossing.ResumeCompletes | internal/runtime/durable.go:287-510 | an exchange that only one end starts confirms the agreement at both, whether the other end holds it or has nothing and may take it |
| DurableCrossing.BothOutcomesHappen | internal/runtime/durable.go:287-510 | from any two nodes that hold an agreement unconfirmed there is an order that stalls and one that confirms |
| DurableCrossing.ExchangeIsShort | internal/runtime/durable.go:377-510 | at most three messages are read on each session, in any order |
| DurableStall.StallIsReached | internal/runtime/durable.go:287-510 | a run of two new nodes, one of whose sessions drops, leads to a state from which one order stalls and another confirms |
| DynamicLinks.DynamicLinkEngine.Prepare | internal/runtime/dynamic_engine.go:23-65 | reserve a socket and an interface, or take over a reserved one; how far it gets decides what is left |
| DynamicLinks.DynamicLinkEngine.ConfigureAttempt | internal/runtime/dynamic_engine.go:67-85 | the peer's offer is checked and kept |
| DynamicLinks.DynamicLinkEngine.StartOutbound | internal/runtime/dynamic_negotiation.go:13-88 | a session of our own proposes, if nothing stands against it, or is closed |
| DynamicLinks.DynamicLinkEngine.HandleProposal | internal/runtime/dynamic_negotiation.go:109-130 | a proposal is accepted or declined |
| DynamicLinks.DynamicLinkEngine.AdmitInbound | internal/runtime/dynamic_negotiation.go:132-208 | admission, arbitration by UUID, replacement of a recovering Link and reuse of a reserved interface |
| DynamicLinks.DynamicLinkEngine.HandleAccept | internal/runtime/dynamic_negotiation.go:210-234 | an acceptance of the attempt that is proposing on this session |
| DynamicLinks.DynamicLinkEngine.HandleDecline | internal/runtime/dynamic_negotiation.go:236-252 | a declined proposal keeps its interface for a while |
| DynamicLinks.DynamicLinkEngine.Discard | internal/runtime/dynamic_engine.go:148-168 | an attempt is dropped and says which interface it leaves |
| DynamicLinks.DynamicLinkEngine.FailAttempt | internal/runtime/dynamic_engine.go:170-182 | only the current attempt in an allowed state fails |
| DynamicLinks.DynamicLinkEngine.CleanupTimer | internal/runtime/dynamic_lifecycle.go:65-92 | a deferred cleanup removes its own interface and nothing when cancelled or replaced |
| DynamicLinks.DynamicLinkEngine.RemoveInterface | internal/runtime/dynamic_lifecycle.go:153-173 | removal touches the interface only if this generation owns it, and a failed one stays for a retry |
| DynamicLedger.InterfacesAreConserved | internal/runtime/dynamic_lifecycle.go:65-92 | in every run of one node with any peers and failures, each interface it made is held by exactly one of its peer's attempt, a pending cleanup, or the retry list |
| DynamicLedger.RetrySparesHeld | internal/runtime/link_manager.go:49-66 | a retried removal never touches an interface that an attempt holds |
| DynamicCrossing.CrossingIsConfluent | internal/runtime/dynamic_negotiation.go:132-252 | when two proposals, their answers and any closing have been delivered in any order, both nodes probe the smaller UUID's operation if it was proposed at all, and the larger one's otherwise |
| DynamicCrossing.ReservationIsReused | internal/runtime/dynamic_lifecycle.go:65-92 | the larger node never has a second interface: the one made for its own proposal is put under the one it yields to |
| DynamicCrossing.ExchangeEnds | internal/runtime/dynamic_negotiation.go:109-252 | whatever fails or refuses, the two proposals lead to at most four deliveries |
| Tlv.ParseIsInverse | internal/tlv/tlv.go:24-47 | a well-formed body is the serialisation of exactly one list of TLVs |
| Tlv.Cursor.Next | internal/tlv/tlv.go:24-39 | the cursor yields the next TLV, the end, or an error after which it has not moved |
| Tlv.Append | internal/tlv/tlv.go:41-47 | the bytes of one TLV behind what was there |
| VfpValues.UidInverse | internal/vfp/message/message.go:467-494 | UIDs are in one-to-one correspondence with their accepted octets |
| VfpValues.EndpointInverse | internal/vfp/message/message.go:560-614 | so are endpoints |
| VfpValues.PolicyInverse | internal/vfp/message/message.go:629-646 | so are policies |
| VfpControl.ControlInverse | internal/vfp/message/control.go:29-102 | a control record encodes to a byte string if and only if the string decodes to it |
| VfpControl.DecodedIsSized | internal/vfp/message/control.go:55-102 | whatever decodes fits its machine types and encodes to the octets it came from |
| VfpControl.EncodesIff | internal/vfp/message/control.go:29-53 | a record encodes if and only if its code allows its fields, it has at most 32 endpoints and each is valid |
| VfpControl.Write | internal/vfp/message/control.go:29-53 | the buffer written in place and the loop over endpoints produce the record's bytes |
| VfpControl.ReadControl | internal/vfp/message/control.go:55-102 | the loop that consumes the slice decodes the record |
| VfpMessage.FrameLength | internal/vfp/message/message.go:129-145 | an accepted header declares a length between the header's and the maximum |
| VfpRoundTrip.RoundTrip | internal/vfp/message/message.go:147-391 | every message of every type that encodes decodes to itself restricted to the fields its type uses if its addresses pass the receiver's check, and is refused otherwise |
| VfpRoundTrip.GroupLoopbackIsRefused | internal/vfp/message/message.go:147-391 | a node state with loopback ff00:: encodes, and its encoding is refused |
| VfpRoundTrip.ExtensionsAreIgnored | internal/vfp/message/message.go:159-175 | inserting at any TLV boundary a TLV the message does not use, or one already at its limit, changes nothing |
| VfpRoundTrip.DurableProposalReturns | internal/vfp/message/durable.go:59-180 | repeated owner and endpoint TLVs of a durable proposal read back as the same list |
| VfpRoundTrip.StreamRoundTrip | internal/vfp/message/message.go:111-127 | a stream of written frames reads back as exactly the messages written, in order |
| VfpStream.CollectFields | internal/vfp/message/message.go:159-175 | the single walk over a body keeps the first values of each type the message reads, up to its limit |
| VfpStream.DecodeFrame | internal/vfp/message/message.go:147-273 | decoding with that walk is the decoder of the theorems |
| VfpStream.EncodeFrame | internal/vfp/message/message.go:275-391 | the appended TLVs and the header written last are the encoder of the theorems |
| VfpStream.Stream.Write | internal/vfp/message/message.go:420-436 | a message is written whole however the connection splits the writes, or refused |
| VfpStream.Stream.Read | internal/vfp/message/message.go:111-127 | exactly one frame is taken, and a short or foreign one ends the connection |
| Routing.OverlapMeansShared | internal/spec/spec.go:791-793 | two prefixes overlap if and only if some address is in both |
| RoutingValidation.Validate | internal/spec/spec.go:621-702 | validation reports nothing if and only if the routing section is valid |
| RoutingValidation.CheckDomain | internal/spec/spec.go:660-698 | no report about one Domain, its name, table, sources, routes and announcements, if and only if it is in order |
| RoutingValidation.CheckRoutes | internal/spec/spec.go:704-738 | no report if and only if every peer is known and has routes, prefixes differ and metrics fit; and the prefixes used |
| RoutingValidation.CheckAnnouncements | internal/spec/spec.go:740-758 | no report if and only if prefixes differ and metrics fit; and the prefixes used |
| RoutingCompiler.Compiler.Run | internal/reconcile/desired.go:234-313 | the nested loops with their dedupe maps compute the tables and rules of the theorems, and fail exactly when a peer is unknown |
| RoutingCompiler.Compiler.AddDomain | internal/reconcile/desired.go:263-310 | one Domain's guards, routes, announcements and returns |
| RoutingCompiler.CompilePeerRoutes | internal/reconcile/desired.go:386-411 | static routes become routes over the peer's Link |
| RoutingCompiler.FirstOfEachFamily | internal/reconcile/desired.go:364-377 | the first source of each family stands for the Domain |
| RoutingLookup.SourcesAreDisjoint | internal/spec/spec.go:640-660 | no address is in two sources of a valid specification |
| RoutingLookup.NeverMisses | internal/reconcile/desired.go:234-313 | a longest-prefix lookup in a Domain's table finds a route for every address of a family the Domain has sources in |
| RoutingLookup.StaysInSource | internal/reconcile/desired.go:234-313 | a destination inside a Domain's source resolves, in its own and the shared table, to a route inside that source that the Domain configured, or to its unreachable guard |
| RoutingIsolation.ResolvesOnce | internal/reconcile/desired.go:234-313 | such a destination has exactly one result in each of the two tables |
| RoutingIsolation.FailsClosed | internal/reconcile/desired.go:234-313 | a lookup in a Domain's table falls through to other tables only where the Domain announces the destination |
| RoutingIsolation.OwnTableIsIsolated | internal/reconcile/desired.go:234-313 | changing, adding or removing other Domains leaves every lookup in a Domain's own table as it was |
| RoutingIsolation.SharedTableIsIsolated | internal/reconcile/desired.go:234-313 | and every lookup in the shared table of an address inside the Domain's sources |
| RoutingPackets.SourceSelectsDomain | internal/reconcile/desired.go:275-292 | the rules that match a packet by its source all lead to the Domain whose source it is from, and there is one |
| RoutingPackets.PacketReaches | internal/reconcile/desired.go:252-292 | by the smallest rule number a packet from a Domain's source reaches the shared table first if it goes to a pool or to a source of any Domain, and its own Domain's table otherwise, and no other |
| RoutingPackets.PacketStays | internal/reconcile/desired.go:234-313 | with a throw or a miss leading to the next rule, every such packet is decided by infrastructure if it goes to a pool, by the Domain whose source it goes to, or by its own Domain; it falls to the host only where its own Domain announces the destination |
| RoutingPackets.PacketsAreIsolated | internal/reconcile/desired.go:234-313 | adding, removing or changing other Domains changes the decision of no packet from a Domain's source, except one to a source of another Domain |
| Ports.PortPool.Bind | internal/runtime/ports.go:41-100 | the lease returned is a new identity on a port nobody held; a failure changes nothing |
| Ports.PortPool.Release | internal/runtime/ports.go:30-39 | only the lease that holds a port frees it |
| Ports.LeasedIsFree | internal/runtime/ports.go:41-100 | a leased port is in range, not the VFP port, not taken, and was bound for a candidate that asked for it |
| Ports.RangeIsCovered | internal/runtime/ports.go:41-70 | a range choice lists every port of the range exactly once, the sticky one first |
| Ports.RangeTriesEveryFreePort | internal/runtime/ports.go:41-100 | with a kernel that binds what it is asked for, a range choice fails if and only if every free port of the range was refused, each asked for once |
| LinkResources.LeasesAreExclusive | internal/runtime/ports.go:30-123 | in every run no port is held twice, by probes, Links or one of each, and the VFP port never |
| LinkResources.PortsAreConserved | internal/runtime/link_manager.go:26-66 | a port stays leased while its Link resource exists, and every lease has a holder that can give it back |
| LinkResources.OnlyRemovalFrees | internal/runtime/link_manager.go:34-66 | one more event frees a Link's port if and only if it is that Link's own deletion and it succeeded |
| Recovery.Tracker.Begin | internal/recovery/recovery.go:104-135 | a start joins the episode of the same node and namespace or begins one |
| Recovery.Tracker.Progress | internal/recovery/recovery.go:137-155 | progress, the healthy run and its end of the episode |
| Recovery.Tracker.Failure | internal/recovery/recovery.go:165-177 | a failure breaks the healthy run and keeps the episode |
| Recovery.Tracker.Check | internal/recovery/recovery.go:179-199 | when retirement is called and what a failed one leaves |
| Recovery.EpisodeIsKept | internal/recovery/recovery.go:104-177 | restarts, reports and failures keep the time an episode began while there is no intentional stop and no stable healthy run |
| Recovery.RetiresAtDeadline | internal/recovery/recovery.go:179-199 | so a check calls for retirement if and only if the window has passed since that first failure |
| Recovery.RetiresOnce | internal/recovery/recovery.go:179-199 | once retired, nothing is retired again until a new start |
| Recovery.BeginJoinsOrStarts | internal/recovery/recovery.go:104-135 | which starts join an episode, which date one from the last progress, which begin one, and what each leaves |
| Recovery.StableRunEnds | internal/recovery/recovery.go:104-177 | over any history of restarts, reports, failures and checks, the first report that completes a healthy run of the stable length ends the episode, and nothing before it does |
| Recovery.EpisodeEndsIff | internal/recovery/recovery.go:104-177 | so an episode ends within a history if and only if the history holds such a run |
| Policy.PolicySender.MergePolicy | internal/runtime/dynamic_policy.go:70-89 | a decision replaces an older one and cancels a pending query |
| Policy.PolicySender.ReceivePolicy | internal/runtime/dynamic_policy.go:124-165 | which packets are heard and what they change |
| Policy.PolicySender.FlushPolicy | internal/runtime/dynamic_policy.go:167-206 | one tick over the targets in address order, from the cursor |
| Policy.HighestRevisionWins | internal/runtime/dynamic_policy.go:70-89 | after any decisions in any order the stored one is the highest revision received |
| Policy.ConvergesInAnyOrder | internal/runtime/dynamic_policy.go:70-89 | two sequences with the same decisions, reordered or repeated, leave the same one |
| Policy.MergeKeepsBudgets | internal/runtime/dynamic_policy.go:70-89 | neither retry budget moves |
| Policy.PacketsAreHarmless | internal/runtime/dynamic_policy.go:124-165 | no packet, genuine or not, moves a budget of a known target, takes its identity, changes another target, or gives two targets one UUID |
| Policy.UpdatesAreFair | internal/runtime/dynamic_policy.go:167-206 | with N fixed targets an update that stays due is sent within ceil(N/16) ticks, whatever the others do |
| Policy.TickIsBounded | internal/runtime/dynamic_policy.go:167-206 | no tick sends more than sixteen messages |
| Policy.RetryDelayDoubles | internal/runtime/dynamic_policy.go:26-37 | the pause doubles from ten seconds to five minutes and jitter adds at most a quarter |

## Left out

- Sockets, goroutines, timers and contexts: they appear as interleaved steps, first-in-first-out sequences and integer time; the durable exchange runs over a network that may also lose, repeat and reorder.
- Kernel, netlink, WireGuard and systemd effects: each is an answer that an event carries.
- Cryptography: digests are arbitrary functions, keys and probe envelopes opaque values.
- File replacement and fsync: a write is stored, not written, or written and not synced; JSON is not modelled.
- Text: display names in fixed endpoints, IPv6 zones, interface names, logs and status reports; addresses are bit sequences and the order of endpoint texts is an arbitrary faithful text function.
- Order of Go maps: keys are walked as ordered lists where the source sorts them, and sorts are modelled by picking or inserting in order.
- Durable.DurableManager.OnMessage: reads the clock once for one message, where the source reads it at several points of a handler.
- Discovery.RunPeer: what the network answers comes as a function of the round; the inference of candidates from samples is an input.
- LinkResources.PortsAreConserved: assumes that taking over an alias begins an entry, repeats one without a port, or repeats the same lease, because `own` overwrites what it finds.
- DynamicLedger.InterfacesAreConserved: starts from a node without interfaces; warm restarts that adopt interfaces are not modelled, and a node opens no session to a peer whose cleanup is pending.
- DynamicCrossing.CrossingIsConfluent: without timeouts, session failures or admission refusals, under which the source gives no such promise.
- NegotiationProgress.NegotiationIsComplete: for sessions in which nothing fails and both ends derive one sequence, as the source requires of a fabric.
- Search.SearchEngine.Run: the inference of candidates is an arbitrary function of a store, so the claims hold for every inference; that the two stores are different objects is built in.
- Survey.AllocationRangeIsSmall: of the hypotheses that make candidates only the allocation sequence is modelled; the others list observed endpoints or shift one port.
- RoutingValidation.Validate: prefixes are values, so the reports for text that is no canonical prefix are left out, here and in the checks it is made of.
- DurableCrossing.CrossingStallsIff: an end without the agreement neither proposes one of its own meanwhile nor would add its own endpoint, in which case it would answer with a proposal of another agreement; that case is in `DurableRuns`.
- DynamicLinks.DynamicLinkEngine.RemoveInterface: the runner's table of Link states is not modelled, and so neither is the return before anything is done when that table names another generation; the ownership check of the deletion itself is.
- RoutingPackets.PacketStays: what the kernel does with rules and routes is its documented order, not its code; the host's own rules come after all of these, and routes that Babel adds to the tables are not part of the statement.
- Babel, the control socket, command lines, and the status and metrics reports.

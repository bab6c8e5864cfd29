# Verified models of a data-centre network simulator

This project models the hard parts of the simulator's transport, routing and trace tools and
proves what they promise. `dafny verify dfyconfig.toml` checks all of it.

**Homa, a receiver-driven transport.** A sender cuts a message into a request packet and
unscheduled packets and sends the rest only as the receiver grants byte ranges. A receiver keeps
one state per sender, ranks senders by their message with the fewest bytes to grant, keeps the
best `numToGrant` of them granted at distinct priorities and paces each with a timer.

- `Wrappers`, `Sums`, `Arith`, `Wire`, `HomaTypes`, `Keys`: sums over bags, on-wire sizes, packets, sort keys.
- `Packetize`, `Priority`, `CutOffs`, `RemainSize`: sizes of packets, their priorities, the cutoffs
  between priorities and the workload estimate they are taken from.
- `Inbound`, `SenderState`, `SchedList`, `Receiver`, `ReceiverEvents`, `ReceiverEffects`: the
  receive scheduler as functions on values, and what every event keeps.
- `Ranking`, `Granting`: whom the scheduler prefers and what each grant says, in the fields of the messages.
- `SchedSenders`: the receive scheduler as the object it is, with its shifting vector, NULL prefix,
  `headIdx` and `lastIdx`; every method is shown to do what those functions say.
- `Sender`, `SendController`: the send side as functions, and as the object that does what they say.
- `Message`, `Flow`, `Protocol`: one message between sender, network and receiver; all hosts and the
  network; the transition system.
- `Safety`, `Progress`, `Accounting`, `InFlight`, `Runs`: every step keeps the invariant, every step uses up a
  measure, counters are exact, and the results about whole runs.

**Other cores.** `FluidShare` (processor sharing over a heap changed in place), `Bits`, `Murmur` and
`MurmurValues` (the hash of the router and of the trace tools), `RouteOrder`, `Ecmp`, `EcmpChoice` and
`RoutingTable` (the sorted route table with its cache), `Fragmentation` (IPv4 fragmentation through
chains of hops) and `FatTree` (delivery by the generated routes). `GatewayChange` is about cached
lookups when a gateway changes.

What the run theorems assume, as `Config.Valid`, `Workload` and the transition system say: the
network may reorder packets but neither loses nor duplicates them; timers may fire at any time;
`numToGrant` stays fixed with `1 <= numToGrant <= schedPrios <= allPrio`; `maxOutstandingRecvBytes`,
`grantMaxBytes` and `defaultReqBytes` are at least one and fit a packet; the unscheduled bytes fit in
16 bits; on-wire accounting is exact (`Packetize.ExactForAllSizes` says exactly when); and messages
to one receiver that agree in size, creation time and number come from one sender, because the
comparator of the source has nothing else to tell them apart.

Where code and comments disagree the model follows the code: the string `FIXED_UNSCHED` selects the
graduated mode (`strPrioModeToInt`), so the branch for that mode is never taken. The default of
`cbfCapMsgSize`, 0x100000000, is cut to zero where it is stored
(simulate/homatransport/src/transport/HomaConfigDepot.cc:49), and with the default boost of zero
nothing at all is counted (`RemainSize.NothingCounted`; `RemainSize.SomethingCounted` says exactly when
something is). The lookup of equal-cost routes collects more than the longest matches exactly when it
overruns into a shorter netmask (`Ecmp.CollectsLongest`), and a change of gateway, which keeps the
cache, leaves stale answers exactly when `RoutingTables.RoutingTable.GatewayChanged` says.

## Model

| member | source | states |
|---|---|---|
| Runs.RunSafe | simulate/homatransport/src/transport/HomaTransport.cc:479-2374 | In every run of any finite workload, whatever the order in which packets arrive and timers fire, every state satisfies the invariant (messages, scheduler, queues) and every byte counter is exact |
| Runs.NoAssertionFails | simulate/homatransport/src/transport/HomaTransport.cc:479-2754 | In no run does an assertion of the send path, the receive path or the grant path fail |
| Runs.RunsEnd | simulate/homatransport/src/transport/HomaTransport.cc:1809-2374 | Every run is finite: its number of steps is bounded by a measure of the initial state |
| Runs.MaximalRunDelivers | simulate/homatransport/src/transport/HomaTransport.cc:568-2374 | A run that cannot go on has given every message of the workload to its application exactly once, and nothing else |
| Runs.DeliveredOnce | simulate/homatransport/src/transport/HomaTransport.cc:2655-2702 | At any time a message has been delivered at most once, each byte has arrived at most once, and a delivered message has all its bytes |
| Runs.DeliveredWithLastByte | simulate/homatransport/src/transport/HomaTransport.cc:1752-1775 | As soon as every byte of a message has arrived the message has been delivered |
| Runs.InFlightExact | simulate/homatransport/src/transport/HomaTransport.cc:1830-1852 | A message's totalBytesInFlight equals the on-wire size of its packets that are queued, in the network or granted and not sent, and never exceeds the larger of its unscheduled bytes and maxOutstandingRecvBytes - 1 plus the largest grant |
| Runs.CountersExact | simulate/homatransport/src/transport/HomaTransport.cc:1525-1595 | In every state of every run the unscheduled and the scheduled in-flight counter of each priority equal the on-wire bytes announced or granted there and not yet arrived |
| Runs.InFlightZeroIffArrived | simulate/homatransport/src/transport/HomaTransport.cc:300-335 | In every state of every run the bytes a receiver counts as in flight over all priorities are zero exactly when no announced and no granted packet is still on its way to it, which is how active periods begin and end |
| Runs.NoUnderflow | simulate/homatransport/src/transport/HomaTransport.cc:1575-1595 | In every step of every run in which a data packet arrives, what it is subtracted from is at least as large: the message's bytes in flight and to receive and, for a known message, the receiver's counter of its kind and priority; no unsigned counter wraps, whichever packet arrives first |
| Runs.SomeRun | simulate/homatransport/src/transport/HomaTransport.cc:479-511 | A configuration, a workload and a run satisfy all that the run theorems assume |
| Runs.BestServed | simulate/homatransport/src/transport/HomaTransport.h:535-550 | In every state of every run the senders a receiver grants are its best: each is served, and what it is granted for comes before everything that any other sender waits for, by bytes to grant, then size, creation time and number |
| Runs.GrantsAsked | simulate/homatransport/src/transport/HomaTransport.cc:1809-1868 | Every grant sent in a run goes to the first message of a sender among the best numToGrant, for the bytes that message needs next, at the priority of the sender's slot or at the better one of the resolver |
| Runs.LinkServesGrantsFirst | simulate/homatransport/src/transport/HomaTransport.cc:568-601 | In every run a link that becomes free takes a waiting grant if there is one, else a data packet, and rests only if there is neither |
| Safety.StepOk | simulate/homatransport/src/transport/HomaTransport.cc:479-2374 | Whatever is enabled in a state that satisfies the invariant passes every assertion and leads to such a state |
| Progress.StepWork | simulate/homatransport/src/transport/HomaTransport.cc:1809-2374 | Every step uses up a well-founded measure of the bytes still to grant, the packets and grants under way and the armed timers |
| Progress.NeverStuck | simulate/homatransport/src/transport/HomaTransport.cc:1809-2374 | While a message is undelivered some message can be handed over, a packet or grant is in the network, or a send or grant timer is armed |
| Progress.QuietMeansDone | simulate/homatransport/src/transport/HomaTransport.cc:1830-1852 | With nothing under way and no timer armed every message has been delivered: the outstanding limit cannot hold back the last grant |
| Accounting.StepCtrs | simulate/homatransport/src/transport/HomaTransport.cc:1525-1595 | Every step keeps every per-priority counter of every receiver equal to the sum over messages of what is under way |
| Accounting.GrantedCtr | simulate/homatransport/src/transport/HomaTransport.cc:1525-1536 | The grants of one event raise exactly the scheduled counter of their priorities |
| Flow.SendsOk | simulate/homatransport/src/transport/HomaTransport.cc:658-731 | Any queued data packet may leave: its message is known, has that many bytes left, and is dropped exactly when no packet of it remains |
| Flow.AnswersOk | simulate/homatransport/src/transport/HomaTransport.cc:520-548 | A grant always finds its outbound message, which can schedule all the bytes it asks for |
| Flow.ReceivesOk | simulate/homatransport/src/transport/HomaTransport.cc:1691-1790 | A data packet passes the assertions on it, a scheduled one finds its entry in inflightGrants, and the message is handed over exactly when its last byte is there |
| Message.GrantFindsMessage | simulate/homatransport/src/transport/HomaTransport.cc:1019-1049 | No grant reaches a discarded message, and the minimum with bytesToSched never cuts a grant short |
| Message.DataView | simulate/homatransport/src/transport/HomaTransport.cc:2655-2702 | An arriving data packet keeps a message consistent between its sender, the network and its receiver |
| Message.TransmitView | simulate/homatransport/src/transport/HomaTransport.cc:1063-1083 | A departing data packet keeps a message consistent; the sender forgets it with its last packet |
| Message.GrantedView | simulate/homatransport/src/transport/HomaTransport.cc:2717-2754 | Granting the next bytes keeps a message consistent |
| Inbound.FillInRxBytes | simulate/homatransport/src/transport/HomaTransport.cc:2655-2702 | The loop over inflightGrants finds the entry with the packet's offset and erases that one; the counters drop by what arrived |
| Inbound.EntryFound | simulate/homatransport/src/transport/HomaTransport.cc:2677-2694 | Every scheduled packet under way matches one entry of inflightGrants, the one the search by offset finds |
| Inbound.FillUnsched | simulate/homatransport/src/transport/HomaTransport.cc:2655-2675 | An unscheduled packet leaves bytes to receive, bytes in flight and the bytes stood for by packets in agreement |
| Inbound.FillSched | simulate/homatransport/src/transport/HomaTransport.cc:2677-2698 | So does a scheduled packet |
| Inbound.GrantIssued | simulate/homatransport/src/transport/HomaTransport.cc:2717-2754 | A grant stands for the next bytes of the message: unscheduled and granted ranges tile it without gap or overlap |
| Inbound.CompleteMeansAll | simulate/homatransport/src/transport/HomaTransport.cc:1759-1775 | With nothing left to receive, nothing is left to grant or under way, inflightGrants is empty and every byte has arrived once |
| SenderState.HandleInboundOk | simulate/homatransport/src/transport/HomaTransport.cc:1691-1790 | A packet keeps mesgsToGrant exactly the incomplete messages that need grants, in the order `Ranking.QueueRanked` spells out; the sender's key moves only forward and its need for grants does not end |
| SenderState.LowerFirst | simulate/homatransport/src/transport/HomaTransport.cc:1834-1868 | Lowering the key of the element at begin() while it is in the set keeps the set in order, and so does erasing it when nothing is left to grant |
| SenderState.SendAndScheduleOk | simulate/homatransport/src/transport/HomaTransport.cc:1809-1868 | One call keeps the sender's order, leaves it with a running timer or at the limit, and takes at most its first message out of the set; what the grant says is `Granting.SendFollowsRule` |
| SenderState.EraseInsert | simulate/homatransport/src/transport/HomaTransport.cc:1720-1788 | Erasing a message and inserting it with an unchanged key restores the set |
| Ranking.QueueRanked | simulate/homatransport/src/transport/HomaTransport.h:317-330 | In mesgsToGrant a message with fewer bytes to grant comes first; ties go to the smaller size, then the earlier creation time, then the lower number |
| Ranking.FirstIsSoonest | simulate/homatransport/src/transport/HomaTransport.h:317-330 | The first message of a sender comes before every other of its incomplete messages with bytes to grant |
| Ranking.ListRanked | simulate/homatransport/src/transport/HomaTransport.h:535-550 | Of two listed senders the first message of the earlier one comes before that of the later one, in the same fields |
| Ranking.RankMeans | simulate/homatransport/src/transport/HomaTransport.cc:2067-2073 | A sender goes in behind exactly the listed senders whose first message comes before its own |
| Ranking.BestAreFirst | simulate/homatransport/src/transport/HomaTransport.h:535-550 | What a sender of rank below numToGrant is granted for comes before everything a sender of another rank waits for |
| Ranking.ArrivalBest | simulate/homatransport/src/transport/HomaTransport.cc:1256-1390 | So it is after every packet, with each of the best senders served |
| Ranking.TimerBest | simulate/homatransport/src/transport/HomaTransport.cc:2338-2374 | And after every grant timer |
| Granting.PrioIs | simulate/homatransport/src/transport/HomaTransport.cc:1819-1822 | A grant carries the priority of its sender's slot if the bytes to grant take boostTailBytesPrio or more on the wire; below that it carries the better of the slot's priority and the index of the first cutoff reaching the bytes to grant, or the size in the uniform modes |
| Granting.SendFollowsRule | simulate/homatransport/src/transport/HomaTransport.cc:1809-1868 | One call sends nothing while a grant of at least that priority is paced by the timer, stops the timer at the outstanding limit, and else grants as many of the next bytes as are needed and allowed and arms the timer exactly if the first message may be granted more |
| Granting.TurnSends | simulate/homatransport/src/transport/HomaTransport.cc:2287-2331 | Whoever's turn it is gets at most one grant, at the priority of the slot insPoint gives it |
| Granting.SettleTurns | simulate/homatransport/src/transport/HomaTransport.cc:2287-2331 | Every grant of the recursion is the grant of such a turn |
| Granting.ArrivalTurns | simulate/homatransport/src/transport/HomaTransport.cc:1256-1390 | So is every grant a packet leads to |
| Granting.TimerTurns | simulate/homatransport/src/transport/HomaTransport.cc:2338-2374 | And every grant a grant timer leads to |
| SchedList.RemoveKeepsHead | simulate/homatransport/src/transport/HomaTransport.cc:1966-1978 | Taking a sender out keeps room for the granted senders among the slots that have a priority of their own |
| SchedList.InsPlaceOk | simulate/homatransport/src/transport/HomaTransport.cc:2060-2097 | insPoint moves the head only onto empty slots, keeps ranks, and keeps that room |
| SchedList.InsPlaceUndoesRemove | simulate/homatransport/src/transport/HomaTransport.cc:2060-2097 | After a removal at any rank insPoint answers the old slot and the old head; this is what lastIdx is for |
| SchedList.SlotIsRank | simulate/homatransport/src/transport/HomaTransport.cc:2287-2303 | For one list and one lastIdx, equal slots mean equal ranks: comparing old.sInd with cur.sInd tells whether the rank changed |
| SchedList.GrantedSlot | simulate/homatransport/src/transport/HomaTransport.cc:2452-2463 | A sender of rank below numToGrant has a slot below schedPrios |
| Receiver.FirstSlot | simulate/homatransport/src/transport/HomaTransport.cc:2060-2097 | The first sender listed gets the last slot with a priority of its own, allPrio - 1 |
| Receiver.InsertOk | simulate/homatransport/src/transport/HomaTransport.cc:2025-2046 | Insertion keeps the listed senders exactly those that need grants, strictly sorted by CompSched, whose meaning `Ranking.ListRanked` states |
| Receiver.RemoveOk | simulate/homatransport/src/transport/HomaTransport.cc:1944-2013 | So does removal, and the removed sender would go back to its rank |
| Receiver.RemoveThenInsert | simulate/homatransport/src/transport/HomaTransport.cc:1944-2097 | Removing a sender and inserting it with its key unchanged restores list, headIdx and number of senders, whether removal nulled the head slot or erased one |
| Receiver.KeyIsNew | simulate/homatransport/src/transport/HomaTransport.h:317-330 | No two listed senders have equal keys when idents tell senders apart, so the search by key finds the sender itself |
| Receiver.NextOk | simulate/homatransport/src/transport/HomaTransport.cc:2305-2328 | When handleGrantSentEvent comes round again there is a sender in the last granted slot, and fewer messages need grants than before |
| ReceiverEvents.RemoveFinds | simulate/homatransport/src/transport/HomaTransport.cc:1944-1982 | remove finds exactly the sender by its key, and answers -1 exactly if it needs no grants |
| ReceiverEvents.SettleOk | simulate/homatransport/src/transport/HomaTransport.cc:2287-2331 | The recursion of handleGrantSentEvent keeps the list in order and ends |
| ReceiverEvents.SettleServes | simulate/homatransport/src/transport/HomaTransport.cc:2287-2331 | When it ends each of the first numToGrant senders has its grant timer armed or its top message at the outstanding limit |
| ReceiverEvents.AfterPktRank | simulate/homatransport/src/transport/HomaTransport.cc:2189-2275 | A packet arrival never worsens the rank of its sender and never takes it off the list |
| ReceiverEvents.ArrivalOk | simulate/homatransport/src/transport/HomaTransport.cc:1256-1390 | Work conservation after every packet: each of the first min(numSenders, numToGrant) senders is served, and `Ranking.ArrivalBest` says that they are the best |
| ReceiverEvents.TimerFiresOk | simulate/homatransport/src/transport/HomaTransport.cc:2338-2374 | Work conservation after every grant timer |
| ReceiverEffects.SettleEffect | simulate/homatransport/src/transport/HomaTransport.cc:1809-1868 | Granting changes messages only by a sequence of grants, each for the next bytes of a message below the limit, and counts each once |
| ReceiverEffects.ArrivalWork | simulate/homatransport/src/transport/HomaTransport.cc:1256-1390 | An arrival uses up as much work as the grants it sends bring, apart from the bytes a new message needs granted |
| ReceiverEffects.TimerWork | simulate/homatransport/src/transport/HomaTransport.cc:2338-2374 | A grant timer uses up more work than its grants bring |
| SchedSenders.EraseSlot | simulate/homatransport/src/transport/HomaTransport.cc:1974-1976 | Erasing a slot of the vector is erasing the sender from the list |
| SchedSenders.NullHead | simulate/homatransport/src/transport/HomaTransport.cc:1970-1973 | Nulling the head slot and moving headIdx is the same with the vector length unchanged |
| SchedSenders.InsertSlot | simulate/homatransport/src/transport/HomaTransport.cc:2037-2044 | Inserting into the vector is inserting into the list |
| SchedSenders.RemovalVacates | simulate/homatransport/src/transport/HomaTransport.cc:1966-1978 | Taking out the head nulls its slot and leaves every other slot as it is exactly while numToGrant of the others fit behind it below schedPrios; otherwise the slots below stay and those behind move up by one |
| SchedSenders.OthersKeepSlots | simulate/homatransport/src/transport/HomaTransport.cc:1966-1978 | When the head slot is nulled every other sender keeps its slot and its priority |
| SchedSenders.InsertionFills | simulate/homatransport/src/transport/HomaTransport.cc:2060-2097 | A new best sender takes an empty slot before the head, unless it was last seen at the head, and every other sender keeps its slot; otherwise those behind it move down by one, after exactly as many NULLs are dropped in front as the granted senders lack in priorities |
| SchedSenders.SentStates | simulate/homatransport/src/transport/HomaTransport.cc:2287-2303 | The slots before and after a grant tell whether the sender keeps its place among the granted ones |
| SchedSenders.ReceiveScheduler.Remove | simulate/homatransport/src/transport/HomaTransport.cc:1944-1982 | Changes vector, headIdx, numSenders and lastIdx in place as the value model and `SchedSenders.RemovalVacates` say, slot by slot, and returns the index at which the vector held the sender |
| SchedSenders.ReceiveScheduler.RemoveAt | simulate/homatransport/src/transport/HomaTransport.cc:1993-2013 | Returns NULL and changes nothing exactly outside the listed slots, else takes out the sender of that slot and leaves the other slots as `SchedSenders.RemovalVacates` says |
| SchedSenders.ReceiveScheduler.InsPoint | simulate/homatransport/src/transport/HomaTransport.cc:2060-2097 | Computes slot, head and size after insertion from the vector; the slots it moves the head over are NULL |
| SchedSenders.ReceiveScheduler.Insert | simulate/homatransport/src/transport/HomaTransport.cc:2025-2046 | Keeps NULLs exactly below headIdx, the senders behind it strictly sorted, and the vector of length headIdx + numSenders; slot by slot it does what `SchedSenders.InsertionFills` says |
| SchedSenders.ReceiveScheduler.NumActiveSenders | simulate/homatransport/src/transport/HomaTransport.cc:2109-2132 | Returns min(numSenders, numToGrant), with room for them below schedPrios; its run-time error cannot occur |
| SchedSenders.ReceiveScheduler.SendAndScheduleGrant | simulate/homatransport/src/transport/HomaTransport.cc:1809-1868 | Does to sender, counters and sent grants exactly what the value model says, which follows the rule of `Granting.SendFollowsRule` on priority, length and timer |
| SchedSenders.ReceiveScheduler.HandleGrantSentEvent | simulate/homatransport/src/transport/HomaTransport.cc:2287-2331 | Reacts to a grant by comparing indexes; the recursion ends and never finds the slot to grant empty |
| SchedSenders.ReceiveScheduler.HandlePktArrivalEvent | simulate/homatransport/src/transport/HomaTransport.cc:2189-2275 | Both branches for a sender that lost its place and all errors for impossible positions are unreachable; the rest does what the value model says |
| SchedSenders.ReceiveScheduler.HandleGrantTimerEvent | simulate/homatransport/src/transport/HomaTransport.cc:2338-2374 | Leaves the scheduler in order and every granted sender served |
| SchedSenders.ReceiveScheduler.HandleInboundPkt | simulate/homatransport/src/transport/HomaTransport.cc:1691-1790 | Takes the packet into the sender's messages and the counters and says whether the message is complete |
| SchedSenders.ReceiveScheduler.AddPendingGranted | simulate/homatransport/src/transport/HomaTransport.cc:1525-1536 | Raises one scheduled counter and keeps inflightSchedBytes the sum of all of them |
| SchedSenders.ReceiveScheduler.AddPendingAt | simulate/homatransport/src/transport/HomaTransport.cc:1549-1560 | Raises one unscheduled counter and keeps inflightUnschedBytes the sum of all of them |
| SchedSenders.ReceiveScheduler.AddPendingUnsched | simulate/homatransport/src/transport/HomaTransport.cc:1706-1715 | The loop over the table adds the on-wire bytes of each announced packet at its priority |
| SchedSenders.ReceiveScheduler.ProcessReceivedPkt | simulate/homatransport/src/transport/HomaTransport.cc:1256-1390 | Leaves the scheduler in order and every granted sender served; grants are those of the value model, in order |
| SchedSenders.ReceiveScheduler.GrantedSlotServed | simulate/homatransport/src/transport/HomaTransport.cc:2452-2463 | Each of the first min(numSenders, numToGrant) slots holds a sender that is served, and slots in rank order have strictly increasing priorities below allPrio |
| SchedSenders.ReceiveScheduler.GrantedSlotBest | simulate/homatransport/src/transport/HomaTransport.h:535-550 | What the sender in such a slot is granted for comes before everything that any sender without such a slot waits for |
| Sender.PlanTells | simulate/homatransport/src/transport/HomaTransport.cc:923-1006 | Of the packets a message starts with exactly the first is a request; each begins where the one before ends, has the priority of the bytes left (or of the message, in the uniform modes), and tells size, creation time and unscheduled bytes |
| Sender.PlanAgrees | simulate/homatransport/src/transport/HomaTransport.cc:923-1006 | The request and unscheduled packets of a new message stand for its unscheduled bytes once each, as the receiver will expect |
| Sender.TableOfFirst | simulate/homatransport/src/transport/HomaTransport.cc:970-987 | Whichever unscheduled packet arrives first, its prioUnschedBytes table is, priority by priority, the on-wire size of the others |
| SendController.FirstQueued | simulate/homatransport/src/transport/HomaTransport.cc:582-599 | The first message of the set has a packet of lowest offset within its bytes left, and nothing is left after it exactly when it was the last |
| SendController.ShortestFirst | simulate/homatransport/src/transport/HomaTransport.cc:784-790 | It has the fewest bytes left of all messages with queued packets; ties go to the earlier creation time, then the lower number (SRBF) |
| SendController.SetUpdate | simulate/homatransport/src/transport/HomaTransport.cc:534-545 | A message that changes its key while out of outbndMsgSet leaves the set exactly the messages with queued packets, in order |
| SendController.Scheduled | simulate/homatransport/src/transport/HomaTransport.cc:537-545 | A grant within bytesToSched, which `Flow.AnswersOk` shows every grant of a run to be, lowers bytesToSched by what its packet carries, a positive number of bytes, and puts a message into an empty set |
| SendController.QueuesHold | simulate/homatransport/src/transport/HomaTransport.cc:568-632 | outbndMsgSet is empty exactly when no packet is queued |
| SendController.AddMsgOk | simulate/homatransport/src/transport/HomaTransport.cc:487-508 | A new message keeps the book: bytesLeftToSend and bytesNeedGrant are the sums over messages, and bytesLeft is bytesToSched plus queued bytes |
| SendController.ScheduleOk | simulate/homatransport/src/transport/HomaTransport.cc:520-548 | So does a granted packet |
| SendController.FirstTakenOk | simulate/homatransport/src/transport/HomaTransport.cc:1063-1083 | So does a departing packet |
| SendController.Controller.PrepareRequestAndUnsched | simulate/homatransport/src/transport/HomaTransport.cc:923-1006 | The loop builds exactly the planned packets, with offsets, priorities and tables |
| SendController.Controller.ProcessSendMsgFromApp | simulate/homatransport/src/transport/HomaTransport.cc:479-511 | Records the message; a busy link is left alone, an idle one sends one of its packets |
| SendController.Controller.ProcessReceivedGrant | simulate/homatransport/src/transport/HomaTransport.cc:520-548 | Queues the scheduled packet the grant asks for; a busy link is left alone, an idle one sends it |
| SendController.Controller.KickLink | simulate/homatransport/src/transport/HomaTransport.cc:625-649 | An idle link finds no grant waiting and exactly one message in the set, so the assertion on both holds |
| SendController.TakeFirst | simulate/homatransport/src/transport/HomaTransport.cc:1063-1083 | Takes the packet of lowest offset of the first message of the set and keeps the book |
| SendController.Controller.SendFirst | simulate/homatransport/src/transport/HomaTransport.cc:582-599 | Sends the packet of lowest offset of the message with the fewest bytes left, with those ties |
| SendController.PoppedIsOldest | simulate/homatransport/src/transport/HomaPkt.cc:261-289 | The grant taken from the queue is for the oldest message, among equally old ones for the one with the lowest number, and the others stay queued |
| SendController.Controller.SendGrant | simulate/homatransport/src/transport/HomaTransport.cc:603-623 | A grant leaves at once if the link is idle, where no other grant waits, and is queued otherwise |
| SendController.Controller.SendTimerFired | simulate/homatransport/src/transport/HomaTransport.cc:568-601 | A free link sends the waiting grant that no other is ahead of in the order of HomaPktSorter before any data, then data, and rests exactly when nothing waits |
| Wire.GetBytesOnWire | simulate/homatransport/src/transport/HomaPkt.cc:207-245 | Equals the sum of the frames of full packets and one last packet |
| Wire.PacketSizes | simulate/homatransport/src/transport/HomaPkt.cc:207-245 | Full data packets carry 1442 unscheduled or 1456 scheduled bytes and take 1538 bytes on the wire; a grant takes 84, the least any packet takes |
| Wire.GreedyWire | simulate/homatransport/src/transport/HomaPkt.cc:207-245 | If all packets but the last are full, the on-wire size of the whole is the sum over the packets |
| Packetize.PktSizesSum | simulate/homatransport/src/transport/UnschedByteAllocator.cc:82-95 | Request and unscheduled packets add up to min(msgSize, req + unsched) |
| Packetize.PktSizesBounds | simulate/homatransport/src/transport/UnschedByteAllocator.cc:82-95 | No packet exceeds the payload limit, and only a zero-byte message has an empty one |
| Packetize.AccountingExactIff | simulate/homatransport/src/transport/HomaPkt.cc:207-245 | The per-packet on-wire sum equals that of the whole exactly when the least possible number of packets is used |
| Packetize.ExactForAllSizes | simulate/homatransport/src/transport/UnschedByteAllocator.cc:82-95 | This holds for all message sizes exactly when there are no unscheduled bytes or the request payload is maximal |
| Packetize.UnschedByteAllocator.GetReqUnschedDataPkts | simulate/homatransport/src/transport/UnschedByteAllocator.cc:82-95 | The loop returns those sizes; a request default above the payload limit is an error |
| Priority.GetMesgPrio | simulate/homatransport/src/transport/PriorityResolver.cc:29-43 | The binary search returns the first cutoff that is at least the size |
| Priority.MesgPrioMonotone | simulate/homatransport/src/transport/PriorityResolver.cc:29-43 | Larger messages never get a smaller priority number |
| Priority.UnschedPriosMonotone | simulate/homatransport/src/transport/PriorityResolver.cc:45-78 | Later packets of a message never have a larger priority number, so equal priorities form single runs |
| Priority.GetUnschedPktsPrio | simulate/homatransport/src/transport/PriorityResolver.cc:45-78 | Each packet gets the index of the first cutoff reaching the bytes still to packetize in the graduated and explicit modes, and reaching the message size in the uniform modes |
| Priority.GroupBytes | simulate/homatransport/src/transport/HomaTransport.cc:929-941 | Each priority has at most one entry in the table and it holds all bytes of that priority |
| Priority.TableIsExact | simulate/homatransport/src/transport/HomaTransport.cc:970-987 | A packet's table announces at every priority exactly the on-wire bytes of the other packets there |
| Priority.TableSumsToRest | simulate/homatransport/src/transport/HomaTransport.cc:970-987 | The entries of a packet's table add up to all unscheduled bytes but its own |
| Keys.InsertSorted | simulate/homatransport/src/transport/HomaTransport.h:317-330 | Inserting at the upper bound keeps keys strictly sorted |
| Keys.LowerBoundFinds | simulate/homatransport/src/transport/HomaTransport.h:317-330 | The lower bound of a listed key is its own place |
| CutOffs.StepsFill | simulate/homatransport/src/transport/PriorityResolver.cc:172-179 | The first step times the geometric sum of the weights is one: the shares of all priorities add up to one |
| CutOffs.ThresholdsAreRamp | simulate/homatransport/src/transport/PriorityResolver.cc:182-183 | Thresholds start at zero, each step is the weight times the one before, all but the last are below one and the last is one |
| CutOffs.ChosenAreValid | simulate/homatransport/src/transport/PriorityResolver.cc:180-196 | The chosen sizes ended by UINT32_MAX are strictly increasing, also when sizes repeat in the distribution |
| CutOffs.NextReaching | simulate/homatransport/src/transport/PriorityResolver.cc:184-194 | The inner loop stops at the next entry of another size whose share reaches the threshold |
| CutOffs.Percentiles | simulate/homatransport/src/transport/PriorityResolver.cc:180-195 | Each threshold below one gets the first later entry of another size that reaches it, until the largest size is taken |
| CutOffs.PriorityResolver.SetPercentiles | simulate/homatransport/src/transport/PriorityResolver.cc:171-196 | At most prioResolverPrioLevels cutoffs, strictly increasing, ending in UINT32_MAX, at the entries those thresholds choose |
| CutOffs.PriorityResolver.SetPrioCutOffs | simulate/homatransport/src/transport/PriorityResolver.cc:147-197 | In every mode the cutoffs are such that the binary search may use them, and those of the three computed modes are the ones the thresholds choose from the distribution of that mode |
| RemainSize.PacketsTile | simulate/homatransport/src/transport/WorkloadEstimator.cc:182-204 | The packets of a message are positive and add up to its size |
| RemainSize.PacketAt | simulate/homatransport/src/transport/WorkloadEstimator.cc:182-204 | The first packet carries what the request allows; any other is full unless it ends the unscheduled bytes or the message, has the on-wire size of its kind, and needs a grant exactly if it lies behind the unscheduled bytes |
| RemainSize.MessageCosts | simulate/homatransport/src/transport/WorkloadEstimator.cc:182-204 | On the wire a message takes its request, its other unscheduled bytes and its scheduled bytes, the last two in as few packets as they fit in, and one grant for every 1456 scheduled bytes or part of them |
| RemainSize.Packetized | simulate/homatransport/src/transport/WorkloadEstimator.cc:175-204 | The loop yields these packets, and sums up exactly what `RemainSize.MessageCosts` says the packets and the grants take on the wire |
| RemainSize.ItemsAt | simulate/homatransport/src/transport/WorkloadEstimator.cc:213-225 | For the bytes left at each packet a message size adds its probability and that share of the packet's on-wire bytes, unless the packet lies behind the first cbfCapMsgSize and before the last boostTailBytesPrio bytes on the wire |
| RemainSize.ItemsInFull | simulate/homatransport/src/transport/WorkloadEstimator.cc:206-225 | A message that is on the wire no longer than the cap adds its probability times all its on-wire bytes |
| RemainSize.ProbsAdd | simulate/homatransport/src/transport/WorkloadEstimator.cc:171-174 | The probabilities of the sizes up to one add up to what the distribution says of it |
| RemainSize.OneSize | simulate/homatransport/src/transport/WorkloadEstimator.cc:206-206 | Where all messages are of one size the grants take what the grants of one message take |
| RemainSize.SeekBack | simulate/homatransport/src/transport/WorkloadEstimator.cc:227-233 | Both cursors stop together at the last entry of at most the remaining size, or at the beginning |
| RemainSize.Place | simulate/homatransport/src/transport/WorkloadEstimator.cc:227-260 | All four branches put the item in its place in both lists and leave both cursors before everything that remains larger |
| RemainSize.AddMessage | simulate/homatransport/src/transport/WorkloadEstimator.cc:208-267 | The two lists stay strictly ascending and key-aligned and group what is counted by remaining size |
| RemainSize.GroupedItems | simulate/homatransport/src/transport/WorkloadEstimator.cc:164-269 | Over all messages the lists are the plain sums of probability, and of probability times on-wire bytes, by remaining size; the running totals are theirs |
| RemainSize.PrefixIsUpTo | simulate/homatransport/src/transport/WorkloadEstimator.cc:285-293 | Summing the lists in order gives what is counted up to each size |
| RemainSize.SomethingCounted | simulate/homatransport/src/transport/WorkloadEstimator.cc:213-225 | The counted packets have a positive probability exactly when some size of positive probability has a positive cap or a last packet smaller than the boost, and none are counted exactly when no size has |
| RemainSize.NothingCounted | simulate/homatransport/src/transport/WorkloadEstimator.cc:213-225 | Without a cap, and with a boost no larger than the smallest frame, nothing is ever counted |
| RemainSize.WorkloadEstimator.GetRemainSizeCdfCbf | simulate/homatransport/src/transport/WorkloadEstimator.cc:133-294 | If some size of positive probability counts, both results have strictly ascending sizes, do not fall, end at exactly one, and hold at every size the share of packets, and of bytes with or without grants, up to it; otherwise they are empty but for a grant entry, or the source divides zero by zero, exactly when the contract says; the alignment assertion holds |
| RemainSize.EstimateIsDistribution | simulate/homatransport/src/transport/PriorityResolver.cc:163-169 | The estimate is a distribution from which cutoffs can be taken |
| RemainSize.RecomputeCbf | simulate/homatransport/src/transport/PriorityResolver.cc:135-145 | In the graduated mode the cutoffs are those the thresholds choose from the estimate, and the binary search may use them |
| FluidShare.HeapPush | simulate/common/determine_inter_mimic_intervals.py:56-56 | Keeps the heap order and adds one entry |
| FluidShare.HeapPop | simulate/common/determine_inter_mimic_intervals.py:41-41 | Keeps the heap order and removes the root |
| FluidShare.Drain | simulate/common/determine_inter_mimic_intervals.py:48-51 | Taking the same amount from every entry in place keeps the heap order |
| FluidShare.DrainedWithout | simulate/common/determine_inter_mimic_intervals.py:41-51 | Popping before the subtraction leaves the same entries as popping after it |
| FluidShare.Turn | simulate/common/determine_inter_mimic_intervals.py:31-51 | One turn either ends the flow with the least left, at the moment its shares add up to its size, or lets time reach the next start |
| FluidShare.GetEndTimes | simulate/common/determine_inter_mimic_intervals.py:17-56 | Every input flow is emitted once with end >= start; it shares the bandwidth equally at all times between start and end, and at no other, and its shares add up to its size |
| FluidShare.Conservation | simulate/common/determine_inter_mimic_intervals.py:17-56 | Bandwidth times busy time equals the total size of the flows |
| Murmur.Murmur3In32Bits | simulate/src/murmur.cc:4-40 | The wrapping 32-bit hash is MurmurHash3 of the bytes |
| Murmur.Murmur3Unbounded | simulate/common/murmur.py:5-50 | So is the hash in unbounded integers, although it masks only in places |
| Murmur.RotlMasked | simulate/common/murmur.py:19-19 | Rotating with one mask at the end is rotating in a word |
| Murmur.TailWord | simulate/src/murmur.cc:20-27 | The loop from the last byte down gives the little-endian number of the tail |
| Murmur.BothHashes | simulate/common/murmur.py:5-50 | Both computations give the same hash for every byte string |
| Murmur.BothIndices | simulate/common/murmur.py:72-84 | So the indices computed from them agree exactly when that hash is below 2^31 or the group size divides 2^32 |
| MurmurValues.HashOfBlock | simulate/src/murmur.cc:4-40 | The hash of four bytes 0x61 from seed 0x9747B28C is 0x5A97808A, as for every implementation of MurmurHash3_x86_32 |
| MurmurValues.HashOfTail | simulate/src/murmur.cc:20-40 | The hash of the three bytes 0x21, 0x43, 0x65 from seed 0 is 0x7E4A8634, likewise |
| Murmur.PositiveModIsRemainder | simulate/src/murmur.cc:42-44 | Truncating remainders taken twice give the non-negative remainder |
| Murmur.SumInRange | simulate/src/murmur.cc:42-44 | The sum in between stays an int for every value exactly when the modulus is at most 2^30 |
| Murmur.IndicesAgree | simulate/common/murmur.py:72-84 | The tools' index equals the router's exactly when the hash is below 2^31 or the group size divides 2^32 |
| RouteOrder.LessIsOrder | simulate/src/ipv4flow/IFlowRoutingTable.cc:546-563 | routeLessThan is a strict weak order |
| RouteOrder.NearerFirst | simulate/src/ipv4flow/IFlowRoutingTable.cc:546-563 | Longer netmasks are listed first; of two routes with one netmask and one destination the one with the smaller distance comes first, then the one with the smaller metric |
| RouteOrder.InsertKeepsOrder | simulate/src/ipv4flow/IFlowRoutingTable.cc:604-605 | Inserting at the upper bound keeps the table sorted |
| RouteOrder.SameDestinationMatches | simulate/src/ipv4flow/ecmp/ECMPRoutingTable.cc:50-50 | What matches a route matches any route to the same destination under a shorter netmask |
| Ecmp.CollectIs | simulate/src/ipv4flow/ecmp/ECMPRoutingTable.cc:42-54 | The scan collects the candidates from the first match up to the first valid route with another destination |
| Ecmp.CollectsLongest | simulate/src/ipv4flow/ecmp/ECMPRoutingTable.cc:40-54 | The scan collects all valid longest-prefix matches, and exactly these if and only if it does not run on into a shorter netmask with the same destination |
| Ecmp.NotSharedNotOverrun | simulate/src/ipv4flow/ecmp/ECMPRoutingTable.cc:42-54 | It never does when no destination is shared by two netmasks |
| Ecmp.TwoPrefixes | simulate/src/ipv4flow/ecmp/ECMPRoutingTable.cc:47-52 | Two routes to one destination under different netmasks are both collected for that destination |
| Ecmp.OverrunExample | simulate/src/ipv4flow/ecmp/ECMPRoutingTable.cc:47-52 | A concrete pair of routes for which the scan collects more than the longest matches |
| RoutingTables.OverrunTable | simulate/src/ipv4flow/IFlowRoutingTable.cc:570-620 | addRoute accepts both routes, and the table it makes is the one in which that happens |
| EcmpChoice.FlowsTellDestination | simulate/src/ipv4flow/ecmp/ECMPRoutingTable.cc:68-128 | No two flows to different destinations have the same cache key, whichever encoder made it |
| EcmpChoice.EndsTold | simulate/src/ipv4flow/ecmp/ECMPRoutingTable.cc:68-93 | Keys of the first two encoders have their own lengths, and source and destination can be read back from them |
| EcmpChoice.MessageTold | simulate/src/ipv4flow/ecmp/ECMPRoutingTable.cc:95-110 | So can source, destination and message number from keys with a message number |
| EcmpChoice.PortsTold | simulate/src/ipv4flow/ecmp/ECMPRoutingTable.cc:112-128 | And both addresses and both ports from keys with ports |
| EcmpChoice.UniqueRises | simulate/src/ipv4flow/ecmp/ECMPRoutingTable.cc:59-61 | Sorting and unique leave one route a gateway, in rising order, and lose no gateway |
| EcmpChoice.Choose | simulate/src/ipv4flow/ecmp/ECMPRoutingTable.cc:59-62 | The flow takes the gateway with as many smaller ones as its hash index says |
| EcmpChoice.AnswersAgree | simulate/src/ipv4flow/ecmp/ECMPRoutingTable.cc:32-66 | Two lookups of one flow in one table give the same gateway |
| EcmpChoice.OrderDoesNotMatter | simulate/src/ipv4flow/ecmp/ECMPRoutingTable.cc:56-64 | Two tables of the same routes, however they were filled, send a flow to the same gateway if no destination is shared by two netmasks |
| EcmpChoice.NoAnswerAlike | simulate/src/ipv4flow/ecmp/ECMPRoutingTable.cc:56-58 | They have no route for the same destinations |
| EcmpChoice.FreshIsLongest | simulate/src/ipv4flow/ecmp/ECMPRoutingTable.cc:40-64 | Unless the scan overruns, the answer is a longest match by the gateway the flow takes among those of exactly the longest matches, and there is none exactly when nothing matches |
| RoutingTables.LookupIsLongest | simulate/src/ipv4flow/ecmp/ECMPRoutingTable.cc:32-66 | So it is in every table the operations keep in order |
| RoutingTables.SameRoutesSameGateway | simulate/src/ipv4flow/ecmp/ECMPRoutingTable.cc:32-66 | Two such tables of the same routes answer with the same gateway if no destination is shared by two netmasks |
| GatewayChange.AnswerSurvives | simulate/src/ipv4flow/IFlowRoutingTable.cc:781-793 | After a change of gateway, which keeps the cache, a cached answer is still that of a fresh scan exactly when the scan does not collect the changed route or the flow still takes the answer's gateway |
| GatewayChange.SurvivesIffPassesNone | simulate/src/ipv4flow/IFlowRoutingTable.cc:781-793 | Where the changed route has a gateway of its own before and after, that is exactly when the change passes no other gateway, or not that of the answer |
| GatewayChange.NothingSurvives | simulate/src/ipv4flow/IFlowRoutingTable.cc:781-793 | Two routes by gateways 1 and 2, the first changed to 3: no cached answer survives |
| RoutingTables.RoutingTable.GatewayChanged | simulate/src/ipv4flow/IFlowRoutingTable.cc:781-793 | The table stays in order; the cache stays good exactly when every cached answer survives |
| RoutingTables.StaleTable | simulate/src/ipv4flow/IFlowRoutingTable.cc:781-793 | A table, a lookup and a change of gateway after which the cache holds an answer that no fresh scan gives |
| RoutingTables.RoutingTable.FindBestMatchingRoute | simulate/src/ipv4flow/ecmp/ECMPRoutingTable.cc:32-66 | The answer, cached or not, is one a fresh scan gives and, unless the scan overruns, a longest match by the flow's gateway; only the flow's own cache entry changes |
| RoutingTables.CachedInTable | simulate/src/ipv4flow/ecmp/ECMPRoutingTable.cc:33-38 | A cached route is a valid one in the table |
| RoutingTables.RoutingTable.GetDefaultRoute | simulate/src/ipv4flow/IFlowRoutingTable.cc:532-541 | Returns the last valid route without netmask, and NULL exactly if the table has none |
| RoutingTables.RoutingTable.InternalAddRoute | simulate/src/ipv4flow/IFlowRoutingTable.cc:570-608 | Refuses exactly the unacceptable routes, replaces the last valid default route, and inserts in order |
| RoutingTables.RoutingTable.AddRoute | simulate/src/ipv4flow/IFlowRoutingTable.cc:610-620 | Also empties the cache |
| RoutingTables.RoutingTable.InternalRemoveRoute | simulate/src/ipv4flow/IFlowRoutingTable.cc:622-631 | Erases exactly the given route |
| RoutingTables.RoutingTable.RemoveRoute | simulate/src/ipv4flow/IFlowRoutingTable.cc:633-648 | The cache is emptied exactly if the route was there, and stays good |
| RoutingTables.RoutingTable.DeleteRoute | simulate/src/ipv4flow/IFlowRoutingTable.cc:650-665 | The same, and the route object is gone |
| RoutingTables.RoutingTable.Purge | simulate/src/ipv4flow/IFlowRoutingTable.cc:447-488 | Keeps exactly the valid routes in order and the cache good |
| RoutingTables.RoutingTable.DeleteInterfaceRoutes | simulate/src/ipv4flow/IFlowRoutingTable.cc:215-266 | Keeps exactly the routes of other interfaces in order and the cache good |
| RoutingTables.RoutingTable.UpdateNetmaskRoutes | simulate/src/ipv4flow/IFlowRoutingTable.cc:810-852 | Replaces exactly the interface netmask routes and keeps the table sorted |
| RoutingTables.RoutingTable.RouteChanged | simulate/src/ipv4flow/IFlowRoutingTable.cc:781-793 | After a change of destination, netmask or metric the route is at its new place and the cache empty |
| RoutingTables.RoutingTable.InterfaceStateChanged | simulate/src/ipv4flow/IFlowRoutingTable.cc:194-201 | A change of validity leaves the table sorted and the cache empty |
| Fragmentation.FragmentAndSend | simulate/src/ipv4flow/IPv4Flow.cc:780-856 | Lowers the hop count by one unless the interface is a loopback, and ends in each of the four outcomes exactly when hop count, MTU, header and don't-fragment call for it; what fits leaves whole, what does not leaves in noOfFragments pieces of which all but the last carry the largest multiple of eight bytes that fits |
| Fragmentation.ForwardOutcome | simulate/src/ipv4flow/IPv4Flow.cc:786-819 | Time exceeded exactly if the hop count behind the interface is negative; fragmentation needed, configuration error and sent each exactly under its condition; every piece has the lowered hop count |
| Fragmentation.ForwardMakesPieces | simulate/src/ipv4flow/IPv4Flow.cc:800-853 | The pieces of one hop tile the payload, fit the MTU, and all but the last are positive multiples of 8 bytes with more-fragments set |
| Fragmentation.HopKeepsPieces | simulate/src/ipv4flow/IPv4Flow.cc:800-853 | Fragmenting pieces again gives pieces of the same datagram |
| Fragmentation.ChainKeepsPieces | simulate/src/ipv4flow/IPv4Flow.cc:800-853 | So does any chain of hops; each piece fits every MTU of the chain (section 3.2 of RFC 791) |
| Fragmentation.ChainEndsOnce | simulate/src/ipv4flow/IPv4Flow.cc:845-847 | A datagram that began with more-fragments clear ends with exactly one such piece |
| Fragmentation.ChainAges | simulate/src/ipv4flow/IPv4Flow.cc:786-787 | What comes out of a chain has the hop count of what went in less one for each interface that is not a loopback |
| Fragmentation.ChainReached | simulate/src/ipv4flow/IPv4Flow.cc:780-856 | Where fragmenting is allowed and every MTU leaves room, a datagram comes through a chain exactly if its hop count lasts, and is dropped as time exceeded otherwise |
| Fragmentation.ChainUnfragmented | simulate/src/ipv4flow/IPv4Flow.cc:807-814 | With don't-fragment set it comes through exactly if its hop count lasts and it is too long for no hop, and then whole |
| FatTree.AddressesDistinct | simulate/common/generate_routes.py:65-132 | No address is given to two ports |
| FatTree.GatewayOnLink | simulate/common/generate_routes.py:138-220 | The port a route names exists and its gateway is the other end of that port's link |
| FatTree.StepNearer | simulate/common/generate_routes.py:138-220 | Whichever equal-cost route is chosen, the next node is one step nearer to the destination |
| FatTree.CanStep | simulate/common/generate_routes.py:138-220 | No node is without a route to any host |
| FatTree.Delivered | simulate/common/generate_routes.py:156-220 | Every way from host to host reaches its destination, through at most five routers, and cannot stop before |
| FatTree.AddressesFit | simulate/common/generate_routes.py:65-132 | Every generated address has bytes for its parts exactly up to 256 clusters, degree 8 and 64 servers in a rack |

## Left out

- SenderState and inbound messages are values in a map that the scheduler object reassigns, not objects of their own; aliasing between the map, the vector and the sets is therefore not captured.
- The send controller keeps its message map, queues, set and byte totals in one field of a value type; the ordered containers are sequences with the lower and upper bounds of the standard library as functions.
- Only the SRBF sender scheme is modelled; the scheme that compares packets at the head of each message is not.
- Runs.NoAssertionFails: covers the assertions on messages, queues, sets and byte counts; assertions on statistics, times and bandwidth accounting are not part of the model.
- Runs.MaximalRunDelivers: time is not modelled; timers may fire whenever they are armed, which includes every real timing. In a run any queued packet may be the next to leave and any waiting grant may be; the Controller class sends the first of its set and the first of its grants.
- SendController.Controller.SendTimerFired: among grants of equal creation time and message number the source leaves the choice to its priority queue; the model takes the one queued first.
- handleBwUtilTimerEvent and changes of numToGrant: disabled by the configuration.
- Oversubscription periods, wasted bandwidth, round-trip tracking, result filters and signals.
- Round-robin scheduling of senders and the unscheduled-rate estimate in pacing.
- FluidShare.GetEndTimes: times and sizes are reals, start times and sizes are not negative and equal records are told apart by a number. Sifting compares sizes only, where the library also compares records of equal size; the order of outputs with equal end times may differ.
- CutOffs.PriorityResolver.SetPercentiles: probabilities are reals and the usage weight is positive.
- RemainSize.WorkloadEstimator.GetRemainSizeCdfCbf: probabilities are reals and sizes do not wrap; where the source divides zero by zero the result is empty and not defined. With a request size of zero its packetizing loop does not end.
- getCbfFromCdf and reading distributions from files.
- The sort of equal-cost routes is stable here and unspecified there; results are stated about gateways, which do not depend on it.
- RoutingTables.RoutingTable.FindBestMatchingRoute: route objects are handles into a map of their fields; a change of the administrative distance, for which the source does nothing, is not an operation of the model.
- outstandingGrantBytes: it changes with inflightSchedBytes and by the same amounts, and is only emitted as a signal.
- SendController.Scheduled: that a grant is positive and within bytesToSched is what the source asserts; `Flow.AnswersOk` shows that it always holds.
- Runs.RunSafe: keys must tell senders apart over all messages of the workload, although only those live at the same time need to.
- Caches of local and broadcast addresses, multicast routes, notifications and display strings.
- Fragmentation.FragmentAndSend: filling in the source address, sending through ARP and ICMP error messages; a dropped datagram is an outcome.
- FatTree.Delivered: the loops that write the lines are modelled by which iteration writes which line; clusters that are emulated are not modelled.
- The trace tools besides getEndTimes, the hash and the route generator; MimicDCN and its traffic generation.

# Beethoven runtime: verified models

Dafny models of the parts of the BeethovenRuntime daemon where correctness spans many steps and
several components, with proofs of what they promise over whole runs.

**The DRAM controller** (`Common`, `Timing`, `Banks`, `Channels`, `CommandQueues`, `Controllers`,
`AddressMap`, `MappingSetup`). Transactions arrive, wait in transaction queues, become commands in
per-bank or per-rank queues, and go out one per cycle as the rows, timers, activation windows and
refreshes of the channel allow. The functions of these modules say what one operation computes.
`Trace` says what a legal, timed and windowed command trace is, without looking at the controller;
`ChannelProofs`, `QueueProofs`, `ControllerProofs`, `RefreshProofs`, `Runs`, `Latency`, `Progress`,
`BankProgress` and `Service` prove that every run produces such traces, loses no transaction, keeps
hazards in order and serves refreshes in order. `Jedec` states the delays in the terms of the data sheet, and
`DataBus` what they mean for the data bus. `Reference` says from the trace, the data sheet and the queues
alone which command has to go out next, and proves that the controller, with its timers, counters, windows and
queue index (`BankHistory`), always sends that one; `Rotation` concludes that the queues take turns, and
`Drain` says what moves from the transaction queues. With rank refreshes, or with a queue per rank, each is served
within a bound once it is in front, and from its insertion on where the interval is long enough. `Scenes`,
`Lone` and `LoneRead` follow runs with one transaction at a time cycle by cycle for any configuration;
`RefreshGaps`, `Starvation` and `Backlog` show where the promises end, and `RuntimeMemory` what holds of the
memory the runtime configures. The classes `ChannelState`, `CommandQueue`, `Refresh` and `Controller` run
the operations as the source does, with loops and fields updated in place, and are proved equal to the
functions; a live `Controller` always satisfies the run invariant.

**The memory front end** (`MemoryBursts`, `MemoryFront`, class `FrontEnd`). AXI bursts are cut into
DRAM requests; answers come back in any order and leave as beats in order; writes are counted and
answered once. `MemoryRequests` and `MemoryPorts` say what is asked of DRAM and memory for each burst and what
passes on each AXI channel in a clock, and `MemoryDemand` what that makes of a run. `MemorySystem` puts it on top of one controller per channel and proves that the pair has
a single way to fail; `BurstOverruns` shows which reads lead there.

**The shared-memory command protocol** (`CommandProtocol`). Any number of client threads, the command
server and the response thread interleave access by access; mutexes are binary semaphores, since the
code unlocks from threads that did not lock. `ProtocolInvariant` states who owns each response slot,
`ProtocolProofs` shows that every step keeps it, `ProtocolRuns` draws the conclusions, `ProtocolLimits`
shows where they end, `ProtocolLedger` that no command is lost, and `ProtocolCounts` gives a count that keeps
applications clear of the end.

**The AXI-lite control machine** (`AxiLite`, class `AxiControl`). Three machines share a bus. A monitor
that sees only the wires records completed transfers, and `AxiLiteProofs` shows that the transfers are
those of the polling loop the runtime uses on hardware; `AxiLitePolls` says when a command or a poll starts,
and `AxiLiteReach` builds a run that skips an acknowledgement.

**The calendar function** (`Calendar`) of the command-line tool.

## Where the code falls short of its description

- Response routing depends on the cores in use. The core id passes through eight bits both when a
  command is filed and when its response is looked up, while ten bits are packed into the command.
  `ProtocolLimits.RoutingIffLowBytesDiffer` gives the exact condition.
- A read burst longer than one DRAM request and not a whole number of them runs past its flags once
  its answers are in. `MemoryBursts.BeatReordering` and `MemoryBursts.FullWidthFits` give the exact
  condition for a burst, `MemorySystem.EndToEnd` for a run, and `BurstOverruns.FittingIff` for a set of
  offers; `BurstOverruns.OfferFails` is the run.
- A burst longer than one DRAM request and not a whole number of them asks DRAM for less than its bytes:
  `MemoryRequests.RequestsCover` gives the exact condition.
- With closed pages a write can put its data on the bus before the data of an earlier read of the bank has left,
  if the read latency is long enough: `Jedec.BusIff` gives the exact condition. The memory the runtime configures
  is clear of it (`DataBus.RuntimeBusFree`).
- A read waits while DRAM refuses its first address, even when its next request is for another channel that would
  take it (`MemoryDemand.FirstAddressStalls`).
- The state that offers the acknowledgement of a response word runs into the state that waits for the
  write response. `AxiLiteProofs.Unacknowledged` says exactly when an acknowledgement is skipped, and
  `AxiLiteReach.SkippedAcknowledgement` is a run in which it happens.
- A bank can be activated in the cycle after its own refresh: the delays of a bank refresh to its own bank
  are filed in a table that is never consulted for that command. `RefreshGaps.RecoveryIff` gives the exact
  condition, and `RefreshGaps.RuntimeNoRecovery` a run.
- With auto-precharge an activate and the next refresh of the bank can be closer than tRC.
  `RefreshGaps.RowCycleIff` gives the exact condition, and `RefreshGaps.RuntimeShortRow` a run.
- With a queue per bank, a bank refresh in front can be put off for ever: every activate of another bank of
  its rank pushes it back by tRC (`BankProgress.HeldBack`). `Starvation.PromptIff` gives the exact condition
  where two banks can take turns, and `Starvation.Starves` the runs.
- Bank refreshes can pile up without any traffic: each pushes those of the other banks of its rank back by
  tREFI, while one is inserted every tREFIb. `Backlog.BoundedIff` gives the exact condition;
  `Backlog.PilesUp` says that where it fails they pile up in every run. The memory the runtime configures
  would do so if it were set to BANK_LEVEL_STAGGERED (`Backlog.RuntimeBacklog`).
- Allocating a response slot while all 256 are taken runs off the free list. `ProtocolRuns.OnlyExhaustionFaults`
  says that nothing else faults, `ProtocolLimits.ExhaustionReached` is a run in which it happens, and
  `ProtocolCounts.FewOutstanding` says that it takes more than 256 commands sent and not collected.

## Model

| member | source | states |
|---|---|---|
| Runs.RunInv | runtime/DRAMsim3/src/controller.cc:45-266 | in every interleaving of arriving transactions, clock ticks and callbacks no exit and no out-of-range access is reached, and device, books and refresh order stay sound |
| Runs.TraceSafety | runtime/DRAMsim3/src/channel_state.cc:76-314 | the command trace of every run is legal (accesses hit the row of the latest activate, precharges hit open banks, activates and refreshes closed ones), keeps every delay of the tables consulted between any two commands, and keeps the four- and thirty-two-activate windows |
| Runs.Conservation | runtime/DRAMsim3/src/controller.cc:161-262 | in every run each accepted transaction is exactly one of pending read, awaiting its callback, called back; each pending address waits exactly once over all transaction and command queues; at most one write per address is pending |
| Runs.WriteAfterReads | runtime/DRAMsim3/src/controller.cc:197-262 | after every run, with split and with unified queues, the command of the next tick is no write of an address with a read pending |
| Runs.DrainBounded | runtime/DRAMsim3/src/controller.cc:197-227 | in every run the count of writes left to drain lies between 0 and the size of the write buffer |
| Runs.RefreshesInOrder | runtime/DRAMsim3/src/refresh.cc:21-82 | in every run the refreshes issued, followed by those waiting, are the first insertions of the rotation: none lost, repeated or overtaken |
| Runs.TickInv | runtime/DRAMsim3/src/controller.cc:65-149 | one clock tick of a sound controller reaches no exit and keeps it sound |
| Latency.CallbackLatency | runtime/DRAMsim3/src/controller.cc:45-63 | whatever is called back after any run is due: a write at least a cycle after it arrived, a read likewise if a write of its address was still to go out when it arrived, and otherwise at least the read delay after a read command for its address that went out since it arrived and before any write of the address that did |
| Latency.ReadSeesWrites | runtime/DRAMsim3/src/controller.cc:178-194 | after every run a read for which there is room is due in the next cycle, and waits nowhere, if a write of its address was accepted and no write command for it has gone out since; otherwise it becomes a pending read |
| Latency.WriteTaken | runtime/DRAMsim3/src/controller.cc:166-177 | after every run a write for which there is room is due in the next cycle and outstanding from then on |
| Latency.PendingIff | runtime/DRAMsim3/src/controller.cc:166-262 | in every run the pending writes are exactly the writes accepted whose command has not gone out since |
| Latency.PendingReadsFirst | runtime/DRAMsim3/src/controller.cc:178-262 | in every run no pending read is younger than a pending write of its address, and no command has written the address since the read arrived |
| Latency.RunAskedFor | runtime/DRAMsim3/src/controller.cc:268-278 | in every run each access goes to the coordinates of its address, and a transaction of its kind at that address was accepted before |
| Reference.RunAsked | runtime/DRAMsim3/src/controller.cc:65-82 | in every run the next command is the one that trace, data sheet, waiting refreshes and queues ask for: one for the refresh in front; failing that, the oldest offer of the first open queue with one after the queue served last; failing that, none. Timers, row hits, windows and the queue index do not occur in the statement |
| Reference.RunExact | runtime/DRAMsim3/src/channel_state.cc:117-314 | in every run rows, timers, windows and row hits of the channel say of each bank exactly what the trace says |
| Reference.ReadyIs | runtime/DRAMsim3/src/channel_state.cc:102-115 | a request to a bank gets its next command exactly when every minimum of the data sheet since every earlier command, and the activate windows, allow it |
| Reference.RankIs | runtime/DRAMsim3/src/channel_state.cc:76-101 | a rank refresh closes the first bank that can be closed, and goes out exactly when all banks of its rank are closed and free |
| Reference.CandidateIs | runtime/DRAMsim3/src/command_queue.cc:77-110 | a queued request gets its next command exactly when the channel allows it, a row being closed only for the oldest request to the bank and, while another queued request wants it, only after four accesses; a write waits for older reads of its column |
| Reference.SearchIs | runtime/DRAMsim3/src/command_queue.cc:36-54 | the search finds the first offer of the first open queue after the index, or that no queue has one |
| Reference.RunServed | runtime/DRAMsim3/src/command_queue.cc:138-144 | in every run the queue index is the queue served last |
| Rotation.TakesTurns | runtime/DRAMsim3/src/command_queue.cc:36-54 | a queue that is open and has something to send at every tick of a stretch of a run is among the first queues served in it, as many as there are queues |
| Rotation.CloserTurn | runtime/DRAMsim3/src/command_queue.cc:138-144 | while a queue is open and has something to send, every command taken from another queue brings its turn closer |
| BankHistory.RunHits | runtime/DRAMsim3/src/bankstate.cc:92-165 | in every run each bank counts the accesses since its row was opened |
| BankHistory.RunJustified | runtime/DRAMsim3/src/bankstate.cc:167-171 | in every run each timer stands where a command of the trace put it, or at zero |
| Drain.RunScheduled | runtime/DRAMsim3/src/controller.cc:197-227 | what a tick moves after any run: with split queues the oldest write with room while there are writes to drain, which starts when the buffer is full or holds more than eight with no command queued; else the oldest read with room; a write with a read of its address pending moves nothing and ends the draining; with a unified queue the oldest transaction with room |
| Drain.DrainStarts | runtime/DRAMsim3/src/controller.cc:197-205 | after any run, with more than eight writes buffered, nothing queued and no read of the first one's address pending, a tick turns that write and nothing else into a command |
| Drain.DrainsAll | runtime/DRAMsim3/src/controller.cc:197-227 | once draining starts, as many writes as were buffered move before any read does, unless a pending read holds one back |
| Drain.RunWithin | runtime/DRAMsim3/src/controller.cc:151-159 | in every run no transaction queue and no command queue holds more than its size |
| RefreshProofs.InsertionTime | runtime/DRAMsim3/src/refresh.cc:21-27 | the k-th refresh is inserted at cycle (k + 1) * interval and at no other |
| RefreshProofs.CountersStep | runtime/DRAMsim3/src/refresh.cc:62-82 | the counters after k insertions are rank k mod R, or bankgroup k mod G, bank k div G mod B, rank k div GB mod R |
| RefreshProofs.FullCoverage | runtime/DRAMsim3/src/refresh.cc:29-82 | any full cycle of consecutive insertions covers every bank exactly once, rank by rank or bank by bank |
| Progress.Isolation | runtime/DRAMsim3/src/command_queue.cc:36-75 | from the tick a refresh is in front until it is issued, whatever arrives, nothing goes to the banks it covers but precharges |
| QueueProofs.RefIndicesCover | runtime/DRAMsim3/src/command_queue.cc:146-171 | the queues shut for a refresh hold every request to a bank it covers, and in PER_BANK mode nothing else; in PER_RANK mode the whole queue of its rank is shut |
| Progress.TickCloser | runtime/DRAMsim3/src/command_queue.cc:56-75 | with a rank refresh in front every tick issues it or lowers the measure of open banks and timer time left, whatever other ranks do |
| Progress.RefreshInTime | runtime/DRAMsim3/src/controller.cc:65-82 | a rank refresh that reaches the front after any run is issued within the service time: a precharge and its delay for each bank of the rank, and the longest delay of the commands in use |
| BankProgress.BankTick | runtime/DRAMsim3/src/command_queue.cc:56-75 | with a bank refresh in front every tick issues it, lowers the measure of open banks and timer time left or, with a queue per bank only, activates a bank of its rank |
| BankProgress.BankRefreshInTime | runtime/DRAMsim3/src/controller.cc:65-82 | a bank refresh that reaches the front after any run is issued within the service time, unless there is a queue per bank and a bank of its rank is activated meanwhile |
| BankProgress.HeldBack | runtime/DRAMsim3/src/timing.cc:182-242 | in every sound trace a bank refresh comes at least tRC after any activate, and tREFI after any refresh, of another bank of its rank |
| Service.PromptHolds | runtime/DRAMsim3/src/command_queue.cc:146-162 | with rank refreshes, or with a queue per rank, the service time bounds the wait in front of every refresh in every run, with no exception |
| Service.FromInsertion | runtime/DRAMsim3/src/refresh.cc:21-27 | whatever bound holds on the wait in front, if it is no longer than the interval then in every run each refresh is issued within it of its insertion, and at most one ever waits |
| Service.IssuedInTime | runtime/DRAMsim3/src/refresh.cc:21-27 | so with rank refreshes or a queue per rank, and an interval no shorter than the service time |
| RuntimeMemory.InTime | runtime/custom_dram_configs/DDR4_8Gb_x16_3200.ini:1-64 | the memory the runtime configures issues every refresh within 745 cycles of its insertion, one every 6240, in every run |
| Starvation.Starves | runtime/DRAMsim3/src/timing.cc:182-202 | with bank refreshes and a queue per bank, for every n a run of at least n cycles in which no refresh is issued and all inserted ones wait, pages open or closed, for any two banks of the rank that can take turns faster than tRC |
| Starvation.PromptIff | runtime/DRAMsim3/src/command_queue.cc:146-162 | where two banks can take turns, a bound on the wait in front exists for all refreshes of all runs if and only if refreshes are by rank or there is one queue per rank |
| Starvation.Piles | runtime/DRAMsim3/src/refresh.cc:21-61 | otherwise any number of refreshes can come to wait at once |
| Starvation.RuntimePiles | runtime/custom_dram_configs/DDR4_8Gb_x16_3200.ini:1-64 | the memory of the runtime with BANK_LEVEL_STAGGERED, pages open or closed, is one of these |
| Backlog.StepApart | runtime/DRAMsim3/src/timing.cc:232-242 | in every sound trace a bank refresh comes at least tREFI after the one before it in the rotation, if that is of the same rank, and a cycle otherwise |
| Backlog.RefreshRate | runtime/DRAMsim3/src/timing.cc:232-242 | in every run, whatever arrives, the refreshes issued have taken these distances from the first insertion on, and all others inserted wait |
| Backlog.PilesUp | runtime/DRAMsim3/src/timing.cc:232-242 | if a rank's worth of refreshes costs more cycles than their insertions take, then for every n at least n wait from some cycle on, in every run |
| Backlog.StaysBounded | runtime/DRAMsim3/src/refresh.cc:21-61 | if it costs no more, the number that wait stays bounded in every run without traffic |
| Backlog.BoundedIff | runtime/DRAMsim3/src/refresh.cc:21-61 | the number of bank refreshes that wait is bounded without traffic if and only if a rank's worth of them costs no more cycles than their insertions take |
| Backlog.RuntimeBacklog | runtime/custom_dram_configs/DDR4_8Gb_x16_3200.ini:1-64 | in the memory of the runtime with BANK_LEVEL_STAGGERED it costs 87361 cycles and is inserted in 15600, so refreshes pile up in every run |
| LoneRead.AnswerRead | runtime/DRAMsim3/src/controller.cc:65-149 | a read that arrives between two refreshes at an idle controller is issued, whatever rows are open, and called back, and the controller is idle again |
| ChannelProofs.ReadyStep | runtime/DRAMsim3/src/channel_state.cc:102-115 | what the channel offers for a bank request is that request or the activate or precharge it needs first, legal for the row state, past every timer and inside the activation window; it never exits |
| ChannelProofs.RankReadyStep | runtime/DRAMsim3/src/channel_state.cc:76-101 | a rank refresh is offered when every bank can take it, a precharge as soon as some open bank can, and nothing only if neither holds |
| ChannelProofs.UpdateTracks | runtime/DRAMsim3/src/channel_state.cc:117-314 | issuing an offered command keeps rows, timers and windows in step with the trace and keeps the trace legal, spaced and windowed |
| ChannelProofs.WindowStep | runtime/DRAMsim3/src/channel_state.cc:271-314 | although only one entry is dropped per activate, the short list keeps any n + 1 activates at least the window apart |
| Banks.ApplyTableTimers | runtime/DRAMsim3/src/bankstate.cc:167-171 | a table pushes timers up to at least each entry and to nothing else, and leaves the row state alone |
| QueueProofs.EraseOk | runtime/DRAMsim3/src/command_queue.cc:198-208 | erasing an access finds the first entry of its address and type and takes out that entry alone |
| QueueProofs.SearchOk | runtime/DRAMsim3/src/command_queue.cc:36-54 | the round-robin search offers a step of some request of a queue that is not shut, or nothing |
| QueueProofs.FirstReadyOk | runtime/DRAMsim3/src/command_queue.cc:178-196 | the command a queue offers is the next step of one of its requests, and a write among them has no older read of its line before it |
| QueueProofs.IndexOk | runtime/DRAMsim3/src/command_queue.cc:164-171 | queue indices are in range, and in PER_BANK mode rank, bankgroup and bank can be read back from them |
| ControllerProofs.ChooseOk | runtime/DRAMsim3/src/controller.cc:65-82 | the command chosen in a tick is ready and serves the refresh in front or a request of an open queue |
| ControllerProofs.NoReadOvertaken | runtime/DRAMsim3/src/command_queue.cc:218-230 | a write offered by a queue has no pending read of its address, also in unified mode |
| ControllerProofs.ScheduleCore | runtime/DRAMsim3/src/controller.cc:197-227 | turning a transaction into a command keeps device and books sound |
| ControllerProofs.AddCore | runtime/DRAMsim3/src/controller.cc:161-195 | merging a write, forwarding a read or queueing either keeps device and books sound |
| Jedec.TablesAreSheet | runtime/DRAMsim3/src/timing.cc:13-264 | the tables consulted are the data sheet, stated by place, kind and parameters: they ask for every minimum and for nothing else |
| Jedec.Minima | runtime/DRAMsim3/src/timing.cc:76-264 | every minimum of the data sheet, on one bank, in one bankgroup, in one rank and across ranks, holds between any two commands of a sound trace |
| Jedec.AccessSpacing | runtime/DRAMsim3/src/timing.cc:76-180 | two accesses of a sound trace are tCCD_L or tWTR_L apart inside a bankgroup, tCCD_S or tWTR_S across bankgroups, a burst and the turn of the bus across ranks; after auto-precharge the same bank takes a whole reopening |
| Jedec.BurstsApart | runtime/DRAMsim3/src/timing.cc:13-33 | no two bursts of a sound trace meet on the data bus, unless a row closed by its read reopens for a write too early |
| Jedec.BusIff | runtime/DRAMsim3/src/timing.cc:156-180 | for sound traces of any kind that is so if and only if a row closed by its read reopens for a write late enough |
| DataBus.RunBusFree | runtime/DRAMsim3/src/timing.cc:13-180 | in every run no two bursts meet on the data bus, with closed pages under that condition |
| DataBus.RuntimeBusFree | runtime/custom_dram_configs/DDR4_8Gb_x16_3200.ini:1-64 | in every run of the memory the runtime configures, with open or closed pages |
| Jedec.ActivateSpacing | runtime/DRAMsim3/src/timing.cc:182-202 | activates of two banks of a rank are tRRD_L or tRRD_S apart |
| Jedec.ActivateToRefresh | runtime/DRAMsim3/src/timing.cc:124-208 | in every sound trace an activate and a later refresh of its bank are tRC apart, or as far as the two delays through an access with auto-precharge; tRC if there was no such access |
| RefreshGaps.RunKinds | runtime/DRAMsim3/src/controller.cc:268-278 | in every run accesses carry auto-precharge if and only if pages are closed, and refreshes are of the configured kind |
| RefreshGaps.RowCycleHolds | runtime/DRAMsim3/src/timing.cc:124-208 | if pages stay open, or opening a row and closing it by its access takes tRC for reads and for writes, every run keeps tRC from activate to refresh of a bank |
| RefreshGaps.RowCycleIff | runtime/DRAMsim3/src/timing.cc:124-208 | where the first refresh leaves room to open a row, tRC is kept from activate to refresh in every run if and only if that condition on the configuration holds |
| RefreshGaps.ShortRowRun | runtime/DRAMsim3/src/timing.cc:124-208 | for every closed-page configuration with that room, for reads and for writes, a run in which a bank is refreshed exactly the two delays after its activate |
| RefreshGaps.RecoveryHolds | runtime/DRAMsim3/src/timing.cc:224-242 | without bank refreshes, or with tRFCb at most one cycle, every run keeps tRFCb from the refresh of a bank to its activate |
| RefreshGaps.RecoveryIff | runtime/DRAMsim3/src/channel_state.cc:140-170 | unless a bank is refreshed in every cycle, tRFCb is kept in every run if and only if that condition holds, because the table with the delay is not the one consulted |
| RefreshGaps.NoRecoveryRun | runtime/DRAMsim3/src/channel_state.cc:140-170 | for every configuration with bank refreshes at least two cycles apart, a run that activates a bank in the cycle after its refresh |
| RefreshGaps.RuntimeKeeps | runtime/custom_dram_configs/DDR4_8Gb_x16_3200.ini:1-64 | the memory the runtime configures, as shipped, keeps both distances in every run |
| RefreshGaps.RuntimeShortRow | runtime/custom_dram_configs/DDR4_8Gb_x16_3200.ini:1-64 | with CLOSE_PAGE it has a run with a refresh 56 cycles after an activate of the rank, where tRC is 74 |
| RefreshGaps.RuntimeNoRecovery | runtime/custom_dram_configs/DDR4_8Gb_x16_3200.ini:1-64 | with BANK_LEVEL_STAGGERED it has a run with an activate one cycle after the refresh of its bank, where tRFCb is 20 |
| AddressMap.LogBase2 | runtime/DRAMsim3/src/common.cc:50-57 | the halving loop computes the rounded-down logarithm |
| AddressMap.Log2Bounds | runtime/DRAMsim3/src/common.cc:50-57 | two to the logarithm never exceeds the count |
| AddressMap.DecodeEncode | runtime/DRAMsim3/src/configuration.cc:33-42 | for every order of the six fields, coordinates to address and back |
| AddressMap.EncodeDecode | runtime/DRAMsim3/src/configuration.cc:33-42 | for every order of the six fields, request-aligned address to coordinates and back; with the row above a bijection |
| AddressMap.ShiftIsRequest | runtime/DRAMsim3/src/configuration.cc:349-351 | two to the shift is the number of bytes of a request if and only if that is a power of two, and less otherwise |
| AddressMap.OneRequest | runtime/DRAMsim3/src/configuration.cc:33-42 | then all bytes of a request have the same coordinates, and different requests within the memory have different ones |
| AddressMap.InRange | runtime/DRAMsim3/src/configuration.cc:33-42 | every address decodes to coordinates below their counts, powers of two or not, with its burst of columns inside the row |
| MappingSetup.SetAddressMapping | runtime/DRAMsim3/src/configuration.cc:347-404 | succeeds exactly on strings that spell the six fields once each, and then sets each field's position to the widths of the fields after it |
| MappingSetup.OffsetIsPos | runtime/DRAMsim3/src/configuration.cc:347-404 | with rows at least as long as a burst these positions are the ones the address map uses |
| ChannelMachine.ChannelState.constructor | runtime/DRAMsim3/src/channel_state.cc:4-22 | all banks closed with timers at zero, no refresh waiting, windows empty |
| ChannelMachine.ChannelState.GetReadyRank | runtime/DRAMsim3/src/channel_state.cc:76-101 | the nested scan with its ready counter computes the rank answer |
| ChannelMachine.ChannelState.GetReadyCommand | runtime/DRAMsim3/src/channel_state.cc:76-115 | computes the channel's answer for any request |
| ChannelMachine.ChannelState.UpdateState | runtime/DRAMsim3/src/channel_state.cc:117-138 | moves every covered bank and drops the served refresh, or fails exactly where the source exits |
| ChannelMachine.ChannelState.NoLongerNeedsRefresh | runtime/DRAMsim3/src/channel_state.cc:44-74 | takes out the first waiting refresh of the target |
| ChannelMachine.ChannelState.UpdateTiming | runtime/DRAMsim3/src/channel_state.cc:140-263 | the loops over banks and entries apply to each bank the table consulted for it, once; Jedec.TablesAreSheet says what the tables hold |
| ChannelMachine.ChannelState.UpdateActivationTimes | runtime/DRAMsim3/src/channel_state.cc:282-295 | drops at most one expired entry and appends the new one, for tFAW and for GDDR t32AW |
| ChannelMachine.ChannelState.UpdateTimingAndStates | runtime/DRAMsim3/src/channel_state.cc:265-269 | the whole update of the channel by one command |
| QueueMachine.CommandQueue.ArbitratePrecharge | runtime/DRAMsim3/src/command_queue.cc:77-110 | allows a precharge exactly when nothing older wants the bank and its open row is unwanted or has had four hits |
| QueueMachine.CommandQueue.HasRWDependency | runtime/DRAMsim3/src/command_queue.cc:218-230 | finds exactly the older reads of the write's line |
| QueueMachine.CommandQueue.GetFirstReadyInQueue | runtime/DRAMsim3/src/command_queue.cc:178-196 | returns the first entry's step that is ready, fair and not behind a read |
| QueueMachine.CommandQueue.EraseRWCommand | runtime/DRAMsim3/src/command_queue.cc:198-208 | removes the first matching entry, or fails exactly where the source exits |
| QueueMachine.CommandQueue.GetCommandToIssue | runtime/DRAMsim3/src/command_queue.cc:36-54 | the round-robin search over open queues with its erasure; Reference.RunAsked and Rotation.TakesTurns say what it comes to |
| QueueMachine.CommandQueue.GetRefQIndices | runtime/DRAMsim3/src/command_queue.cc:146-162 | adds exactly the queues to shut |
| QueueMachine.CommandQueue.FinishRefresh | runtime/DRAMsim3/src/command_queue.cc:56-75 | shuts the queues of the refresh in front, offers its next step and opens them when it goes out |
| QueueMachine.CommandQueue.QueueEmpty | runtime/DRAMsim3/src/command_queue.cc:117-124 | true exactly when every queue is empty |
| QueueMachine.CommandQueue.AddCommand | runtime/DRAMsim3/src/command_queue.cc:127-136 | appends to the command's queue if there is room |
| ControllerMachine.Refresh.ClockTick | runtime/DRAMsim3/src/refresh.cc:21-82 | inserts the refresh of the counters at each multiple of the interval and steps the counters |
| ControllerMachine.Controller.constructor | runtime/DRAMsim3/src/controller.cc:12-43 | a fresh controller satisfies the run invariant |
| ControllerMachine.Controller.AddTransaction | runtime/DRAMsim3/src/controller.cc:161-195 | takes a transaction if there is room, merging writes and forwarding reads, and keeps the run invariant; Latency.ReadSeesWrites says what a read then sees |
| ControllerMachine.Controller.ReturnDoneTrans | runtime/DRAMsim3/src/controller.cc:45-63 | takes out the first finished transaction and keeps the run invariant |
| ControllerMachine.Controller.AnswerReads | runtime/DRAMsim3/src/controller.cc:238-251 | the counting loop moves every pending read of the address to the return queue, in order |
| ControllerMachine.Controller.IssueCommand | runtime/DRAMsim3/src/controller.cc:229-266 | books and channel after a command, or failure exactly where the source exits |
| ControllerMachine.Controller.ScheduleTransaction | runtime/DRAMsim3/src/controller.cc:197-227 | at most one transaction becomes a command: the first whose queue has room, unless a read holds its write back; Drain.RunScheduled says which |
| ControllerMachine.Controller.ClockTick | runtime/DRAMsim3/src/controller.cc:65-149 | a whole tick: no exit, the stated next state, and the run invariant again |
| ProtocolInvariant.InitialInv | libbeethoven/src/runtime_ipc.cc:53-75 | locks and free list after init satisfy the protocol invariant |
| ProtocolRuns.NextKeeps | runtime/src/core/cmd_server.cc:114-271 | every step of every thread keeps the invariant; the only step that can fault is the allocation of a slot while all 256 are taken |
| ProtocolRuns.SlotOwnership | runtime/src/core/cmd_server.cc:132-218 | under every interleaving each slot is in exactly one of free stack, server's hands, one in-flight queue, answered with its wait lock open, one claimer's hands |
| ProtocolRuns.QueuedOnce | runtime/src/core/cmd_server.cc:206-218 | no slot sits twice in an in-flight queue |
| ProtocolRuns.ResponseRouting | libbeethoven/src/fpga_handle_impl/fpga_handle_discrete.cc:115-169 | every get that returned gave the answer to the very command whose send gave the handle, and the hardware saw the sends in order, each once |
| ProtocolRuns.OnlyExhaustionFaults | runtime/src/core/cmd_server.cc:245-271 | no run unlocks an unlocked mutex, indexes outside the free list or registers a response without a queued slot, except by allocating with no slot free, and then always |
| ProtocolRuns.SendProgress | libbeethoven/src/fpga_handle_impl/fpga_handle_discrete.cc:147-169 | while a send is under way some thread can move |
| ProtocolRuns.GetWaits | libbeethoven/src/fpga_handle_impl/fpga_handle_discrete.cc:115-144 | a get waits only while its core has not answered or the answer is being registered |
| ProtocolLimits.RoutingIffLowBytesDiffer | runtime/src/core/cmd_server.cc:206-247 | responses reach their own commands in every run if and only if no two cores in use share a system and the low eight bits of their ids |
| ProtocolLimits.Misrouted | runtime/src/core/cmd_server.cc:206-271 | for any two such cores, a run that hands a client a response to a command nobody has answered |
| ProtocolLimits.ExhaustionReached | runtime/src/core/cmd_server.cc:131-137 | for any core, a run that allocates with no slot free: 256 sends that nobody claims and one more |
| ProtocolLedger.NothingLost | libbeethoven/src/fpga_handle_impl/fpga_handle_discrete.cc:115-169 | in every run each command sent that asks for a response is with a client that sends it or collects its response, its handle is on the shelf, or an application has the response |
| ProtocolCounts.FewOutstanding | runtime/src/core/cmd_server.cc:131-137 | a run in which at no point more than 256 commands with a response are sent and not collected does not fault |
| AxiLite.Tick | runtime/include/core/state_machine.h:120-130 | one clock of the three machines keeps buffers at their size and every index used on them in range |
| AxiLiteProofs.TickInv | runtime/include/core/state_machine.h:120-388 | every tick, for any inputs, keeps the machines exclusive and in step with a monitor that sees only the wires |
| AxiLiteProofs.BusExclusion | runtime/include/core/state_machine.h:226-388 | in every tick of every run at most one machine is off idle and at most one of AW, W and AR is valid |
| AxiLiteProofs.CommandTrace | runtime/include/core/state_machine.h:141-253 | the commands started, followed by those queued, are those that arrived, in order; the completed transfers to the command registers are those of the polling loop for hardware: CMD_READY read non-zero before each word, CMD_VALID = 1 after it, words of the started commands in order |
| AxiLiteProofs.ResponseTrace | runtime/include/core/state_machine.h:255-326 | the responses handed on have three words each and are exactly the words read from RESP_BITS, in order, each read after RESP_VALID read non-zero |
| AxiLiteProofs.Unacknowledged | runtime/include/core/state_machine.h:281-306 | in a run some acknowledgement passes without its data if and only if the hardware answers such a write before taking the data |
| AxiLiteReach.SkippedAcknowledgement | runtime/include/core/state_machine.h:281-306 | a run in which that happens |
| AxiLitePolls.CommandStarts | runtime/include/core/state_machine.h:226-253 | after any run a tick takes the first queued command if and only if there is one, no machine is at work and the last read of CMD_READY, with no word since, said that the hardware is ready |
| AxiLitePolls.PollStarts | runtime/include/core/state_machine.h:328-370 | after any run a tick starts a poll if and only if none is under way, no command or response is after it, and more than fifty ticks without a poll have passed since the last one started |
| AxiLitePolls.PollTurns | runtime/include/core/state_machine.h:342-388 | a poll of CMD_READY is followed by one of RESP_VALID if and only if a response is awaited, and that by one of CMD_READY |
| AxiLitePolls.AwaitedResponses | runtime/include/core/state_machine.h:226-326 | in every run the responses awaited are the commands taken that ask for one less the responses handed on, never fewer than none, and the response registers are touched only while one is awaited |
| AxiControlMachine.AxiControl.UpdateCommandState | runtime/include/core/state_machine.h:141-253 | a tick of the command machine drives at most one of AW, W and AR, and only off idle; it takes only a free bus, for the first queued command, and frees it with the last word |
| AxiControlMachine.AxiControl.UpdateRespState | runtime/include/core/state_machine.h:255-326 | a tick of the response machine drives at most one of AW, W and AR, and only off idle; it frees the bus exactly when it hands a response on |
| AxiControlMachine.AxiControl.UpdateUpdateState | runtime/include/core/state_machine.h:328-388 | a tick of the polling machine drives at most one of AW, W and AR, and only off idle; it polls only on a free bus, and frees it when the poll finds nothing or waits for CMD_READY |
| AxiControlMachine.AxiControl.Tick | runtime/include/core/state_machine.h:120-130 | a whole tick keeps the run invariant and the monitor's trace |
| MemoryBursts.EmitBeats | runtime/src/core/mem_ctrl.cc:51-60 | beat i leaves with address base + i * size, the final one as last |
| MemoryBursts.EmitStops | runtime/include/core/mem_ctrl.h:91-97 | the loop goes on to the first incomplete beat; it reads past the flags if and only if all are set and end before the burst |
| MemoryBursts.RetrieveGrouped | runtime/src/core/mem_ctrl.cc:45-49 | a request that comes back sets exactly its own flags |
| MemoryBursts.BeatReordering | runtime/src/core/mem_ctrl.cc:43-63 | for any order of a burst's answers the beats let out are the longest retrieved prefix; no flag is read outside if and only if the burst fits or an answer is missing |
| MemoryBursts.WholeBurstOut | runtime/src/core/mem_ctrl.cc:43-63 | a burst that fits has let out all its beats once all its answers are there |
| MemoryBursts.FullWidthFits | runtime/include/core/mem_ctrl.h:75-87 | a full-width burst fits if and only if it is shorter than one DRAM request or a whole number of them, and then has one beat per transfer |
| MemoryBursts.NarrowBeats | runtime/include/core/mem_ctrl.h:107-109 | a burst has one beat per transfer if and only if its transfers are as wide as the bus |
| MemoryFrontProofs.ReadCallbackKeeps | runtime/src/core/mem_ctrl.cc:43-63 | a read callback at an address where a burst waits leaves the flags if and only if it is the last answer of a burst that does not fit; otherwise it keeps the read side sound |
| MemoryFrontProofs.TryReadKeeps | runtime/src/core/mem_ctrl.cc:77-119 | sending a request keeps each burst waiting exactly for its requests that are out, and requests of one id in order |
| MemoryWriteProofs.WriteCallbackKeeps | runtime/src/core/mem_ctrl.cc:64-73 | a write callback queues a reply with the id of its burst if and only if none was queued before, and marks the burst answered |
| MemoryWriteProofs.TickKeeps | runtime/src/core/tick.cc:49-191 | every AXI clock, whatever is offered, takes nothing from an empty queue and keeps read side, write side and counts sound |
| MemorySystem.EndToEnd | runtime/DRAMsim3/src/dram_system.cc:122-168 | front end and controllers together: a run fails if and only if it completes the last answer of a read burst that does not fit its flags; otherwise no exit is reached, no empty queue is read and every callback finds a burst waiting at its address |
| MemorySystem.FittingRuns | runtime/src/core/mem_ctrl.cc:43-63 | a run in which every read offered fits its flags never fails |
| BurstOverruns.OfferFails | runtime/src/core/mem_ctrl.cc:43-63 | for every read that does not fit its flags, a run that offers nothing else and fails, wherever a read finds time between two refreshes |
| BurstOverruns.FittingIff | runtime/src/core/mem_ctrl.cc:43-63 | reads drawn from a set of offers never make a run fail, whatever writes come with them, if and only if each of them fits its flags |
| BurstOverruns.FullWidthFails | runtime/include/core/mem_ctrl.h:75-87 | such a run for every full-width read longer than one DRAM request and not a whole number of them |
| BurstOverruns.RuntimeOverruns | runtime/custom_dram_configs/DDR4_8Gb_x16_3200.ini:1-64 | such a run of the memory the runtime configures, for a read of five 16-byte transfers |
| MemorySystem.BeatsInOrder | runtime/src/core/tick.cc:50-62 | in every run that has not failed the beats of each read taken on R are its beats in order, only the final one last, and all of them once its requests are back |
| MemorySystem.SameIdInOrder | runtime/src/core/mem_ctrl.cc:81-118 | in every run that has not failed requests of reads with one AXI id are issued in order of arrival |
| MemorySystem.WriteReplies | runtime/src/core/tick.cc:79-189 | in every run that has not failed each write gets at most one reply, with its id and after its last data beat; the count in flight is exact and at most 32 |
| MemoryDemand.WriteRequests | runtime/src/core/mem_ctrl.cc:121-146 | in every run that has not failed the i-th write taken on AW has sent its requests 0, 1, ... each once and in order, request k at its address plus k DRAM bursts, none while it takes data; from then on it is in the queue exactly while requests are left |
| MemoryDemand.ReadRequests | runtime/src/core/mem_ctrl.cc:77-119 | likewise the i-th read taken on AR |
| MemoryDemand.DramDemand | runtime/DRAMsim3/src/dram_system.cc:31-34 | in every run that has not failed DRAM has accepted, at each address and in the channel of that address only, as many reads and writes as there were requests for it |
| MemoryDemand.WriteData | runtime/src/core/tick.cc:132-160 | in every run that has not failed the W beats of each write are stored one after the other from the address of its offer, or all there if it is fixed, and writes take their beats in the order of AW |
| MemoryDemand.ChannelHandshakes | runtime/src/core/tick.cc:49-191 | in every run that has not failed an AXI clock hands over on each of the five channels exactly what was shown and taken; AR is ready while fewer than 40 reads have requests left, AW while fewer than 32 writes have no reply taken, W whenever a write is open |
| MemoryDemand.FirstAddressStalls | runtime/src/core/mem_ctrl.cc:81-83 | while DRAM takes the first address of no queued read, no read request is sent, whatever the next addresses |
| MemoryRequests.RequestsCover | runtime/include/core/mem_ctrl.h:75-84 | the requests of a burst reach its last byte if and only if it is no longer than a DRAM burst or a whole number of them |
| MemorySystem.TickOwed | runtime/DRAMsim3/src/controller.cc:229-262 | a DRAM clock neither loses nor adds a transaction owed to the front end |
| FrontMachine.NewTransaction | runtime/include/core/mem_ctrl.h:60-87 | the constructor's loop clears one flag per DRAM transfer |
| FrontMachine.HasBeat | runtime/include/core/mem_ctrl.h:91-97 | the flag loop finds whether the next beat is complete |
| FrontMachine.EmitBeatsOf | runtime/src/core/mem_ctrl.cc:51-60 | the loop lets out every complete beat |
| FrontMachine.SetFlags | runtime/src/core/mem_ctrl.cc:47-49 | the loop sets the flags of one request |
| FrontMachine.FrontEnd.ReadCallback | runtime/src/core/mem_ctrl.cc:43-63 | the read callback, or failure where it would leave a queue or the flags |
| FrontMachine.FrontEnd.WriteCallback | runtime/src/core/mem_ctrl.cc:64-73 | the write callback, or failure where it would leave a queue |
| FrontMachine.FrontEnd.FoundHigherPriorityInID | runtime/src/core/mem_ctrl.cc:87-92 | true exactly when an older burst with the id is queued |
| FrontMachine.FrontEnd.TryToEnqueueRead | runtime/src/core/mem_ctrl.cc:77-119 | sends the next request of the first eligible read and keeps the invariant |
| FrontMachine.FrontEnd.TryToEnqueueWrite | runtime/src/core/mem_ctrl.cc:121-146 | sends the next request of the first write DRAM takes and keeps the invariant; MemoryDemand.WriteRequests says what a write has sent |
| FrontMachine.FrontEnd.Tick | runtime/src/core/tick.cc:49-191 | one AXI clock and the invariant again |
| Calendar.CivilSuccessor | cli/src/commands/aws.rs:583-595 | for every day number the date is valid and the next number's date is the next calendar day |
| Calendar.Epoch | cli/src/commands/aws.rs:583-595 | day 0 is the first of January 1970 |
| Calendar.CivilCount | cli/src/commands/aws.rs:583-595 | day number to date and back, for every day number |
| Calendar.CountCivil | cli/src/commands/aws.rs:583-595 | date to day number and back, for every valid date |
| Calendar.EraFloor | cli/src/commands/aws.rs:585-585 | the truncating division with its correction rounds down |
| Calendar.YearFound | cli/src/commands/aws.rs:586-587 | the year-of-era formula finds the year the day lies in |

## Left out

- Self-refresh, HBM dual commands, the simultaneous refresh policy, HMC and the ideal DRAM system.
- Table delays so negative that a cycle plus the delay falls below zero: the source wraps around there, the model does not.
- RefreshGaps.RowCycleIff: one way only (RefreshGaps.RowCycleHolds) for closed pages with a refresh interval too short to open and access a row before the first refresh: the runs that break tRC need that room.
- RefreshGaps.RecoveryIff: one way only (RefreshGaps.RecoveryHolds) for a bank refresh inserted in every cycle: a single bank that is refreshed in every cycle is never activated.
- Starvation.PromptIff: one way only where no two banks of the first rank, other than the bank refreshed first, can take turns faster than tRC (BankProgress.BankRefreshInTime); the runs that put a refresh off need such a pair.
- Backlog.BoundedIff: speaks of runs without traffic; with traffic the number that wait also depends on it, and Backlog.PilesUp and Service.IssuedInTime are the bounds from both sides.
- BurstOverruns.FittingIff: one way only (MemorySystem.FittingRuns) where bank refreshes have a queue per bank, or refreshes leave too little time between them to serve a read: a controller that only refreshes answers no read. Offers carry an address that is not negative, as the source's unsigned type does.
- Jedec.BusIff: for parameters that are not negative, with a positive tRP and positive delays from activate to access; it speaks of sound traces, and says of runs only that the condition is enough (DataBus.RunBusFree).
- Latency.CallbackLatency: compares cycles, so it does not tell a write and a read of one address that arrived in the same cycle apart; which came first then decides by Latency.ReadSeesWrites at the arrival of the read.
- Rotation.TakesTurns: speaks of queues that stay open and ready; a queue whose request is put off by the delays of other commands has no bound.
- Overflow of 64-bit cycle counters and of the calendar function's 64-bit day number.
- Statistics, power, thermal and trace output of DRAMsim3, and the epoch printing of the memory system.
- Capacity of the transaction queues is the configured size; a vector may reserve more.
- The pending multimaps are lists in order of insertion: among equal keys the first one inserted is found.
- Channel banks, command queues and bursts are held by value or by number, not by pointer; the model has no aliasing between them.
- Data on R and W, byte strobes, the address translator and its failure path, which leaves the tick with a lock held.
- W beats that arrive while no write address is queued and W is ready: the source drops them, and so does the model, so a write whose data came first gets none.
- The return order of reads that share an AXI id: the code only orders their DRAM requests.
- MemorySystem.EndToEnd: the AXI clock, DRAM clocks, request issue and callbacks interleave freely instead of in the fixed proportion of the clock accumulator; it covers that order among others.
- Packing of commands into words and of responses out of words: commands carry their five words, responses three.
- Shutdown, the quit flag and process start-up of the command server; the model starts when the server waits for its first command.
- ProtocolRuns.SendProgress: says that some thread can move, not that a fair scheduler exists.
- The device allocator, the data server, DMA, the chipkit UART machine, MMIO and simulator bindings, and the rest of the command-line tool.

# Verification of the NPEX memory and host models

NPEX simulates a host, an NPU and a processing-in-memory (PIM) device on top of a
cycle-accurate DRAM model (DRAMsim3). This project models the parts of the simulator in
which cheap incremental state stands for a statement about a whole run, and proves those
statements for all configurations, inputs and interleavings.

Verify everything with `dafny verify dfyconfig.toml`.

## How the model is built

Each stateful component appears twice. A `class` with the source's fields and loops is
proved to compute a pure step function on its abstract value (`Abs()`); the theorems are
about runs of those step functions. AbruptExit, exit(1) and exceptions are the `Abort`
outcome of a `Result` (or a boolean result), never a precondition.

| files | component |
|---|---|
| `DramTypes`, `Timing`, `Bank`, `Channel`, `CommandQueues`, `RefreshUnit` | tables, bank state machine, channel state, command queues and refresh generator |
| `Controller`, `ControllerObject` | the channel controller: its phases as functions, and as an object with the loops |
| `History`, `Ordering*`, `DualIssue`, `Runs`, `ControllerTheorems` | invariants of single steps, then of every run |
| `LostCommands`, `LostRun`, `LostLayout` | exactly when dual issue loses a command, a run in which it does, and its address layout |
| `TimingLaws`, `Readiness` | the timing rules by parameter, kept by every run, and when a command is ready |
| `Arbitration`, `Scheduling`, `Occupancy` | which command a tick issues, which transaction it schedules, queue sizes and completion times |
| `RefreshPeriod`, `RefreshOrder` | how often and in which order refreshes are due and issued |
| `PagePolicy`, `DataBus` | columns close their rows as configured; no two data bursts overlap |
| `Drain`, `DrainRuns` | a rank refresh is issued after finitely many ticks |
| `Pim`, `PimObject` | the unified PIM device as a step system over any interleaving of its threads |
| `PimService` | how long services and mode changes take |
| `ComputeOrder`, `StageBarrier` | the device retires compute commands in order, and a draft stage's barrier is raised once, at its end |
| `Bridge`, `BridgeCallbacks`, `BridgeOrder`, `BridgeService` | payload ownership between TLM and the memory system, and the order and times of compute commands |
| `MemorySystem` | the bridge together with one controller a channel |
| `Hmc`, `HmcObject`, `HmcRuns`, `HmcFlow` | the HMC crossbar as a queue network: conservation, and when packets move |
| `HmcSystem` | the crossbar together with one controller a vault |
| `DraftWork`, `DraftStream`, `DraftDelay`, `HostObject` | draft work items, the counting pass, the emitted stream and delays |
| `Metrics` | interval algebra and channel attribution of the report |
| `BitFields`, `AddressMap`, `AddressDecode` | address-field layout and decoding |
| `PayloadPool` | the linked payload pool as a stack |
| `Basics`, `Arithmetic` | shared values, sequence operations and facts about products |

The controller state carries a `shadow`: the log of accepted requests with the data of each
write, what DRAM and the write buffer hold, what each read obtained, the commands issued so
far and the requests handed back. The simulator has no data; the shadow only records, and no
decision depends on it. `serial` numbers tell copies of a transaction apart.

## What the proofs found

- Dual command issue erases the second command before comparing it with the first
  (controller.cc:98-108). A second read/write after a read/write is then lost:
  `LostRun.DualIssueLosesARead` is a run that does it. `LostCommands.ExactRunIff` says exactly
  which runs lose nothing, and `DualIssue.StillReadyIff` exactly when a second one can be
  ready in the same cycle; positive column gaps rule it out. Memory ordering, the absence of
  aborts and the other conservation results hold in any case.
- After a REFRESH_BANK the refreshed bank may be used at once: the delay for it is entered in a
  table that only rank commands read (`TimingLaws.RefreshedBankIsFree`).
- A bridge callback may complete two payloads for one report, because its loop erases an
  element and skips the next (`BridgeCallbacks.OneCallbackMayCompleteSeveral` is such a
  behaviour). `BridgeCallbacks.TakesOneIff` gives the exact condition for at most one.
  Nothing is lost by it.
- The `last` flag of a draft stage is unique up to 2^64 transactions and not beyond
  (`DraftWork.LastFlag`), and so is the barrier event that the device raises for it
  (`StageBarrier.RaisedAtTheEndIff`). A template stage without work queues nothing, so nothing can
  release its barrier; the synthetic stage throws instead. `HostObject.Host.EmitTemplate` states
  the condition on the work items, tiles and commands.
- A geometry whose dimensions are not powers of two still decodes into range but leaves cells
  without an address (`AddressDecode.EveryCellReachedIff`). A burst longer than a row makes
  SetAddressMapping shift by a negative amount.
- The pool hands a payload out twice after a double free (`PoolSpec.DoubleReleaseAliases`);
  `PoolSpec.ReleaseKeepsIff` is the exact condition on a release.

## Model

| member | source | states |
|---|---|---|
| ControllerTheorems.NoRunAborts | NPEX-artifact/DRAMsim3/src/controller.cc:80-164 | For every configuration and every sequence of submissions, ticks and hand-backs there is a run through all of them: no AbruptExit or exit(1) of the bank state machine, the pending lookups or EraseRWCommand is reached. |
| ControllerTheorems.ReadsReturnLatestWrite | NPEX-artifact/DRAMsim3/src/controller.cc:176-283 | Every read handed back in any run obtained the value of the latest write to its exact address accepted before it, with forwarding, coalescing, write merging, both queue modes and out-of-order issue. |
| ControllerTheorems.LatestIsLast | NPEX-artifact/DRAMsim3/src/controller.cc:176-210 | `Latest` is what it is called: the value of the last write of the prefix, 0 if there is none. |
| ControllerTheorems.EveryRequestOnce | NPEX-artifact/DRAMsim3/src/controller.cc:45-63 | Every accepted request is, at every moment of every run, exactly once among the handed-back ones, the return queue and the pending reads; nothing else is there. |
| ControllerTheorems.DrainCounterBounded | NPEX-artifact/DRAMsim3/src/controller.cc:212-243 | In every reachable state write_draining_ lies between 0 and the length of write_buffer_. |
| ControllerTheorems.OneEntryPerPendingAddress | NPEX-artifact/DRAMsim3/src/controller.cc:176-283 | As long as no tick has lost a command, each address waits in the queues as one read entry iff reads of it are pending and, behind it, one write entry iff a write of it is pending. |
| ControllerTheorems.EmptyMeansAllDelivered | NPEX-artifact/DRAMsim3/src/controller.cc:65-78 | If no tick has lost a command and all queues report empty, every accepted request has been handed back exactly once and nothing is pending. |
| ControllerTheorems.EveryGapIsKept | NPEX-artifact/DRAMsim3/src/channel_state.cc:140-186 | Every command of a run comes at least the table's gap (the rules of `TimingLaws.TablesAreRules`) after every earlier command that constrains it at one of its banks. |
| TimingLaws.TablesAreRules | NPEX-artifact/DRAMsim3/src/timing.cc:8-213 | The five tables, dispatched to a bank, contain exactly the rules that are written in the configuration's parameters: row cycle, data bus, tRRD, tPPD, refresh and self-refresh. |
| TimingLaws.EveryRuleIsKept | NPEX-artifact/DRAMsim3/src/channel_state.cc:140-186 | Every command of a run keeps every such rule towards every earlier command. |
| TimingLaws.EntryIsLatestRule | NPEX-artifact/DRAMsim3/src/bankstate.cc:167-171 | Every table entry is the latest deadline of the rules; one that is not zero is the deadline of some rule. |
| TimingLaws.RowTimings | NPEX-artifact/DRAMsim3/src/timing.cc:80-182 | At one bank of any run: tRP, tRAS, tRC = tRAS + tRP, tRCD, AL + tRTP, write recovery, and both auto-precharge gaps. |
| TimingLaws.RankTimings | NPEX-artifact/DRAMsim3/src/timing.cc:164-207 | Between banks of a rank in any run: tRRD_L or tRRD_S, tRC before a REFRESH_BANK, tPPD for GDDR and LPDDR4, and tRFC and tREFI after a REFRESH_BANK. |
| TimingLaws.RefreshTimings | NPEX-artifact/DRAMsim3/src/timing.cc:124-214 | Around refreshes in any run: tRP after a precharge, the auto-precharge gaps, and tRFC from REFRESH to ACTIVATE or REFRESH. |
| TimingLaws.BusTimings | NPEX-artifact/DRAMsim3/src/timing.cc:16-75 | Between column commands of any run: burst, tCCD, tWTR, turnaround and tRTRS, by how their banks are related. |
| TimingLaws.RefreshedBankIsFree | NPEX-artifact/DRAMsim3/src/timing.cc:184-192 | No rule makes the refreshed bank itself wait after a REFRESH_BANK; the source enters that delay in a table that it never reads. |
| Readiness.ActivationRefusedIff | NPEX-artifact/DRAMsim3/src/channel_state.cc:271-314 | An activation is refused exactly when four earlier ones of the rank lie within tFAW or, for GDDR, 32 within t32AW. |
| Readiness.ReadyIff | NPEX-artifact/DRAMsim3/src/channel_state.cc:67-113 | A read or write is answered with what its bank needs next, and with nothing exactly while a rule towards that command runs or its activation is refused. |
| ControllerTheorems.TableEntryIsMaximum | NPEX-artifact/DRAMsim3/src/bankstate.cc:167-171 | Every `cmd_timing_` entry is the maximum of issue cycle plus gap over all earlier related commands: none is missed, none is invented. |
| ControllerTheorems.ActivationWindowsHold | NPEX-artifact/DRAMsim3/src/channel_state.cc:271-314 | The (i+4)-th ACTIVATE of a rank comes at least tFAW after the i-th, and for GDDR the (i+32)-th at least t32AW after it, in every run. |
| ControllerTheorems.ColumnsMeetTheirRow | NPEX-artifact/DRAMsim3/src/bankstate.cc:22-94 | Before every read or write of every run, the last command that opened or closed a row of its bank is an ACTIVATE of that command's row. |
| DataBus.BurstsDoNotOverlap | NPEX-artifact/DRAMsim3/src/timing.cc:11-180 | If the gaps leave room for a burst, no two data bursts of a run overlap: a later column command starts its burst after the end of every earlier one, over an auto-precharge and a new activation as well. |
| DataBus.BurstsFitIff | NPEX-artifact/DRAMsim3/src/timing.cc:11-75 | The gaps leave room for a burst iff three inequalities between the configured timings hold and, with closed pages, four more. |
| DataBus.PlainParametersIff | NPEX-artifact/DRAMsim3/src/timing.cc:11-75 | If no timing is negative, they do iff pages are open or a write to a row reopened after an auto-precharging read starts its burst no earlier than the read's. |
| PagePolicy.PagesAsConfigured | NPEX-artifact/DRAMsim3/src/controller.cc:285-298 | In every run every issued read and write precharges its bank with closed pages, and none does with open pages. |
| History.OpenRowMeaning | NPEX-artifact/DRAMsim3/src/bankstate.cc:96-165 | The open row of a bank is that of its last activation, with no precharge after it. |
| History.IssueKeepsRows | NPEX-artifact/DRAMsim3/src/bankstate.cc:96-165 | Issuing a legal command keeps every bank's open row what the history left open. |
| LostCommands.ExactRunIff | NPEX-artifact/DRAMsim3/src/controller.cc:95-108 | In a run every address always waits in the queues exactly as it is pending iff no tick picks a read/write right after issuing a read/write under dual issue. |
| LostCommands.TickLosesIff | NPEX-artifact/DRAMsim3/src/controller.cc:95-108 | A tick from a state with nothing lost loses a command iff it takes that branch; then a request stays pending with nothing waiting for it. |
| LostCommands.IssueLosesIff | NPEX-artifact/DRAMsim3/src/controller.cc:95-108 | After the chosen command has been issued, the second pick is erased and not issued iff both are reads or writes; otherwise nothing is lost. |
| LostCommands.LosslessLosesNothing | NPEX-artifact/DRAMsim3/src/timing.cc:76-180 | Single issue, or positive gaps between column commands, keep every run out of that branch. |
| LostRun.DualIssueLosesARead | NPEX-artifact/DRAMsim3/src/controller.cc:95-108 | A concrete run of six inputs on one HBM bank: all queues report empty and the second read is still pending. |
| LostLayout.PlaceIsMapped | NPEX-artifact/DRAMsim3/src/configuration.cc:346-405 | That run decodes its addresses as an accepted mapping string does for a row of two columns. |
| Runs.BehaviourKeepsInv | NPEX-artifact/DRAMsim3/src/controller.cc:80-164 | Every state of every run keeps the joint invariant (ordering, data, conservation, drain counter, timing history, refresh queue). |
| Runs.ClockTickKeeps | NPEX-artifact/DRAMsim3/src/controller.cc:80-164 | One whole tick succeeds and keeps the joint invariant. |
| DualIssue.StillReadyIff | NPEX-artifact/DRAMsim3/src/controller.cc:95-108 | A read/write that was ready before the first one issued is still ready in that cycle iff its bank stays open and no gap to it is positive. |
| DualIssue.SecondColumnNotReady | NPEX-artifact/DRAMsim3/src/timing.cc:76-180 | If all column-to-column gaps are positive, no read/write is ready in the cycle of another one. |
| DrainRuns.RankRefreshIsIssued | NPEX-artifact/DRAMsim3/src/command_queue.cc:36-75 | In every run and every continuation of it, a rank refresh at the front of the refresh queue is issued after finitely many ticks; until then it stays at the front and its rank receives only precharges. |
| DrainRuns.DrainStep | NPEX-artifact/DRAMsim3/src/controller.cc:80-97 | In each tick the refresh issues or the pair (open banks, cycles to the next legal precharge or refresh) falls lexicographically. |
| Drain.DrainTick | NPEX-artifact/DRAMsim3/src/controller.cc:80-164 | One tick with a rank refresh at the front: exactly the front entry goes when REFRESH issues, otherwise the rank only loses open banks or waits. |
| Drain.RefreshNeedsClosedRank | NPEX-artifact/DRAMsim3/src/channel_state.cc:76-101 | REFRESH is ready only when every bank of the rank is closed and past its refresh deadline. |
| History.BoundIsMaximum | NPEX-artifact/DRAMsim3/src/channel_state.cc:188-263 | The table bound defined over the whole history is an attained maximum. |
| History.IssueKeepsHistory | NPEX-artifact/DRAMsim3/src/channel_state.cc:265-269 | Issuing a legal command never aborts and keeps tables, windows and all pairwise gaps in step with the longer history. |
| History.PushKeepsLegal | NPEX-artifact/DRAMsim3/src/channel_state.cc:297-314 | Activating when the window list allows it keeps the sliding-window law over all activations. |
| History.PushKeepsMatch | NPEX-artifact/DRAMsim3/src/channel_state.cc:282-295 | Dropping at most one expired entry per activation keeps the list a suffix of the activations that misses only expired ones. |
| History.ReadyIsIssuable | NPEX-artifact/DRAMsim3/src/channel_state.cc:76-115 | Whatever GetReadyCommand returns is legal in the state it was asked in. |
| History.RankReadyMeaning | NPEX-artifact/DRAMsim3/src/channel_state.cc:76-101 | The counting loop over a rank returns the rank command only if every bank is ready for it, and otherwise a precharge of a bank that needs one. |
| Bank.ReadyIsLegal | NPEX-artifact/DRAMsim3/src/bankstate.cc:22-165 | The bank state machine accepts every command it has declared ready. |
| Bank.RaiseSlot | NPEX-artifact/DRAMsim3/src/bankstate.cc:167-171 | Applying a gap table raises a slot to the maximum of its old value and the latest deadline for it. |
| Bank.LatestDeadlineIsMaximum | NPEX-artifact/DRAMsim3/src/channel_state.cc:188-197 | That latest deadline is the maximum over the table entries of the slot's command. |
| Channel.ChannelState.constructor | NPEX-artifact/DRAMsim3/src/channel_state.cc:4-22 | All banks closed, all tables zero, no refresh waiting. |
| Channel.ChannelState.GetReadyCommand | NPEX-artifact/DRAMsim3/src/channel_state.cc:76-115 | The loops compute the readiness function on the channel's value; nothing changes. |
| Channel.ChannelState.IsAllBankIdleInRank | NPEX-artifact/DRAMsim3/src/channel_state.cc:24-33 | True iff every bank of the rank is closed. |
| Channel.ChannelState.BankNeedRefresh | NPEX-artifact/DRAMsim3/src/channel_state.cc:44-59 | Appends a bank refresh, or removes the first one of that bank, and changes nothing else. |
| Channel.ChannelState.RankNeedRefresh | NPEX-artifact/DRAMsim3/src/channel_state.cc:61-74 | Appends a rank refresh, or removes the first one of that rank, and changes nothing else. |
| Channel.ChannelState.UpdateState | NPEX-artifact/DRAMsim3/src/channel_state.cc:117-138 | Moves exactly the addressed banks and drops exactly the finished refresh; fails iff a bank rejects the command. |
| Channel.ChannelState.UpdateTiming | NPEX-artifact/DRAMsim3/src/channel_state.cc:140-186 | After the five nested update loops each bank's table is its old one raised by the constraints of its relation to the command. |
| Channel.ChannelState.UpdateSameBankTiming | NPEX-artifact/DRAMsim3/src/channel_state.cc:188-197 | Raises exactly the addressed bank's table. |
| Channel.ChannelState.UpdateOtherBanksSameBankgroupTiming | NPEX-artifact/DRAMsim3/src/channel_state.cc:199-212 | Raises exactly the other banks of the bank group. |
| Channel.ChannelState.UpdateOtherBankgroupsSameRankTiming | NPEX-artifact/DRAMsim3/src/channel_state.cc:214-229 | Raises exactly the banks of the rank's other bank groups. |
| Channel.ChannelState.UpdateOtherRanksTiming | NPEX-artifact/DRAMsim3/src/channel_state.cc:231-248 | Raises exactly the banks of the other ranks. |
| Channel.ChannelState.UpdateSameRankTiming | NPEX-artifact/DRAMsim3/src/channel_state.cc:250-263 | Raises exactly the banks of the rank. |
| Channel.ChannelState.UpdateActivationTimes | NPEX-artifact/DRAMsim3/src/channel_state.cc:282-295 | Drops at most one expired entry per window list and appends the new deadline; the 32-activation list only for GDDR. |
| Channel.ChannelState.UpdateTimingAndStates | NPEX-artifact/DRAMsim3/src/channel_state.cc:265-269 | State and timing updates in sequence are the issue function of the histories. |
| CommandQueues.QueueIndexInRange | NPEX-artifact/DRAMsim3/src/command_queue.cc:164-171 | Every bank of the geometry has a queue, and per-bank indices keep the ranks apart. |
| CommandQueues.FirstReadyMeaning | NPEX-artifact/DRAMsim3/src/command_queue.cc:178-196 | The chosen command is the ready form of its queue entry, has no read/write dependency and wins precharge arbitration; a read/write is the entry itself. |
| Controller.TakeIsLegal | NPEX-artifact/DRAMsim3/src/command_queue.cc:36-54 | The round-robin search never aborts; a taken read/write is removed exactly once from the queue it came from. |
| Controller.EraseIsLegal | NPEX-artifact/DRAMsim3/src/command_queue.cc:198-208 | Erasing a command that the search returned finds it in its own queue, so the exit at the end of EraseRWCommand is dead. |
| CommandQueues.CommandQueue.constructor | NPEX-artifact/DRAMsim3/src/command_queue.cc:5-34 | As many empty queues as the structure calls for. |
| CommandQueues.CommandQueue.GetFirstReadyInQueue | NPEX-artifact/DRAMsim3/src/command_queue.cc:178-196 | The loop is the first-ready function of the queue. |
| CommandQueues.CommandQueue.Arbitrate | NPEX-artifact/DRAMsim3/src/command_queue.cc:77-110 | The three scans decide the precharge arbitration predicate. |
| CommandQueues.CommandQueue.EraseRWCommand | NPEX-artifact/DRAMsim3/src/command_queue.cc:198-208 | Removes the first entry with the command's address and type, or fails iff there is none. |
| CommandQueues.CommandQueue.GetCommandToIssue | NPEX-artifact/DRAMsim3/src/command_queue.cc:36-54 | The round-robin loop is the take function: same command, same queues, same index. |
| Arbitration.RoundTakesIff | NPEX-artifact/DRAMsim3/src/command_queue.cc:36-54 | A round yields nothing exactly if no position of any queue that is not held back can go; otherwise the first queue in turn that has one yields its first, and the index stays there. |
| Arbitration.TickIssuesIff | NPEX-artifact/DRAMsim3/src/controller.cc:80-110 | With no refresh waiting, a tick of a run issues a command exactly if some queue offers one, and then the first one in turn. |
| Arbitration.RefreshLetsOthersGo | NPEX-artifact/DRAMsim3/src/controller.cc:80-110 | While a waiting refresh cannot proceed, the same holds of the queues that it does not hold back. |
| Arbitration.GoesIff | NPEX-artifact/DRAMsim3/src/command_queue.cc:76-111 | A queued entry can go exactly if no rule towards its next command runs, its activation is not refused, its precharge is fair (nothing ahead wants the bank, and no waiting row hit unless there were four) and its write has no read of the place ahead. |
| Arbitration.HeldBackIff | NPEX-artifact/DRAMsim3/src/command_queue.cc:146-163 | A queue is held back exactly while the refresh at the front is prepared and concerns its bank or rank. |
| Arbitration.QueueIsOwn | NPEX-artifact/DRAMsim3/src/command_queue.cc:165-172 | Two banks share a queue exactly if they are the same or, with one queue a rank, of one rank. |
| History.IssueKeepsHits | NPEX-artifact/DRAMsim3/src/bankstate.cc:96-165 | A bank's row-hit counter is the number of reads and writes since its last precharge. |
| CommandQueues.CommandQueue.FinishRefresh | NPEX-artifact/DRAMsim3/src/command_queue.cc:56-75 | The refresh step: marks the queues of the front refresh and returns what is ready for it. |
| CommandQueues.CommandQueue.GetRefQIndices | NPEX-artifact/DRAMsim3/src/command_queue.cc:146-162 | Adds exactly the queues of the refreshed rank or bank to the marked ones. |
| CommandQueues.CommandQueue.AddCommand | NPEX-artifact/DRAMsim3/src/command_queue.cc:127-136 | Appends to the command's queue iff it has room. |
| CommandQueues.CommandQueue.QueueEmpty | NPEX-artifact/DRAMsim3/src/command_queue.cc:117-125 | True iff every queue is empty. |
| RefreshUnit.InsertionsFollowDigits | NPEX-artifact/DRAMsim3/src/refresh.cc:21-82 | After any number of ticks the nested counters are the mixed-radix digits of the number of insertions, and the i-th insertion is the i-th target. |
| RefreshUnit.RoundCoversOnce | NPEX-artifact/DRAMsim3/src/refresh.cc:62-82 | In every round each rank, or each bank, is targeted at exactly one place. |
| RefreshPeriod.RankIsQueued | NPEX-artifact/DRAMsim3/src/refresh.cc:12-44 | In every run with staggered rank refresh, the ticks at positive multiples of tREFI / ranks, and no others, queue the refresh of the next rank. |
| RefreshPeriod.RankEvery | NPEX-artifact/DRAMsim3/src/refresh.cc:12-44 | Each rank is inserted at least every ranks * (tREFI / ranks) ticks. |
| RefreshPeriod.BankEvery | NPEX-artifact/DRAMsim3/src/refresh.cc:12-54 | Each bank is inserted at least once in as many tREFIb as there are banks. |
| RefreshOrder.RefreshesInOrder | NPEX-artifact/DRAMsim3/src/command_queue.cc:56-74 | In every run the refreshes issued so far and then those waiting are exactly those inserted, in the order of insertion. |
| RefreshUnit.IterateIsSuccessor | NPEX-artifact/DRAMsim3/src/refresh.cc:62-82 | IterateNext is the successor on digits, carries and wrap-around included. |
| RefreshUnit.Refresher.constructor | NPEX-artifact/DRAMsim3/src/refresh.cc:4-19 | Counters at zero. |
| RefreshUnit.Refresher.ClockTick | NPEX-artifact/DRAMsim3/src/refresh.cc:21-27 | Inserts at exactly the multiples of the interval other than zero and advances the clock. |
| RefreshUnit.Refresher.InsertRefresh | NPEX-artifact/DRAMsim3/src/refresh.cc:29-60 | Appends the refresh the policy asks for and moves to the next target. |
| Ordering.AddKeepsLines | NPEX-artifact/DRAMsim3/src/controller.cc:176-210 | Accepting a request keeps at most one read, ahead of at most one write, per address. |
| Ordering.AddKeepsData | NPEX-artifact/DRAMsim3/src/controller.cc:176-210 | Accepting keeps the newest value findable and every pending read answerable. |
| OrderingIssue.TakeKeeps | NPEX-artifact/DRAMsim3/src/command_queue.cc:178-230 | Taking a command keeps ordering and data; a taken read still finds its value in DRAM and a taken write overtakes no read of its address. |
| OrderingIssue.EligibleWriteAlone | NPEX-artifact/DRAMsim3/src/command_queue.cc:218-230 | A write without read dependency has no earlier read of its address waiting anywhere. |
| OrderingIssue.AccountKeepsData | NPEX-artifact/DRAMsim3/src/controller.cc:245-283 | Issuing a read answers all reads pending on its address with the right value; issuing a write makes DRAM hold the newest value. |
| OrderingSchedule.ScheduleKeeps | NPEX-artifact/DRAMsim3/src/controller.cc:212-243 | Moving a transaction to its command queue keeps ordering and data. |
| OrderingSchedule.ScheduleKeepsDrain | NPEX-artifact/DRAMsim3/src/controller.cc:212-243 | Arming, counting down and cancelling a write drain keep the counter within the write buffer. |
| OrderingSchedule.AddKeepsSerials | NPEX-artifact/DRAMsim3/src/controller.cc:176-210 | Accepting adds the new request once to the three places and moves no other. |
| OrderingSchedule.AccountKeepsSerials | NPEX-artifact/DRAMsim3/src/controller.cc:245-283 | Issuing moves requests from pending to the return queue without loss or copy. |
| OrderingSchedule.ReturnKeepsSerials | NPEX-artifact/DRAMsim3/src/controller.cc:45-63 | Handing back moves exactly one request out of the return queue. |
| ControllerObject.Controller.constructor | NPEX-artifact/DRAMsim3/src/controller.cc:12-43 | The initial state of the runs. |
| ControllerObject.Controller.AddTransaction | NPEX-artifact/DRAMsim3/src/controller.cc:176-210 | The accept step: forward, coalesce, merge or enqueue. |
| ControllerObject.Controller.ScheduleTransaction | NPEX-artifact/DRAMsim3/src/controller.cc:212-243 | The schedule step, drain control included. |
| ControllerObject.Controller.UpdateDraining | NPEX-artifact/DRAMsim3/src/controller.cc:213-221 | Arms the drain exactly when the buffer is full, long with idle queues, or the only work. |
| Scheduling.DrainSchedulesWrites | NPEX-artifact/DRAMsim3/src/controller.cc:212-243 | With split queues, when the buffer is full, longer than eight with idle command queues, or no read waits, or while a drain goes on, the first write with room moves and the counter is one less than the buffer or the count; a pending read of the address stops the drain instead. |
| Scheduling.ReadsGoOtherwise | NPEX-artifact/DRAMsim3/src/controller.cc:212-243 | Otherwise no write moves, and the first read with room does. |
| Scheduling.UnifiedSchedules | NPEX-artifact/DRAMsim3/src/controller.cc:225-243 | With a unified queue the first transaction with room moves. |
| Scheduling.TickDrainsBuffer | NPEX-artifact/DRAMsim3/src/controller.cc:80-164 | In every run with split queues, while no read is pending, each tick takes one write out of the buffer as long as one finds room. |
| Occupancy.QueuesWithinSizes | NPEX-artifact/DRAMsim3/src/controller.cc:166-243 | In every run no transaction or command queue exceeds its configured size. |
| Occupancy.RefusedIffFull | NPEX-artifact/DRAMsim3/src/controller.cc:166-174 | A request is refused exactly when its queue is full. |
| Occupancy.CompletionTimes | NPEX-artifact/DRAMsim3/src/controller.cc:176-283 | Every finished transaction is complete one cycle after it was accepted or, for a read of DRAM, AL + CL + burst after a read command of its address. |
| Occupancy.HandsBackFirstComplete | NPEX-artifact/DRAMsim3/src/controller.cc:45-63 | Handing back takes the first transaction that is complete, if there is one. |
| ControllerObject.Controller.FindAccepted | NPEX-artifact/DRAMsim3/src/controller.cc:224-231 | The first transaction whose command queue has room. |
| ControllerObject.Controller.IssueCommand | NPEX-artifact/DRAMsim3/src/controller.cc:245-283 | The issue step; the lookup loops return all pending reads of the address and drop the first pending write. |
| ControllerObject.Controller.ReturnReads | NPEX-artifact/DRAMsim3/src/controller.cc:254-267 | The loop moves exactly the reads of the address, in order, with their completion cycle. |
| ControllerObject.Controller.ReturnDoneTrans | NPEX-artifact/DRAMsim3/src/controller.cc:45-63 | Hands back and removes the first transaction that is done, or reports none. |
| ControllerObject.Controller.ClockTick | NPEX-artifact/DRAMsim3/src/controller.cc:80-164 | The tick of the runs: refresh, choice, issue, second issue, schedule, clocks. |
| Pim.MutualExclusion | NPEX-artifact/hsim/components/pim_wrapper.cpp:174-204 | In every reachable state compute and memory are not both busy, a side is busy iff its counter is positive, a busy side has the matching mode, and each counter is its sent and unretired requests. |
| Pim.ModeChangesWhenIdle | NPEX-artifact/hsim/components/pim_wrapper.cpp:342-353 | The mode changes only at the end of a mode-change wait, with both sides idle. |
| Pim.SingleServerFifo | NPEX-artifact/hsim/components/pim_wrapper.cpp:252-303 | Requests are sent in arrival order and all fast services, compute and memory together, are disjoint and in that order, for any interleaving of arrivals, edges and waits. |
| PimService.ServicesAreExact | NPEX-artifact/hsim/components/pim_wrapper.cpp:252-303 | In every behaviour each fast service lasts exactly its nanoseconds, half a nanosecond more for compute, and starts at the later of its send time and the end of the service before it. |
| PimService.CompletedAfterService | NPEX-artifact/hsim/components/pim_wrapper.cpp:305-340 | A completion queue holds exactly the last services of its kind with their ends, the others are over, and a completed fast request has had a service that is over. |
| PimService.IterationTakesIff | NPEX-artifact/hsim/components/pim_wrapper.cpp:151-226 | An iteration takes the oldest pending request exactly if the device has none of the other kind. |
| PimService.ModeChangeTakes | NPEX-artifact/hsim/components/pim_wrapper.cpp:342-353 | A mode change takes exactly the delay of its own direction, and then the mode is that of the request. |
| Pim.NothingDueIsLeft | NPEX-artifact/hsim/components/pim_wrapper.cpp:305-340 | Completion stops at the first request that is not due and yet leaves none that is due. |
| Pim.BehaviourKeepsInv | NPEX-artifact/hsim/components/pim_wrapper.cpp:151-227 | Every behaviour keeps exclusion and FIFO order. |
| Pim.StepKeepsExclusion | NPEX-artifact/hsim/components/pim_wrapper.cpp:355-426 | Every step keeps exclusion, and changes the mode only when idle. |
| Pim.StepKeepsFifo | NPEX-artifact/hsim/components/pim_wrapper.cpp:252-303 | Every step keeps the FIFO invariant. |
| PimObject.PimWrapper.Iteration | NPEX-artifact/hsim/components/pim_wrapper.cpp:151-227 | One turn of the thread up to its next wait is the iteration step. |
| PimObject.PimWrapper.Wakeup | NPEX-artifact/hsim/components/pim_wrapper.cpp:342-353 | The end of a mode-change wait sets the mode and finishes the interrupted send. |
| PimObject.PimWrapper.SendCompute | NPEX-artifact/hsim/components/pim_wrapper.cpp:252-281 | Occupies the compute side and reserves its service interval. |
| PimObject.PimWrapper.SendMemory | NPEX-artifact/hsim/components/pim_wrapper.cpp:281-303 | Occupies the memory side and reserves its service interval. |
| PimObject.PimWrapper.CompleteFastMemoryRequests | NPEX-artifact/hsim/components/pim_wrapper.cpp:305-316 | Moves exactly the due prefix. |
| PimObject.PimWrapper.CompleteFastComputeRequests | NPEX-artifact/hsim/components/pim_wrapper.cpp:318-340 | Moves exactly the due prefix. |
| PimObject.PimWrapper.ClockPosedge | NPEX-artifact/hsim/components/pim_wrapper.cpp:355-378 | Retires one finished memory request. |
| PimObject.PimWrapper.ClockNegedge | NPEX-artifact/hsim/components/pim_wrapper.cpp:380-426 | Retires one finished compute request. |
| PimObject.PimWrapper.PeqCb | NPEX-artifact/hsim/components/pim_wrapper.cpp:458-466 | An arrival joins the end of the pending queue. |
| Bridge.ExactlyOnePlace | NPEX-artifact/DRAMsim3/src/bridge.cc:8-106 | At every moment of every behaviour a payload is held by the bridge or handed back exactly as often as it was sent. |
| Bridge.NothingLeftBehind | NPEX-artifact/DRAMsim3/src/bridge.cc:54-76 | With no transaction of an address outstanding below, no payload of that address is left in the done list. |
| Bridge.SweepConserves | NPEX-artifact/DRAMsim3/src/bridge.cc:54-76 | The loop that erases and then skips an element loses nothing and takes only matches. |
| Bridge.SweepCounts | NPEX-artifact/DRAMsim3/src/bridge.cc:54-76 | A callback removes at least one match if there is one, and no other address. |
| BridgeCallbacks.TakesOneIff | NPEX-artifact/DRAMsim3/src/bridge.cc:54-76 | A callback completes at most one payload iff any two matches in its done list are next to each other. |
| BridgeCallbacks.CallbackTakesOneIff | NPEX-artifact/DRAMsim3/src/bridge.cc:54-76 | The same condition for a callback in any state of the bridge. |
| BridgeCallbacks.OneCallbackMayCompleteSeveral | NPEX-artifact/DRAMsim3/src/bridge.cc:54-64 | A behaviour with three different payloads of one address: one report hands out two of them while two transactions are still below. |
| MemorySystem.SystemIsBridge | NPEX-artifact/DRAMsim3/src/dram_system.cc:121-169 | Every behaviour of the bridge together with the channels' controllers, in which a returned transaction runs the callback whether or not the bridge knows of it, is event by event a behaviour of the bridge: whatever a controller returns is outstanding below. |
| MemorySystem.BehaviourKeepsInv | NPEX-artifact/DRAMsim3/src/dram_system.cc:121-169 | What is below the bridge is always exactly what the controllers have in their return queues and pending reads, per address and direction. |
| MemorySystem.TickKeepsOutstanding | NPEX-artifact/DRAMsim3/src/dram_system.cc:159-161 | A controller's tick reports nothing and forgets nothing. |
| MemorySystem.ControllersAreFree | NPEX-artifact/DRAMsim3/src/dram_system.cc:146-162 | In every reachable state every controller can tick, and whatever it has finished the bridge can be told. |
| MemorySystem.ExactBehaviourIff | NPEX-artifact/DRAMsim3/src/dram_system.cc:146-162 | The queues of all controllers always agree with what is pending iff no tick of any of them takes the branch that loses a command. |
| MemorySystem.IdleMeansHandedOut | NPEX-artifact/DRAMsim3/src/dram_system.cc:146-162 | When all controllers report empty queues and no tick has lost a command, no payload is left in the done lists. |
| Bridge.TickKeeps | NPEX-artifact/DRAMsim3/src/bridge.cc:8-52 | A whole tick keeps both invariants if each outstanding transaction is reported at most once. |
| Bridge.BridgeObject.ReadCallBack | NPEX-artifact/DRAMsim3/src/bridge.cc:54-64 | The erase-and-skip loop is the callback step on reads. |
| Bridge.BridgeObject.WriteCallBack | NPEX-artifact/DRAMsim3/src/bridge.cc:66-76 | The erase-and-skip loop is the callback step on writes. |
| Bridge.BridgeObject.SendCommand | NPEX-artifact/DRAMsim3/src/bridge.cc:78-94 | Queues a payload for its channel, or reserves the next compute interval. |
| Bridge.BridgeObject.GetCompletedCommand | NPEX-artifact/DRAMsim3/src/bridge.cc:96-106 | Hands out the front of the outgoing queue, or nothing. |
| Bridge.BridgeObject.ClockTick | NPEX-artifact/DRAMsim3/src/bridge.cc:8-52 | Reports, acceptance per channel and due compute commands, in this order. |
| HmcRuns.NoUndefinedStep | NPEX-artifact/DRAMsim3/src/hmc.cc:444-542 | In every reachable state every possible event is defined (no missing lookup, no front() of an empty queue), and the age queues name exactly the non-empty links and quads. |
| HmcRuns.OneCallbackPerRequest | NPEX-artifact/DRAMsim3/src/hmc.cc:397-442 | Insertions equal callbacks plus what is still in the network, per address and direction, in every reachable state. |
| HmcRuns.QuiescentIsComplete | NPEX-artifact/DRAMsim3/src/hmc.cc:494-542 | When the network is empty every request has had exactly one callback with its address and direction. |
| HmcRuns.InsertIffRoom | NPEX-artifact/DRAMsim3/src/hmc.cc:419-442 | The round-robin insertion succeeds iff some link has room. |
| HmcFlow.InsertInTurn | NPEX-artifact/DRAMsim3/src/hmc.cc:419-442 | A request enters the first link with room in turn from the next link on, and the turn goes to the link after it. |
| HmcFlow.LinkCrossesIff | NPEX-artifact/DRAMsim3/src/hmc.cc:468-490 | The front request of a link crosses to its quad exactly if the quad has room and is not busy. |
| HmcFlow.EveryLinkSends | NPEX-artifact/DRAMsim3/src/hmc.cc:444-492 | In one drain every link with a request sends its oldest one, and one only, unless its quad is full or busy then. |
| HmcFlow.EveryQuadSends | NPEX-artifact/DRAMsim3/src/hmc.cc:494-542 | In one drain every quad with a response sends its oldest one, and one only, unless its link is full or busy then. |
| HmcFlow.EveryQuadServes | NPEX-artifact/DRAMsim3/src/hmc.cc:444-459 | In one drain every quad hands its oldest request to its vault exactly if it has crossed, there is room for a response and the vault accepts it. |
| HmcFlow.QueuesStayWithin | NPEX-artifact/DRAMsim3/src/hmc.cc:397-542 | In every behaviour link request, quad request and link response queues stay within the configured depth. |
| HmcFlow.TwoAges | NPEX-artifact/DRAMsim3/src/hmc.cc:590-613 | With two positions waiting, the first in turn from the clock on goes first unless the other's counter exceeds its index. |
| HmcRuns.BehaviourKeepsInv | NPEX-artifact/DRAMsim3/src/hmc.cc:397-635 | Every behaviour keeps the shape and balance of the network. |
| HmcSystem.SystemIsCrossbar | NPEX-artifact/DRAMsim3/src/hmc.cc:444-567 | Every crossbar state that is reachable above one controller a vault, where the controllers decide what is accepted and what is reported, is reachable in a behaviour of the crossbar alone: each vault reports only what it has accepted, once. |
| HmcSystem.BehaviourKeepsInv | NPEX-artifact/DRAMsim3/src/hmc.cc:444-567 | What the crossbar has in its vaults is always exactly what the controllers have in their return queues and pending reads, per address. |
| HmcSystem.NothingIsUndefined | NPEX-artifact/DRAMsim3/src/hmc.cc:544-635 | In every reachable state every vault can tick, and the report of every finished transaction finds its entry in the lookup table. |
| HmcSystem.DrainedIsComplete | NPEX-artifact/DRAMsim3/src/hmc.cc:444-635 | When crossbar queues, return queues and pending reads are empty, every request has had exactly one callback with its address and direction. |
| Hmc.AgeQueueExact | NPEX-artifact/DRAMsim3/src/hmc.cc:589-613 | BuildAgeQueue returns each index with a positive counter exactly once, and no other. |
| HmcObject.HmcMemorySystem.InsertReqToLink | NPEX-artifact/DRAMsim3/src/hmc.cc:397-417 | Queues the request and records its response iff the link has room. |
| HmcObject.HmcMemorySystem.InsertHMCReq | NPEX-artifact/DRAMsim3/src/hmc.cc:419-442 | Tries every link once, starting at the round-robin pointer. |
| HmcObject.HmcMemorySystem.BuildAgeQueueLoop | NPEX-artifact/DRAMsim3/src/hmc.cc:589-613 | The rotating insertion loop is the age-queue function. |
| HmcObject.HmcMemorySystem.DrainRequestsLoop | NPEX-artifact/DRAMsim3/src/hmc.cc:444-492 | Quads to vaults, then links to quads in age order. |
| HmcObject.HmcMemorySystem.DrainResponsesLoop | NPEX-artifact/DRAMsim3/src/hmc.cc:494-542 | Links to the host, then quads to links in age order. |
| HmcObject.HmcMemorySystem.VaultCallbackFor | NPEX-artifact/DRAMsim3/src/hmc.cc:621-635 | Moves the first recorded response of the address to its quad. |
| Metrics.IntervalUnion | NPEX-artifact/hsim/utilities/performance_metrics.cpp:137-160 | The number of integer points covered, for unsorted, overlapping and empty intervals. |
| Metrics.IntervalIntersection | NPEX-artifact/hsim/utilities/performance_metrics.cpp:162-194 | The number of integer points covered by both families. |
| Metrics.Normalize | NPEX-artifact/hsim/utilities/performance_metrics.cpp:165-179 | Disjoint, separated, sorted intervals with the same points. |
| Metrics.SweepUnion | NPEX-artifact/hsim/utilities/performance_metrics.cpp:147-159 | The sweep over sorted intervals counts each point once. |
| Metrics.SweepIntersection | NPEX-artifact/hsim/utilities/performance_metrics.cpp:183-193 | The two-pointer sweep counts each common point once. |
| Metrics.JointUnion | NPEX-artifact/hsim/utilities/performance_metrics.cpp:275-280 | npu + pim - overlap never underflows and is the joint coverage. |
| Metrics.ReportedUnion | NPEX-artifact/hsim/utilities/performance_metrics.cpp:275-280 | The reported union is the number of points covered by either family. |
| Metrics.AddChannelService | NPEX-artifact/hsim/utilities/performance_metrics.cpp:387-410 | The per-channel bytes grow by exactly the request's bytes, on its own channel or split with the remainder on the first channels; empty statistics are created first. |
| HostObject.ExpandWork | NPEX-artifact/hsim/components/host.cpp:121-153 | The nested loops put every node of the draft tree at its mixed-radix position, with the wrapped context length, and nothing else; or list the proposals. |
| DraftWork.PositionIsInjective | NPEX-artifact/hsim/components/host.cpp:129-143 | No two tree nodes share a work item. |
| DraftWork.PositionIsOnto | NPEX-artifact/hsim/components/host.cpp:129-143 | Every work item is some tree node. |
| HostObject.CountTransactions | NPEX-artifact/hsim/components/host.cpp:229-258 | The counting pass yields the length of the emitted stream modulo 2^64. |
| HostObject.CommandsPerTile | NPEX-artifact/hsim/components/host.cpp:242-245 | The per-tile sum of bursts, in 64 bits. |
| HostObject.Tiling | NPEX-artifact/hsim/components/host.cpp:223-228 | Tiles times attention blocks, in 32 bits. |
| DraftStream.CountIsTiles | NPEX-artifact/hsim/components/host.cpp:223-228 | The tile count is the tiles times n modulo 2^32, where n is 1 or, for qkt and sv, the context divided by the tile tokens and rounded up, at least 1; the rounding sum wraps at 2^32. |
| DraftStream.StreamIsContributions | NPEX-artifact/hsim/components/host.cpp:259-318 | The stream is, work item by work item, layer by layer and operation by operation, nothing, one macro command for all tiles and collapsed layers, or a copy of the ordered command list for each tile. |
| DraftStream.TileIsList | NPEX-artifact/hsim/components/host.cpp:301-312 | The command list holds all bursts of each entry, entry by entry in order, each with its scaled delay. |
| DraftStream.TemplateIsCopies | NPEX-artifact/hsim/components/host.cpp:319-346 | The template stream holds for each work item as many copies of the command list as there are tiles. |
| DraftWork.StreamLength | NPEX-artifact/hsim/components/host.cpp:229-318 | Emission, which nests layers inside work items, produces layers times what counting adds up. |
| DraftWork.LastFlag | NPEX-artifact/hsim/components/host.cpp:254-310 | With the counted total the final transaction carries `last`; it alone does iff the stream has between 1 and 2^64 transactions. |
| StageBarrier.RaisedAtTheEndIff | NPEX-artifact/hsim/components/pim_wrapper.cpp:399-420 | Retiring a stage in order raises the barrier event once, at its last transaction, iff the stage has between 1 and 2^64 transactions. |
| StageBarrier.FlagsCountStages | NPEX-artifact/hsim/components/host.cpp:254-353 | Over a sequence of such stages, any number of retired transactions has carried as many flags as stages have ended by then. |
| StageBarrier.RaisedOncePerStage | NPEX-artifact/hsim/components/pim_wrapper.cpp:380-426 | In every behaviour of the device that is fed such stages, clock_negedge has raised the event exactly once for each stage all of whose transactions are retired, and for no other. |
| StageBarrier.RaisedWhenAllRetired | NPEX-artifact/hsim/components/pim_wrapper.cpp:380-426 | For one stage, the event has been raised iff the device has retired all of its transactions. |
| ComputeOrder.RetiredInOrder | NPEX-artifact/hsim/components/pim_wrapper.cpp:151-426 | The device retires compute commands in arrival order, each once, for any interleaving with memory requests; the rest is in the device, in transit or pending, in that order. |
| BridgeOrder.ComputesInOrder | NPEX-artifact/DRAMsim3/src/bridge.cc:8-106 | The bridge hands compute commands back in the order in which it was sent them, whatever reads and writes do. |
| BridgeService.ComputesAreServed | NPEX-artifact/DRAMsim3/src/bridge.cc:78-95 | In every behaviour the compute commands follow one another in the order of sending, each for exactly its nanoseconds and a half, from the later of its send time and the end of the one before. |
| BridgeService.ReturnedAreDone | NPEX-artifact/DRAMsim3/src/bridge.cc:38-52 | Those handed back or on the way back are done, and the others wait with their ends. |
| BridgeService.TickTakesFronts | NPEX-artifact/DRAMsim3/src/bridge.cc:8-52 | One tick takes exactly the front payload of each channel that the memory system accepts from, and leaves no compute command that is done. |
| DraftWork.AggregationKeepsWork | NPEX-artifact/hsim/components/host.cpp:209-315 | Aggregating micro-commands, collapsing layers or both keeps the total delay and the total number of micro-commands of the expanded stream, modulo 2^64. |
| HostObject.Host.EmitSynthetic | NPEX-artifact/hsim/components/host.cpp:204-318 | Throws iff there are no layers or the counted total is zero; otherwise queues exactly the stream, the final transaction is last, and it alone iff there are fewer than 2^64. |
| HostObject.Host.SyntheticStep | NPEX-artifact/hsim/components/host.cpp:180-318 | One control step: the NPU transaction first, also when the draft work throws; then exactly the stream of the expanded work items. |
| HostObject.Host.EmitTemplate | NPEX-artifact/hsim/components/host.cpp:319-348 | Queues exactly the template stream; exactly one last iff commands per tile times tiles times work items is between 1 and 2^64. |
| DraftDelay.MacroTimeIff | NPEX-artifact/hsim/components/host.cpp:287-296 | A macro command with the device's half nanosecond takes its scaled total to within half a nanosecond iff that total is not negative, if its delay fits 32 bits. |
| DraftDelay.MacroKeepsTime | NPEX-artifact/hsim/components/host.cpp:275-311 | With unscaled delays a macro command keeps the device busy as long as all micro-commands it replaces, over all its layers, to within half a nanosecond. |
| DraftDelay.ScaledMacroTime | NPEX-artifact/hsim/components/host.cpp:275-311 | With any non-negative scale the expanded micro-commands take at least the macro command's time less half the scale for each of them, and at most one nanosecond (one and a half if some delay scales below half a nanosecond) less half the scale more for each; to within half a nanosecond. |
| DraftDelay.RoundIsNearest | NPEX-artifact/hsim/components/host.cpp:294-304 | std::round is at most one half away. |
| HostObject.Host.EmitOperation | NPEX-artifact/hsim/components/host.cpp:263-315 | One macro command or the tile-expanded commands, with their scaled and rounded delays, or nothing for an unmatched operation. |
| HostObject.Host.SumMacro | NPEX-artifact/hsim/components/host.cpp:277-283 | The two 64-bit sums of a macro command. |
| AddressMap.LogBase2 | NPEX-artifact/DRAMsim3/src/common.cc:50-57 | The floor of the binary logarithm, 0 for arguments up to 1. |
| AddressMap.SetAddressMapping | NPEX-artifact/DRAMsim3/src/configuration.cc:354-409 | The process ends iff the string is not twelve characters that name all six fields. Otherwise each field starts where the fields to its right end; the masks are those of the widths, unless a burst is longer than a row and a mask is a shift by a negative amount. |
| AddressMap.FieldWidths | NPEX-artifact/DRAMsim3/src/configuration.cc:357-369 | The width of each field, with the burst bits taken off the column; negative when a burst is longer than a row. |
| AddressMap.PlaceFields | NPEX-artifact/DRAMsim3/src/configuration.cc:385-396 | The walk from the right assigns running positions, or stops at the first unknown token. |
| AddressMap.CoverIsPermutation | NPEX-artifact/DRAMsim3/src/configuration.cc:377-403 | Six tokens that name all six fields are a permutation of them. |
| AddressDecode.FieldsTile | NPEX-artifact/DRAMsim3/src/configuration.cc:385-403 | Every bit below the total width belongs to exactly one field and no field reaches beyond it. |
| AddressDecode.DecodedIsCell | NPEX-artifact/DRAMsim3/src/configuration.cc:33-42 | Any address decodes to coordinates inside the geometry, power of two or not. |
| AddressDecode.DecodeEncode | NPEX-artifact/DRAMsim3/src/configuration.cc:33-42 | Decoding the address built from coordinates gives them back; it is aligned and below the capacity. |
| AddressDecode.EncodeDecode | NPEX-artifact/DRAMsim3/src/configuration.cc:33-42 | Encoding a decoded address gives its request-aligned base. |
| AddressDecode.SameCellIffSameBlock | NPEX-artifact/DRAMsim3/src/configuration.cc:33-42 | Two addresses decode alike iff they lie in the same request-sized block. |
| AddressDecode.EveryCellReachedIff | NPEX-artifact/DRAMsim3/src/configuration.cc:33-42 | Every cell of the geometry has an address iff every field's number of slots is two to its width: each dimension but the column is a power of two, and so is the number of whole bursts in a row. |
| AddressDecode.MaskIsLow | NPEX-artifact/DRAMsim3/src/configuration.cc:405-410 | Bitwise and with 2^w - 1 takes the low w bits. |
| AddressDecode.GetChannel | NPEX-artifact/DRAMsim3/src/dram_system.cc:31-34 | A request is routed to the channel its address decodes to. |
| AddressDecode.MappedConfigIsWellFormed | NPEX-artifact/DRAMsim3/src/configuration.cc:33-42 | A configuration that decodes with an accepted layout meets what the controller theorems ask of it. |
| PayloadPool.MemoryManager.constructor | NPEX-artifact/hsim/utilities/mm.h:14 | An empty pool. |
| PayloadPool.MemoryManager.Allocate | NPEX-artifact/hsim/utilities/mm.cpp:4-17 | Pops the most recently freed payload, or constructs one iff none is free; the list keeps its nodes and moves the cursor. |
| PayloadPool.MemoryManager.Release | NPEX-artifact/hsim/utilities/mm.cpp:19-32 | Pushes the payload, into an empty node if there is one and otherwise into one new node at the head; no node is lost. |
| PoolSpec.RunIsTight | NPEX-artifact/hsim/utilities/mm.cpp:4-32 | Over every run that frees only live payloads, free payloads are distinct and not live, as many payloads were constructed as were ever live at once, and as many nodes as were ever free at once. |
| PoolSpec.NoLivePayloadIsHandedOut | NPEX-artifact/hsim/utilities/mm.cpp:4-17 | No allocation of such a run returns a live payload. |
| PoolSpec.AllocateUndoesRelease | NPEX-artifact/hsim/utilities/mm.cpp:4-32 | Last given back, first handed out. |
| PoolSpec.ReleaseKeepsIff | NPEX-artifact/hsim/utilities/mm.cpp:19-32 | A release keeps the free payloads distinct and dead iff the payload was not free already. |
| PoolSpec.DoubleReleaseAliases | NPEX-artifact/hsim/utilities/mm.cpp:19-32 | Freeing a payload twice makes the next two allocations return it twice. |

## Left out

- Self-refresh: taken as disabled, its default; the entry and exit commands and the bank state exist in the model, but no run reaches them.
- RANK_LEVEL_SIMULTANEOUS refresh: modelled as coded, always rank 0; nothing is claimed about the other ranks.
- HmcFlow.QueuesStayWithin: says nothing of the quad response queues, which the vaults fill without a check.
- Liveness of requests: a write drain can be armed and cancelled in every tick, so only safety is stated for the split queues; per-bank refresh has no bounded latency either.
- ControllerTheorems.NoRunAborts: asks for a positive refresh interval, because the source takes a remainder by it.
- ControllerTheorems.OneEntryPerPendingAddress: asks that no tick has lost a command, which `LostCommands.ExactRunIff` shows to be necessary.
- ControllerTheorems.EmptyMeansAllDelivered: asks that no tick has lost a command; `LostRun.DualIssueLosesARead` fails without it.
- DataBus.BurstsDoNotOverlap: asks that the configured gaps leave room for a burst. For timings that are not negative this comes down to one inequality, with closed pages only (`DataBus.PlainParametersIff`). With closed pages and a single bank the three inequalities that hold for open pages are not necessary. That bursts do overlap in some run whenever an inequality fails is not proved.
- MemorySystem.IdleMeansHandedOut: asks that no tick of a controller has lost a command, because a lost read stays below the bridge.
- Clock overflow: cycle numbers are unbounded; a negative `clk + offset` wraps as in uint64_t, but a run beyond 2^64 cycles does not.
- Timing tables: only the entries that the channel dispatches are modelled; the same_rank entries for REFRESH_BANK are never read by the source.
- Statistics, power, thermal model, logging, traces, idle-cycle counters and all file input and output.
- Bank states as objects: a channel holds its banks by value, as the source does, so they are values here too.
- JedecDRAMSystem: its loops over channels are covered by returns and ticks of controllers in any order; trace output and epochs are not modelled.
- HMC request types and link timing from the configuration: a packet carries its flit counts, and the two clock domains are covered by allowing their steps in any order.
- HmcSystem.SystemIsCrossbar: asks that an address decodes to an existing vault, which `AddressDecode.DecodedIsCell` shows of an accepted layout.
- ComputeOrder.RetiredInOrder: asks that compute commands are all macro commands of fast-layer mode or none is, as the host queues them, and that the bridge hands them back in order, which `BridgeOrder.ComputesInOrder` shows.
- StageBarrier.RaisedOncePerStage: speaks of compute commands that the host queues for draft stages only; other compute commands raise the same event. The NPU's event, which the host waits for as well, is not part of this model.
- Hmc.AgeQueueExact: does not claim an order by age, because the source compares a counter with an index.
- Bridge.TickKeeps: assumes that the memory system reports each outstanding transaction at most once; `MemorySystem.SystemIsBridge` shows it of the controllers.
- Partitioned PIM, the memory wrapper, the arbiter and the NPU: easier variants of the same queues.
- SystemC: threads interleave only at waits and time never goes back; event notification is an arbitrary wake-up.
- PimObject.PimWrapper.Iteration: leaves out the end of the simulation and the choice of the next wait; the thread may be resumed at any later time.
- Doubles: delays are scaled and rounded over `real`, so a double's own rounding and the undefined conversion of one that does not fit are not modelled.
- DraftWork.AggregationKeepsWork: is stated modulo 2^64, because the source's sums wrap, and on unscaled delays; what scaling and rounding do to the device time is `DraftDelay.ScaledMacroTime`.
- DraftDelay.MacroKeepsTime: is exact for scale 1 only; `DraftDelay.ScaledMacroTime` bounds the difference for any scale.
- HostObject.ExpandWork: asks for fewer than 2^32 fan-out entries, because the source's 32-bit loop counter would not end.
- HostObject.Host.EmitSynthetic: asks for a positive attention tile size, because the source divides by it, and for profiles whose listed commands have entries, as the configuration reader builds them.
- AddressMap.SetAddressMapping: does not say what a mask is when a burst is longer than a row, because the source shifts by a negative width; shifts by 64 or more bits, undefined in the source, give zero here.
- Reading and checking configuration files, control traces and JSON; report percentiles and request lifecycles of the metrics.

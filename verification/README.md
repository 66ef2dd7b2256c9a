# Capture-to-SSD write path: a verified model

A capture board receives a stream by DMA into a ring of DDR slots and writes it to an NVMe SSD. This
project models that write path in Dafny, together with the supervision and the commit around it, and
proves what the parts promise: over every run, every interleaving of the threads and the hardware, and
every pattern of failures.

## How the project is organised

| part | files |
|---|---|
| Memory, disk, the reference "plain copy" and a few facts about remainders | `Media.dfy`, `Modular.dfy` |
| NVMe command table, identifier allocation, round-robin picker | `NvmeTables.dfy` |
| Cross-slot write engine: steps, invariant, safety, theorems, cutting into commands | `EngineModel.dfy`, `EngineInvariant.dfy`, `EngineSafety.dfy`, `EngineTheorems.dfy`, `EngineAbort.dfy`, `Tiling.dfy` |
| The same engine as an object with arrays and loops | `CrossSlotEngine.dfy` |
| The two writers that put one range at a time on the SSD: common table, by slot, by bytes | `LocalTable.dfy`, `SlotWriter.dfy`, `TightWriter.dfy`, `TightLoop.dfy` |
| DMA descriptor ring, and the ring whose descriptors are given back in harvest order | `DmaRing.dfy`, `RingOrder.dfy` |
| Slot table, write queue (operations as values; the shared object) | `SlotTable.dfy`, `WriteQueue.dfy`, `StorageQueue.dfy` |
| Continuous capture: hardware, producer, queue, writer, engine and SSD composed | `Capture.dfy`, `CaptureInvariant.dfy`, `CaptureData.dfy`, `CaptureSteps.dfy`, `CaptureWriter.dfy`, `CaptureTheorems.dfy`, `CaptureArrival.dfy`, `CaptureRun.dfy` |
| A capture whose disk is wrong: two slots completed out of order | `TwoSlots.dfy`, `OutOfOrder.dfy`, `StaleQueue.dfy`, `StaleDescriptor.dfy` |
| Supervisor: verdict over events of several workers | `Supervisor.dfy`, `SupervisorTheorems.dfy`, `SupervisorTask.dfy` |
| File table, transactional commit, diagnostic event ring | `Metadata.dfy`, `Commit.dfy`, `CommitTheorems.dfy`, `EventRing.dfy` |

Code that changes state in place is modelled twice: as a function on values, about which the theorems are
proved, and as a class or a loop whose methods are proved to do what the function says (`View()` after is
the function of `View()` before). The engine's methods return the list of steps they took, and their
contract says that this list is a run of the step system.

The environment is part of the state. The device holds a set of outstanding commands; it may answer a
doorbell with any of the five results, move the sectors of its commands one by one in any order and post
completions in any order. What it may not do is stated in `EngineModel.Honest` and `EngineModel.Enabled`:
a successful completion comes only after every sector moved, and a completion for a live identifier names
a command the device has. The DMA hardware works through the ring descriptor by descriptor and writes only
into those whose Completed bit is clear.

Main results:

* **The engine refines a plain copy.** `EngineTheorems.RefinesPlainCopy`, `ReportDelivers`,
  `OutsideUntouched`: for every completion order, SQ-full pattern and interleaving, a slot reported done is
  on the SSD as a one-by-one copy would leave it, no sector is ever torn between old and new content, and
  nothing outside the added slots changes. Every slot is cut into its commands in order (`Tiling.RunTiles`,
  `PostedIsNext`), and none is passed over for long (`EngineTheorems.BoundedBypass`). The runtime self-check
  can never fail (`SelfCheckNeverFails`).
* **End to end.** `CaptureTheorems.DiskHoldsStream`: in every error-free run of producer and writer, once
  drained, the SSD holds the received stream from the start LBA on, in order, each sector once, and nothing
  else changed. `CaptureArrival.StreamIsArrived`: the stream is what the hardware delivered, descriptor by
  descriptor in order of arrival, without those whose bytes do not fill sectors. `FileLayout`,
  `SlotOwnership`, `InFlightNotWritable`, `AddNeverRejected`, `PushRefusedOnlyForLba` and `PopNeverFails` say
  why; `CaptureRun.OneSectorArrives` is such a run.
* **The other two writers too.** `SlotWriter.WriteSlot`, `TightLoop.WriteContiguous`: a return of 0 means that
  the disk is what the commands leave one after the other, the counters are right and the device owns nothing.
* **Ownership survives aborts.** `OpenNeverDropped`, `QuiescedOwnsNothing`, `FailedKeepsEntries`.
* **Stop linearises.** `WriteQueue.StopLinearises`, over every interleaving, failures included.
* **The supervisor's verdict is sound and complete, and failure is final**, **the commit is atomic and runs
  once**, **the event ring agrees with its history**, **files never share LBAs or names**.

### Where the code does not do what one would expect

* *"No slot is reported done after the engine left RUNNING"* is false: an abort does not stop the polls and
  the reports of the iteration under way (`EngineTheorems.LateReport`; `AbortedRunStillReports` is such a run).
  Exactly: with n completions left in the iteration's batch a slot can still be reported if and only if the
  iteration is at its reports and the slot is drained without failure, or it still polls and at most n commands
  of the fully submitted slot are in flight, all with the device (`EngineAbort.ReportsAfterAbort`). Past the
  reports nothing is reported, and nothing is ever submitted (`NothingAfterAbort`, `NoSubmitAfterRunning`).
* *A descriptor is not harvested twice without a requeue in between.* With the one-slot writer, which gives
  descriptors back in harvest order, this fails if and only if the entry harvested one turn of the ring earlier
  was released because its bytes did not fill sectors (`RingOrder.HarvestedAgainIfReleased`). The hardware's
  descriptors are the interval the counters describe if and only if nothing behind a released descriptor was
  given back (`OwnedIsInterval`; `ReleasedIsHarvestedAgain` is a run that leaves it).
* With the cross-slot writer it also fails without a release: consumed descriptors keep their Completed bit, so
  one whose slot is still being written can be harvested again when another slot was requeued first. If its
  slot completes before the push, the push accepts it, and the hardware overwrites it while it waits.
  `StaleDescriptor.StaleHarvestCorrupts` is such a capture: no operation fails, it ends drained, and the third
  sector on the SSD is not the third sector of the stream. A harvest is of this kind if and only if the slot is
  not DMA_WRITABLE or is already in the batch (`CaptureTheorems.HarvestOwnsExactly`); the end-to-end theorems
  are about runs without one.
* The payload counter takes all bytes of a command that lies wholly beyond the payload. It ends up right if
  and only if the payload reaches into the last command (`Tiling.RecordedExactly`,
  `TightWriter.TightRecordedExactly`), which is so for every slot the queue accepts (`RecordedForQueuedSlot`).
* The byte-oriented writer keeps LBAs and DDR addresses in step if and only if its command size is a whole
  number of sectors or one command takes everything (`TightWriter.TightExact`).
* A supervisor verdict of success is not final. It turns into failure exactly on these inputs, and on no other
  (`SupervisorTheorems.SuccessLost`): any event of a target channel but a diagnostic one, a bad frame or body or
  one of the wrong channel, a nonzero exit, the loss of a target, a protocol error. `SuccessIsLost` is such a
  run. A failed verdict is final.
* A commit of items of which two are on one channel is not atomic, although nothing refuses it: a channel has
  one backup. Writable items are committed atomically under every pattern of failures if and only if no two
  share a channel (`CommitTheorems.AtomicIffChannelsDiffer`).
* The byte-oriented writer adds LBA and sector count in 64 bits before it compares with the limit. The check is
  the one meant if and only if the sum does not wrap (`TightLoop.RangeCheckMeant`, `RangeCheckExact`).
* A metadata write can fail before its backup was taken; its rollback then reports failure although nothing
  had changed. The tables are as before all the same (`CommitTheorems.RollbackRestores`).

## Model

| member | source | states |
|---|---|---|
| Media.CopySectorsAt | src/ccb_hw.c:2853-2861 | the plain copy the engine is compared with: what it leaves at every LBA, inside and outside the range |
| NvmeTables.ChooseCidVerdict | src/ccb_hw.c:1428-1454 | a search that fails has seen only 0 and live identifiers; one that succeeds returns a fresh nonzero one, across the 16-bit wrap |
| NvmeTables.CidAllocationTotal | src/ccb_hw.c:1428-1454 | with at most 31 live commands allocation always succeeds, within 33 tries, with an identifier that is neither 0 nor live |
| NvmeTables.AllocCid | src/ccb_hw.c:1428-1454 | the two nested loops compute exactly that search with 65535 tries |
| NvmeTables.FindFreePending | src/ccb_hw.c:1469-1478 | the loop finds the first entry not in use, or none |
| NvmeTables.FindPendingByCid | src/ccb_hw.c:1456-1467 | the loop finds the first entry in use under the identifier, or none |
| NvmeTables.FindSlotContext | src/ccb_hw.c:2247-2258 | the loop finds the first context of the slot, or none |
| NvmeTables.FindNextSubmit | src/ccb_hw.c:2406-2424 | the loop picks the first submittable context in circular order from the round-robin index and moves the index past it, or leaves it |
| NvmeTables.PickIsNearest | src/ccb_hw.c:2406-2424 | a submittable context is never passed over for a farther one, and there is a pick whenever some context is submittable |
| NvmeTables.PickApproaches | src/ccb_hw.c:2406-2424 | each pick takes a given submittable context or strictly shrinks its circular distance |
| EngineInvariant.SubmitHasRoom | src/ccb_hw.c:2868-2881 | below the queue depth there is always a free entry and a fresh identifier, so the allocation failure is dead |
| EngineInvariant.OwnerFound | src/ccb_hw.c:2557-2567 | a live command's context is found and has work in flight, so the lookup failure is dead |
| EngineInvariant.PlaceKeepsTables | src/ccb_hw.c:2791-2803 | adding a slot keeps counts, distinct slots and the link from commands to contexts |
| EngineInvariant.PostKeepsTables | src/ccb_hw.c:2882-2944 | posting a command keeps submitted = completed + failed + inflight, per-context and global counts, distinct and unseen identifiers |
| EngineInvariant.RetireKeepsTables | src/ccb_hw.c:2551-2586 | retiring a completion, good or bad, keeps the same |
| EngineInvariant.ReleaseKeepsTables | src/ccb_hw.c:2853-2867 | freeing a drained context keeps the same |
| EngineSafety.SelfCheckHolds | src/ccb_hw.c:2504-2549 | tables that satisfy the invariant pass every comparison of the self-check |
| EngineSafety.RetireKeepsStored | src/ccb_hw.c:2551-2586 | what was submitted and is no longer in flight has been written, after any completion the device may post |
| EngineSafety.ReportedSlotStored | src/ccb_hw.c:2853-2861 | a drained slot without failed command is on the SSD in full |
| EngineSafety.DropKeeps | src/ccb_hw.c:2899-2941 | a command the queue refused leaves tables, data and ownership as they were |
| EngineSafety.StepKeeps | src/ccb_hw.c:2730-3017 | every step of the engine, the device and the other thread keeps the whole invariant: tables, ownership, data, life of identifiers, states |
| EngineSafety.RunKeeps | src/ccb_hw.c:2730-3017 | so does every run |
| EngineTheorems.SelfCheckNeverFails | src/ccb_hw.c:2504-2549 | in no reachable state can the runtime self-check fail |
| EngineTheorems.ReportDelivers | src/ccb_hw.c:2853-2861 | when the done callback is called for a slot, its LBA range equals its DDR range as a plain copy leaves it |
| EngineTheorems.FailedSlotNotReported | src/ccb_hw.c:2853-2867 | in every run a slot with a failed command stays the engine's, with its failure on record, until the engine is quiesced: no report ever releases it |
| EngineTheorems.RefinesPlainCopy | src/ccb_hw.c:2768-3017 | every sector is as the reference (the sequential copy of everything added) or as the disk of the reported slots has it, also after a drain or reset; until then the SSD equals the reference outside the active slots, and everywhere when nothing is active |
| EngineTheorems.ReferenceIsSequential | src/ccb_hw.c:2768-2807 | the reference disk changes by one whole plain copy per accepted slot and by nothing else, whatever the step |
| EngineTheorems.BaseIsReported | src/ccb_hw.c:2853-2861 | the disk of the reported slots changes by reports only, each of which takes over the slot's range from the reference |
| EngineTheorems.OutsideUntouched | src/ccb_hw.c:2768-3017 | no LBA outside the added slots changes in any run, errors and aborts included |
| EngineTheorems.BoundedBypass | src/ccb_hw.c:2868-2879 | in every run of the engine a context that stays submittable is picked by one of any 32 successive submissions, whatever happens in between |
| EngineTheorems.OwnedIsPending | src/ccb_hw.c:2918-2931 | every command the device owns is in the pending table with the same LBA, length and address |
| EngineTheorems.OpenNeverDropped | src/ccb_hw.c:2660-2766 | until a drain or confirmed reset ends the engine, every posted and uncompleted identifier, acceptance-unknown ones included, stays in the table |
| EngineTheorems.QuiescedOwnsNothing | src/ccb_hw.c:2660-2711 | an engine that is quiesced, and so may be destroyed, leaves nothing owned by the device |
| EngineTheorems.FailedKeepsEntries | src/ccb_hw.c:2757-2765 | a failed reset keeps every outstanding entry and leaves the engine undestroyable |
| EngineTheorems.StrayVerdictExact | src/ccb_hw.c:2557-2563 | a completion of an identifier that is not live is called duplicate if and only if its latest issue already completed |
| EngineTheorems.NothingAfterAbort | src/ccb_hw.c:2825-2873 | once out of RUNNING and past the reports of the iteration, nothing is submitted and no slot is reported, ever |
| EngineTheorems.NoSubmitAfterRunning | src/ccb_hw.c:2872-2873 | nothing is ever submitted once RUNNING was left |
| EngineTheorems.LateReport | src/ccb_hw.c:2825-2867 | an abort during polling does not stop the report of a drained slot, and what it reports is on the disk |
| EngineTheorems.AbortedRunStillReports | src/ccb_hw.c:2825-2867 | such a run exists |
| EngineAbort.ReportsAfterAbort | src/ccb_hw.c:2825-2873 | out of RUNNING, with a given number of polls left, some run reports a slot if and only if a slot is drained at the reports, or fully submitted during the polls with no more commands in flight than polls left and all of them with the device, and none of its commands failed |
| Tiling.CommandsTile | src/ccb_hw.c:2882-2896 | a slot is cut into exactly ceil(sectors/limit) commands of 1..limit sectors, back to back in LBA and DDR, whose sectors, media bytes and payload bytes add up to the slot's |
| Tiling.RecordedExactly | src/ccb_hw.c:1480-1492 | the payload counter never falls short, and is exact if and only if the payload reaches into the last command |
| Tiling.RecordedForQueuedSlot | src/ccb_hw.c:1480-1492 | it is exact for every slot whose sector count is the one its bytes need |
| Tiling.RunTiles | src/ccb_hw.c:2882-2944 | at every point of every run what was submitted for an active slot are its first commands, and what is left to cut are the others, in size, place and order |
| Tiling.PostedIsNext | src/ccb_hw.c:2882-2896 | the command a doorbell posts is the next one of the picked context's slot |
| Tiling.ReportedCommandCount | src/ccb_hw.c:2853-2861 | a slot reported done was written by exactly that many commands |
| CrossSlotEngine.WriteEngine.constructor | src/ccb_hw.c:2638-2658 | a new engine is the initial state of the step system |
| CrossSlotEngine.WriteEngine.Validate | src/ccb_hw.c:2504-2549 | the loops over the tables decide exactly the self-check |
| CrossSlotEngine.WriteEngine.AddSlot | src/ccb_hw.c:2768-2807 | one Add step; 0, 1 or -1 exactly when the slot was taken, the engine is full, or it was refused |
| CrossSlotEngine.WriteEngine.HandleCompletion | src/ccb_hw.c:2551-2587 | one completion step; success exactly for a live identifier without error |
| CrossSlotEngine.WriteEngine.PollPhase | src/ccb_hw.c:2831-2852 | a run of poll, device and abort steps only that ends at the reports, or outside with the engine out of RUNNING; progress exactly if a command was retired |
| CrossSlotEngine.WriteEngine.ReportPhase | src/ccb_hw.c:2853-2867 | a run of report steps only, after which no active context is drained; progress exactly if a slot was reported |
| CrossSlotEngine.WriteEngine.SubmitFrom | src/ccb_hw.c:2882-2944 | cutting, doorbell and accounting of one command are one submit step for the device's answer |
| CrossSlotEngine.WriteEngine.PostNext | src/ccb_hw.c:2872-2946 | allocation cannot fail; the picked context's next command is one submit step, and the answer decides whether the refill goes on, pauses or ends the step |
| CrossSlotEngine.WriteEngine.RefillPhase | src/ccb_hw.c:2868-2946 | a run of submit, device and abort steps only that ends with the queue depth reached, nothing submittable or the queue full, or outside with the engine out of RUNNING; progress exactly if a command was posted |
| CrossSlotEngine.WriteEngine.WaitPhase | src/ccb_hw.c:2954-3011 | a run of poll, device and abort steps only that ends in waiting, with progress exactly if a command was retired, or outside with the engine out of RUNNING |
| CrossSlotEngine.WriteEngine.Step | src/ccb_hw.c:2809-3017 | the whole operation is a run of the step system from the old state to the new one; -1 and no step when the engine is not RUNNING on entry; 0 only after as many iterations as the budget allows or with nothing active; -1 only with the engine out of RUNNING |
| CrossSlotEngine.WriteEngine.DrainAbort | src/ccb_hw.c:2730-2766 | a run that ends quiesced with nothing owned by the device and returns 0, or failed, undestroyable, and returns -1 |
| CrossSlotEngine.WriteEngine.EndDrain | src/ccb_hw.c:2752-2765 | when the reset is not confirmed every table and every owned command is kept |
| CrossSlotEngine.WriteEngine.QuiescedNow | src/ccb_hw.c:2699-2711 | the loop decides quiescence, and then the device owns nothing |
| LocalTable.PostTally | src/ccb_hw.c:2050-2080 | retired, in-flight and remaining bytes still add up to the whole range after a command is posted |
| LocalTable.RetireDisk | src/ccb_hw.c:1503-1563 | after a completion, everything submitted and not in flight is on the disk |
| LocalTable.FinishedIsCopied | src/ccb_hw.c:2178-2200 | with nothing in flight and nothing left, every LBA is as it should be and the device owns nothing |
| SlotWriter.Writer.Retire | src/ccb_hw.c:1503-1563 | retiring one completion keeps the writer's invariant and lowers the commands in flight by one |
| SlotWriter.Writer.DrainAmbiguous | src/ccb_hw.c:1595-1622 | after an unknown acceptance success is claimed only when the whole slot has been submitted and completed |
| SlotWriter.Writer.Write | src/ccb_hw.c:2034-2205 | a return of 0 means the slot is on the disk and both byte counters took all of it; the closing consistency check is dead |
| SlotWriter.WriteSlot | src/ccb_hw.c:2003-2206 | the same for the caller: disk equals the plain copy, media = sectors * 512, payload counter = payload, nothing left with the device |
| TightWriter.TightCommandsTile | src/ccb_hw.c:1803-1833 | the byte-oriented writer submits ceil(bytes/size) commands whose bytes and payload bytes add up and whose LBAs are contiguous |
| TightWriter.TightRecordedExactly | src/ccb_hw.c:1828-1833 | its payload counter never falls short, and is exact if and only if the payload reaches into the last command |
| TightWriter.TightExact | src/ccb_hw.c:1817-1827 | each command's LBA and DDR address belong together if and only if the command size is whole sectors or one command takes all |
| TightWriter.DiskAfterFaithful | src/ccb_hw.c:1836-1842 | no command overwrites another's sectors |
| TightWriter.TightIsCopy | src/ccb_hw.c:1803-1879 | with whole-sector commands, or a single one, they are the plain copy of the rounded-up range |
| TightLoop.Writer.constructor | src/ccb_hw.c:1758-1761 | an empty table in front of the first of ceil(bytes/size) commands |
| TightLoop.Writer.Retire | src/ccb_hw.c:1908-1943 | retiring one completion keeps the writer's invariant; it succeeds exactly when the completion has no error status, every identifier being live |
| TightLoop.Writer.SubmitOne | src/ccb_hw.c:1767-1886 | one command cut, posted and accounted, or dropped, keeps the invariant; the outcome is the device's answer, so no free entry or identifier can be missing |
| TightLoop.Writer.DrainAmbiguous | src/ccb_hw.c:1624-1662 | after an unknown acceptance a drain that ends well leaves nothing owned by the device |
| TightLoop.Writer.Write | src/ccb_hw.c:1763-1990 | for every completion order and SQ-full pattern a return of 0 means the disk is what the commands leave one after the other and both byte counters took everything; the closing consistency check is dead |
| TightLoop.WriteContiguous | src/ccb_hw.c:1683-1991 | the same for the caller: plain copy when sizes are whole sectors, media = bytes, payload counter exact if and only if the payload reaches into the last command; a job that fails a check touches nothing |
| TightLoop.RangeCheckExact | src/ccb_hw.c:1737-1738 | the LBA check adds in 64 bits; it lets a range beyond the limit pass exactly when the sum wraps to a number within it |
| TightLoop.RangeCheckMeant | src/ccb_hw.c:1737-1738 | it is the check meant, for every limit, if and only if the sum does not wrap |
| DmaRing.DmaChannel.constructor | src/ccb_hw.c:3902-3943 | all descriptors belong to the hardware, harvest starts at 0, TAILDESC is the last one |
| DmaRing.DmaChannel.TryHarvest | src/ccb_hw.c:3971-4004 | one turn of the harvest loop, its branches and its effect on index, count, sequence and status word |
| DmaRing.DmaChannel.HarvestBatch | src/ccb_hw.c:3951-4009 | a batch is that many harvests one after the other, and no more than asked for |
| DmaRing.DmaChannel.Give | src/ccb_hw.c:4047-4099 | requeue of one descriptor, with the stop, range, sick-channel and overflow branches |
| DmaRing.DmaChannel.Latch | src/ccb_hw.c:4034-4040 | the stop latch |
| RingOrder.RunKeeps | src/ccb_hw.c:3971-4099 | with descriptors given back in harvest order and any of them released instead, the ring is determined by what was filled, harvested, given back and released |
| RingOrder.OwnedIsInterval | src/ccb_hw.c:3971-4007 | the hardware's descriptors are the circular interval of the counted length from the next one to harvest to TAILDESC if and only if nothing behind a released descriptor was given back |
| RingOrder.HarvestedAgainIfReleased | src/ccb_hw.c:3971-4004 | a harvest takes a descriptor the hardware does not own if and only if the entry harvested one turn of the ring earlier was released |
| RingOrder.ReleasedIsHarvestedAgain | src/ccb_hw.c:3971-4004 | a run in which the same descriptor is harvested again without a requeue |
| RingOrder.HardwareStaysInside | src/ccb_hw.c:4047-4075 | while in order, the hardware fills only descriptors it owns and never fetches a completed one |
| RingOrder.HarvestTakesOldest | src/ccb_hw.c:3990-4004 | while in order, a harvest takes a descriptor the hardware owned, the oldest completed one |
| RingOrder.HarvestOrderIsCompletionOrder | src/ccb_hw.c:3990-4004 | slots and sequence numbers of the harvests count up from 0; while in order, harvest order is completion order |
| RingOrder.CompletedIsHarvested | src/ccb_hw.c:3971-3986 | while in order, the harvester finds something exactly when a completed descriptor is not yet harvested |
| RingOrder.OverflowIsDead | src/ccb_hw.c:4085-4097 | giving a harvested descriptor back never overflows the ownership count, in order or not |
| SlotTable.CountStateUpdate | src/storage_queue.c:65-73 | a transition moves exactly one unit from one state's count to the other's |
| SlotTable.Table.CountsAddUp | src/storage_queue.c:21-32 | the table check never fails while every count is the number of slots in its state |
| SlotTable.Table.Transition | src/storage_queue.c:53-75 | succeeds exactly when the slot exists, is in the expected state and the state differs; otherwise changes nothing; neither the empty count nor the closing check can stop it |
| SlotTable.Table.BusyCount | src/storage_queue.c:85-90 | slots that are neither writable nor free |
| WriteQueue.NeverRunsAgain | src/storage_worker.c:3-28 | a worker state past the stop latch never allows requeue again |
| WriteQueue.MarkReadyAt | src/ccb_commands.c:1858-1871 | after the commit loop exactly the batch's slots are READY, all others as before |
| WriteQueue.PushVerdict | src/ccb_commands.c:1821-1856 | a batch is never refused for lack of room or of writable slots: distinct writable slots always fit |
| WriteQueue.PushKeepsLedger | src/ccb_commands.c:1815-1890 | an accepted batch joins the FIFO in order and its bytes are buffered; a refused one leaves items, slots and counts untouched but for the error flag |
| WriteQueue.PopKeepsLedger | src/ccb_commands.c:2788-2809 | a pop takes the oldest item, its slot turns BUSY, and it cannot fail while the error flag is clear |
| WriteQueue.CompleteKeepsLedger | src/ccb_commands.c:2655-2707 | a completed item's bytes move from buffered to written, its slot to WRITABLE or FREE; the clamp to 0 is dead |
| WriteQueue.CompleteVerdict | src/ccb_commands.c:2638-2711 | completing a busy item fails exactly when a requeue meets a sick channel |
| WriteQueue.PerformKeepsStop | src/ccb_commands.c:1937-1959 | after the latch no operation requeues, moves TAILDESC or makes a slot writable |
| WriteQueue.StopLinearises | src/ccb_commands.c:1937-1959 | so in every interleaving of the two threads' operations; the count of requeues after the stop stays 0 |
| WriteQueue.StopFromTheStart | src/ccb_commands.c:1937-1959 | in particular from the created queue and the started ring on, whatever led to the latch and whatever follows it |
| StorageQueue.UnrolledMore | src/ccb_commands.c:1858-1862 | storing at the tail of the circular array appends to the sequence it stands for |
| StorageQueue.UnrolledLess | src/ccb_commands.c:2798-2800 | advancing the head removes the first element of that sequence |
| StorageQueue.WriterQueue.constructor | src/ccb_commands.c:1737-1785 | an empty queue over a slot table and channel in which every slot is writable |
| StorageQueue.WriterQueue.CheckItem | src/ccb_commands.c:1828-1853 | the checks of one item, in terms of slot state, sizes, LBA range and address |
| StorageQueue.WriterQueue.CheckItems | src/ccb_commands.c:1828-1854 | the nested validation loops decide whether all items pass, no slot occurs twice and the bytes fit, and sum the bytes |
| StorageQueue.WriterQueue.Store | src/ccb_commands.c:1857-1871 | the commit loop cannot fail; it appends the batch to the circular array and marks its slots READY |
| StorageQueue.WriterQueue.Push | src/ccb_commands.c:1815-1890 | the locked section is the push of the value model; 0 exactly when the batch was acceptable |
| StorageQueue.WriterQueue.Pop | src/ccb_commands.c:2767-2809 | the locked section is the pop of the value model |
| StorageQueue.WriterQueue.CompleteSlot | src/ccb_commands.c:2638-2711 | the locked section, requeue included, is the completion of the value model |
| StorageQueue.WriterQueue.ReleaseHarvested | src/ccb_commands.c:1724-1735 | a writable slot turns FREE; anything else sets the error flag |
| StorageQueue.WriterQueue.MarkHarvestFailed | src/ccb_commands.c:1708-1719 | a writable slot is kept as unharvested, the error flag is set |
| StorageQueue.WriterQueue.RequestStopNow | src/ccb_commands.c:1919-1935 | RUNNING becomes WAIT_BOUNDARY; a worker that was not started fails |
| StorageQueue.WriterQueue.LatchStopNow | src/ccb_commands.c:1937-1959 | both latches are set in one locked section |
| StorageQueue.WriterQueue.MarkHarvestingNow | src/ccb_commands.c:1961-1974 | only from DMA_QUIESCING, or harmlessly from FAILED |
| StorageQueue.WriterQueue.FinishNow | src/ccb_commands.c:1892-1915 | the producer is done: DRAINING, or FAILED from a state that may not finish |
| CaptureInvariant.HeldIsPlaced | src/ccb_commands.c:3132-3160 | the engine accepts every item the writer holds |
| CaptureSteps.HwWriteKeeps | src/ccb_hw.c:3971-4007 | what the DMA hardware writes never touches a slot that is queued, held or being written |
| CaptureSteps.HarvestKeeps | src/ccb_hw.c:3951-4009 | a harvest that is not stale keeps ownership, order and data |
| CaptureSteps.TakeKeeps | src/ccb_commands.c:4719-4852 | sorting one harvested descriptor, released when its bytes do not fill sectors, keeps ownership, offsets, LBAs and byte counts |
| CaptureSteps.PushKeeps | src/ccb_commands.c:4853-4876 | pushing the batch and moving the end of the file keeps layout, ledger and data |
| CaptureSteps.PushExact | src/ccb_commands.c:1821-1856 | a batch is accepted if and only if its LBA ranges are valid |
| CaptureWriter.PopKeeps | src/ccb_commands.c:2767-2809 | a pop keeps the invariant and never fails |
| CaptureWriter.AddKeepsSound | src/ccb_commands.c:3137-3162 | handing the held item to the engine keeps the invariant and never fails |
| CaptureWriter.ReportKeepsSound | src/ccb_commands.c:2969-2988 | a report with the completion as its callback keeps the invariant unless a thread sees an error |
| CaptureData.ChainAppend | src/ccb_commands.c:4827-4850 | batches laid one behind the other stay without gap or overlap in LBAs and file offsets |
| CaptureData.DiskAfterAt | src/ccb_commands.c:4827-4850 | copying a chain of items leaves each item's sectors in its range and nothing elsewhere |
| CaptureData.FileAfter | src/ccb_commands.c:4827-4870 | queueing a chain at the end of the file extends the image by exactly the bytes received |
| CaptureTheorems.EventKeeps | src/ccb_commands.c:4213-4885 | every event of hardware, producer and writer keeps the invariant until a thread sees an error or a stale descriptor is harvested |
| CaptureTheorems.DiskHoldsStream | src/ccb_commands.c:4705-4885 | once drained the SSD from the start LBA is the stream, sector by sector in order; every other LBA is unchanged |
| CaptureTheorems.OutsideFileUntouched | src/ccb_commands.c:4705-4885 | at no point has an LBA outside the file so far changed |
| CaptureTheorems.FileLayout | src/ccb_commands.c:4827-4876 | queued items tile the LBAs and the bytes of the file in harvest order; harvested = queued + not queued at each loop head |
| CaptureTheorems.SlotOwnership | src/ccb_commands.c:1815-1890 | READY slots are the FIFO's, BUSY slots the held item's and the engine's, WRITABLE slots the hardware's or the batch's, exactly |
| CaptureTheorems.InFlightNotWritable | src/ccb_hw.c:2882-2944 | the memory of every command in flight lies in a BUSY slot that the DMA hardware does not own |
| CaptureTheorems.AddNeverRejected | src/ccb_hw.c:2768-2807 | duplicate slot, range and capacity rejections never fire for the item the writer holds |
| CaptureTheorems.PushRefusedOnlyForLba | src/ccb_commands.c:1821-1856 | in every run a batch is refused only for its LBA range |
| CaptureTheorems.PopNeverFails | src/ccb_commands.c:2800-2804 | the slot of the oldest item is always READY |
| CaptureTheorems.CompletionFailsOnlyOnSickChannel | src/ccb_commands.c:2638-2711 | completing a reported slot fails exactly on a sick channel during requeue |
| CaptureTheorems.HarvestOwnsExactly | src/ccb_hw.c:3971-4004 | a harvest takes a descriptor the hardware does not own if and only if its slot is not writable or is in the batch |
| CaptureArrival.StreamIsArrived | src/ccb_commands.c:4213-4885 | at the producer's loop head the stream is the bytes of the descriptors harvested so far, in the order in which the hardware completed them, without those that do not fill sectors; all of them have arrived |
| CaptureArrival.DiskHoldsArrived | src/ccb_commands.c:4705-4885 | once everything that arrived was harvested and written, the SSD holds all of it, sector by sector |
| CaptureRun.OneSectorArrives | src/ccb_commands.c:4213-4885 | whatever bytes the hardware delivers, a run exists that ends drained with them as its stream and on the disk |
| StaleDescriptor.StaleHarvestCorrupts | src/ccb_hw.c:3986-4004 | for every disk a capture in which every operation of producer, writer and engine succeeds, which ends drained, and after which the third sector on the SSD is not the third of the stream |
| Supervisor.FirstFlawed | src/ccb_storage_supervisor.c:329-352 | the first target channel whose result is flawed, or none |
| SupervisorTheorems.StepKeeps | src/ccb_storage_supervisor.c:7-362 | every event, end of file, exit and control step keeps masks, causes, verdict, stop and drain bookkeeping and the story of every channel |
| SupervisorTheorems.SuccessIsSound | src/ccb_storage_supervisor.c:101-231 | SUCCESS means: each target had READY, ARMED, RUNNING, DRAIN_READY and FINAL accepted once each in that order, one nonzero epoch, no failure, DMA = NVMe = file bytes, and equal bytes on channels 0 and 1 |
| SupervisorTheorems.VerdictComplete | src/ccb_storage_supervisor.c:321-328 | for a nonempty target the task is over if and only if every target channel is final or unavailable |
| SupervisorTheorems.FirstCauseKept | src/ccb_storage_supervisor.c:7-63 | once known failed it can never become SUCCESS, and primary error, blamed channel and reason never change |
| SupervisorTheorems.FailedForGood | src/ccb_storage_supervisor.c:29-30 | a failed verdict is final |
| SupervisorTheorems.SuccessLost | src/ccb_storage_supervisor.c:7-30 | a success turns into failure if and only if the input is one of those named: they depend on the targets and the input alone |
| SupervisorTheorems.SuccessIsLost | src/ccb_storage_supervisor.c:243-263 | such a run exists: a worker that succeeds and then exits with an error code |
| SupervisorTheorems.StopBookkeeping | src/ccb_storage_supervisor.c:297-319 | sent stops within requested within targets; sent and failed disjoint |
| SupervisorTheorems.FailureStopsAll | src/ccb_storage_supervisor.c:27-28 | in every run, once anything has failed every target that is not final has been asked to stop, whatever came in between |
| SupervisorTheorems.AutoDrainHolds | src/ccb_storage_supervisor.c:264-296 | auto-drain starts at most once, with a nonzero epoch, and all targets stay idle; pending and sent make up the target |
| SupervisorTheorems.PhasesGrow | src/ccb_storage_supervisor.c:198-226 | stop phases only go forward |
| SupervisorTask.TaskSupervisor.constructor | src/ccb_storage_supervisor.c:65-66 | a fresh task |
| SupervisorTask.TaskSupervisor.Fail | src/ccb_storage_supervisor.c:7-31 | the in-place update of error, cause, stop mask and verdict |
| SupervisorTask.TaskSupervisor.FailResult | src/ccb_storage_supervisor.c:38-63 | the same for a flawed result |
| SupervisorTask.TaskSupervisor.ResultStatus | src/ccb_storage_supervisor.c:321-362 | the loop over the channels reaches the verdict of the value model |
| SupervisorTask.TaskSupervisor.HandleEvent | src/ccb_storage_supervisor.c:101-231 | one event changes the task as the value model says; the decision is made by the checks in the source's order |
| SupervisorTask.TaskSupervisor.Check | src/ccb_storage_supervisor.c:101-231 | the chain of checks reaches the value model's decision on the event |
| SupervisorTask.TaskSupervisor.HandleEventForChannel | src/ccb_storage_supervisor.c:86-99 | so does one with the checks of frame and channel |
| SupervisorTask.TaskSupervisor.HandleEof | src/ccb_storage_supervisor.c:232-242 | end of file of a worker |
| SupervisorTask.TaskSupervisor.HandleExit | src/ccb_storage_supervisor.c:243-263 | exit of a worker |
| SupervisorTask.TaskSupervisor.MarkUnavailable | src/ccb_storage_supervisor.c:73-84 | a worker that is gone |
| Metadata.StoredRoundTrip | src/ccb_metadata.c:184-192 | a task number of up to 11 characters is read back as stored |
| Metadata.AllocSlotAndLba | src/ccb_metadata.c:118-149 | first invalid entry, number of valid ones, and the end of the data area: past every file and no further |
| Metadata.CheckLbaOverlap | src/ccb_metadata.c:151-181 | accepts exactly a range that neither wraps nor overlaps a valid file |
| Metadata.FindByTask | src/ccb_metadata.c:194-211 | the first valid entry of that task and index |
| Metadata.ResolveFileIndex | src/ccb_metadata.c:213-242 | the requested index if it is new, else the next free one, or none |
| Metadata.ResolvedIsFresh | src/ccb_metadata.c:213-242 | a resolved index is at least the requested one, fits 16 bits and is taken by no file of the task |
| Metadata.RecordingsKeep | src/ccb_metadata.c:118-181 | any sequence of recordings keeps LBA ranges disjoint and names unique |
| Metadata.FilesNeverShare | src/ccb_metadata.c:118-181 | starting empty, after any sequence of recordings no two files share an LBA or a name |
| Metadata.LookupFindsRecorded | src/ccb_metadata.c:194-211 | lookup after recording returns exactly the new entry, and every earlier file is found where it was |
| Commit.RollBack | src/ccb_storage_commit.c:18-43 | the rollback loop, last item first, with its reasons |
| Commit.WriteMetadata | src/ccb_storage_commit.c:88-94 | the write loop, whose count includes the item that failed |
| Commit.CommitOnce | src/ccb_storage_commit.c:45-136 | the whole operation, loops included, computes the result the theorems are about |
| CommitTheorems.RollbackRestores | src/ccb_storage_commit.c:29-35 | working rollbacks bring every table back, whatever a failed write left in it |
| CommitTheorems.WriteAllRestorable | src/ccb_storage_commit.c:88-94 | at every point of the writes each table is as before or kept in a backup of an item written so far |
| CommitTheorems.CommitIsAtomic | src/ccb_storage_commit.c:45-136 | items on distinct channels: for every pattern of failures with working rollbacks records and metadata end wholly committed or exactly as before; 0 means committed and flashed or noted; -1 with data committed only if the note could not be made |
| CommitTheorems.AtomicIffChannelsDiffer | src/ccb_storage_commit.c:45-136 | items that can be written are committed atomically under every pattern of failures if and only if no two are on one channel |
| CommitTheorems.SharedChannelNotAtomic | src/ccb_storage_commit.c:18-43 | with two on one channel a failing insertion leaves the first one's entry in the table |
| CommitTheorems.CommitRunsOnce | src/ccb_storage_commit.c:54-55 | a second call performs no operation and repeats the verdict |
| EventRing.SortIsSorting | src/ccb_storage_diag.c:56-66 | the insertion sort yields an ascending permutation |
| EventRing.SortInPlace | src/ccb_storage_diag.c:56-66 | the in-place loops compute it |
| EventRing.Ring.Record | src/ccb_storage_diag.c:16-38 | a push appends to the history; window, overwrite count and first fatal event agree with it again |
| EventRing.Ring.Copy | src/ccb_storage_diag.c:39-68 | for every size of the output exactly the oldest part of the window that fits, preceded by the overwritten first fatal event if there is room |
| EventRing.ExpectedAscends | src/ccb_storage_diag.c:39-68 | a copy is sorted by sequence |
| EventRing.CopyIsHistory | src/ccb_storage_diag.c:39-68 | with room for capacity + 1 it is exactly the last min(n, capacity) events plus the first fatal one if overwritten |

## Left out

- Register access, memory mapping, clocks, sleeping, scheduling, logging, statistics, environment parsing and dry runs: time budgets and timeouts appear as numbers of iterations or as free choices.
- Serial, pipe and TCP framing, process spawning, SQLite and the outbox files themselves: foreign calls or separate protocols; the commit sees them as operations that may fail.
- src/ccb_storage_pipeline.c: the same queue as `WriteQueue` with fewer checks, plus small arithmetic functions.
- Bounded captures: the harvest limit ends the producer loop before the stop latch (src/ccb_commands.c:4240-4243), so only continuous captures are composed.
- The start of a capture up to RUNNING and its finalisation after the writer drained: `Capture` begins with a running worker and ends with a drained writer.
- Captures on the one-slot writer thread are not composed with the producer; `SlotWriter` and `RingOrder` state what each side guarantees.
- The batch writer `nvme_write_slots_qd` is not modelled.
- 32-bit command counters of a slot context are unbounded numbers: a slot of at most 16 MiB needs at most 32768 commands.
- EngineModel.Enabled: an added slot has a slot number below UINT32_MAX and LBAs apart from every active slot's, which the queue guarantees (`CaptureTheorems.AddNeverRejected`); it also lets every polling loop stop after any number of completions, so `EngineAbort.ReportsAfterAbort` takes the number of polls left as a parameter.
- CrossSlotEngine.WriteEngine.Step: between its steps only device moves and abort requests happen; changes of memory outside the engine's slots are steps of the step system but not of the object.
- SlotWriter.Writer.Write: nothing is claimed for ownership after an error return, nor that the loop ends.
- TightLoop.Writer.Write: nothing is claimed for ownership after an error return other than the ambiguous one, nor that the loop ends.
- TightLoop.WriteContiguous: DDR addresses are unbounded numbers; the LBA check adds in 64 bits as the source does (`RangeCheckExact`).
- CommitTheorems.CommitIsAtomic: items have distinct channels, as their only caller makes them (src/system.c:1585-1622); without that it is false (`AtomicIffChannelsDiffer`).
- Supervisor: the drain report kept for printing is not part of the task's state.
- Hardware memory ordering: each locked section and each engine step is atomic.

# libGRVY: ramdisk, timers, performance log, parent directories

A Dafny 4.11 model of four parts of libGRVY, with proofs. `dafny verify dfyconfig.toml` checks all of it.

**Out-of-core ramdisk** (`src/grvy_ramdisk.cpp`). Worker ranks write, read and pop fixed-size blocks by sparse
offset; pool ranks keep the blocks in memory slots and move the least-read ones to a scratch file when full.
- `ScratchFile`, `Protocol`: the file as extents; the headers.
- `PoolSpec`, `PoolRuns`, `PoolCounts`, `PoolOverflow`: one pool rank as a value: allocation, eviction, disk layout, its
  invariant, whole runs against a plain map, read counts and free slots over runs, and runs that overflow. `PoolInbox`:
  what a pool rank owes the senders of its messages. `PoolTask`: the pool rank as an object updated in place, with the
  polling and dump loops.
- `PrivateMap`, `WorkerTask`: what a worker's calls may return, round-robin ownership, and the worker object.
- `OcoreSystem`: the whole job as a step relation with one first-in first-out channel per worker, pool rank and tag
  (section 3.5 of the MPI Standard 3.1), buffered sends, and headers received from any source. `OcoreInvariant` and
  `OcoreSteps` prove its invariant; `OcoreTheorems` and `OcorePairing` say what holds in every run, `OcoreLiveness` and
  `OcoreCalls` that calls return, `OcoreChannels` and `OcoreExit` what Finalize promises, and `OcoreHistories` which
  histories the workers can have. `OcoreServing` ties a step of the job to the polling loop of the object.

**Nested timers** (`src/grvy_timer.cpp`). `TimerSpec` has the operations on values, each clock reading an argument;
`TimerRuns` compares whole runs with the time a timer is innermost or open; `TimerLaws` has conservation, the lag law
and reset; `TimerDropped` runs with dropped ends; `TimerSummary` the report; `GrvyTimer` the object.

**Performance log** (`src/grvy_timer.cpp`). `HistLog`: per host an extendable array and its measurement count.

**Parent directories** (`src/grvy_utils.cpp`). `PathNames`: cutting and rebuilding path names. `FilePath`: the loop that
makes missing parent directories, over a character buffer and a file tree.

## What the proofs found

- A record allocated on the overflow path is counted twice (lines 1646 and 1427 of `src/grvy_ramdisk.cpp`). The
  counter is the records in memory plus the completed overflow stores (`PoolRuns.RunRefinesMap`), and right exactly
  while no more different records than slots were stored (`PoolRuns.CounterRightExactlyWhen`). Slots stay safe, but
  later stores dump while slots are still free, until memory holds fewer than 2 / ratio records
  (`PoolRuns.MemoryTierCollapses`); every pool that can overflow has such runs (`PoolOverflow.CollapseIsReached`).
- The free-slot assertion at line 1642 can fail: exactly when ratio * max_num_records is below 1, which the start-up
  assertions (line 1168) admit (`PoolSpec.DumpFreesASlot`; the run is in `PoolOverflow.OneTooMany`).
- A pool rank may stop with a worker's writes unread. That it has stored them all is guaranteed in every run exactly
  for the master (`OcoreExit.DeliveryGuaranteedExactlyForMaster`). Any other worker is safe when its last call to that
  pool rank was a read or pop (`OcoreChannels.ReadSettlesTheChannel`) or no send is buffered
  (`OcoreChannels.UnbufferedExitLosesNothing`). Where every pool can overflow, a worker that calls no more can lose
  writes exactly when one of them is unread (`OcoreExit.WritesLostExactlyWhenUnread`); in terms of its own calls, some
  run can lose one exactly when the last call that reached that pool rank was a write
  (`OcoreHistories.WritesLostExactlyWhenLast`). Wherever a run has got to, a last write can be left unread unless a
  full pool rank ends the job first (`OcoreExit.LastWriteMayStayUnread`).
- The test for an end without a begin looks at the second character of the timer's name (line 353 of
  `src/grvy_timer.cpp`). Such an end is ignored exactly when the timer was never begun or that character is negative
  (`TimerLaws.UnmatchedEndIgnoredExactlyWhen`); otherwise it takes another timer off the stack
  (`TimerLaws.UnmatchedEnd`, `TimerLaws.SecondEnd`), and with more of them the counter goes below zero and a begin may
  be left off the stack (`TimerLaws.CounterWraps`). The same test drops the matching end of a timer with such a name,
  for instance one whose second letter is not ASCII in UTF-8: the end is taken exactly when the character is not
  negative (`TimerLaws.MatchedEndTakenExactlyWhen`). Over whole runs the stack is right exactly when no end was
  dropped (`TimerDropped.DroppedEndsExactly`); such a timer reads zero (`TimerDropped.DroppedTimersReadZero`), and so
  may the one around it (`TimerDropped.EnclosingReadsZero`).
- A reset does not undo `Finalize`: the flag set at line 218 of `src/grvy_timer.cpp` stays, so the next `Summarize`
  (line 658) does not end the global timer. The total is then zero and the time left over is minus that of the user
  timers; it is right exactly unless this is so and time has passed since the reset
  (`TimerSummary.ReportRightExactlyWhen`, with the run in `GrvyTimer.SecondReport`). In its readings and samples a reset
  object cannot be told from a new one (`TimerLaws.ResetIsForgetful`), in its report it can.
- `Summarize` warns that timers are not mutually exclusive. Overlap cannot cause it, since the remainder absorbs it;
  equal times do, as they share a line (`TimerSummary.ReportAddsUp`, `TimerSummary.EqualTimesWarn`).
- `grvy_check_file_path` refuses more than 50 parent directories only after making those of the first 51 it can
  (`FilePath.TooDeepIsRefusedLate`, `FilePath.DeepPathIsRefusedLate`). A refused call makes nothing exactly when none
  of them could be made (`FilePath.LeavesTreeExactlyWhen`).

## Assumptions

Rank layout, sizes and options are given. `use_disk_overflow` and `allow_empty_records` may differ from rank to rank,
since they are not broadcast. Clocks, eviction order among equally read records and where directories may be made are
arguments or left open. Times are exact reals, and a plain char is signed. Nothing was executed.

## Model

| member | source | states |
|---|---|---|
| OcoreTheorems.ReadsAreOwnLatestWrites | src/grvy_ramdisk.cpp:277-453 | In every run of any number of workers and pool tasks, whatever the interleaving, each completed read or pop of a worker returned the block of its own latest write to that offset since its last pop of it; with no such write it was a read, empty records were allowed, and the block was zeros. Records left behind by pops never show |
| OcorePairing.HeadersMeetTheirBlocks | src/grvy_ramdisk.cpp:835-872 | In every run, the (offset, block) pairs a pool task has stored for a worker, followed by those still on their way, are exactly the writes that worker issued to it, in order: headers taken from any source never meet the block of another write |
| OcoreTheorems.StepsOfOthersAreInvisible | src/grvy_ramdisk.cpp:493-574 | A step that does not concern worker v leaves v, its channels and the block every pool task holds for v at any offset as they were, evictions included |
| OcoreServing.JobServesLikeObject | src/grvy_ramdisk.cpp:531-562 | In every state of the job, unless it ends there: a pool task that takes a header, with its block for a write, changes its store and replies as the object does for that message of that sender |
| OcoreTheorems.AbortsExactlyWhen | src/grvy_ramdisk.cpp:1476-1648 | A step ends the job exactly when a worker reads an unknown offset with empty records not allowed, pops with nothing left, or a new record reaches a pool task with a record in every slot that cannot overflow: the known-key assertion and the full-read assertion never fail |
| OcoreTheorems.ExitFindsNobodyWaiting | src/grvy_ramdisk.cpp:297-332 | Once exit headers are sent no worker waits, no read request and no reply is in any channel, and a stopped pool task holds the latest block of every record the master gave it |
| OcoreTheorems.BusyJobMoves | src/grvy_ramdisk.cpp:835-907 | No deadlock: while a worker is inside a write, read or pop, some message already sent can be moved without taking the header of another worker or one for another pool task; where that posts a block or answers a read the receiver is waiting, so no send needs a buffer |
| OcoreTheorems.PendingMoves | src/grvy_ramdisk.cpp:1445-1453 | A pool task that waits for a block can take it, or its sender can still post it |
| OcoreTheorems.CanTakeHeader | src/grvy_ramdisk.cpp:518-571 | A pool task that polls can serve any header waiting for it; the heap order a dump needs exists |
| OcoreCalls.CallReturns | src/grvy_ramdisk.cpp:835-907 | Every write, read or pop can be carried to its return, by a finite number of moves made for it alone and needing no buffer, with the worker then as its own map says and its headers for other pool tasks untouched: a read or pop adds its own entry with the block of that map; or a new record finds a pool task without room and ends the job |
| OcoreCalls.DrainTerminates | src/grvy_ramdisk.cpp:259-291 | From every reachable state in which a worker is in no call, there is a schedule that carries as many pops as NumActive tells through: the table is then empty and the pops returned each live offset once, ascending, with its last written block; the only other end is a pool task without room |
| OcoreCalls.EveryDrainEnds | src/grvy_ramdisk.cpp:259-291 | The same under every schedule: while nobody calls but this worker, and it only for pops, a run that has not ended the job is at most as long as the work on its way and three for each record, and where it can go no further the table is empty and each record was returned once, in order |
| OcoreTheorems.OwnersAreFair | src/grvy_ramdisk.cpp:1341-1374 | In every run the owners in a worker's table are the round-robin ones, all of them pool ranks, and the totals given to two pool tasks differ by at most one |
| OcoreSteps.StepInv | src/grvy_ramdisk.cpp:493-574 | Every step of the job keeps the job invariant: for each worker and pool task, what is stored with the writes on their way applied is the worker's own map |
| OcoreLiveness.InternalStepsShrinkWork | src/grvy_ramdisk.cpp:493-574 | Moving a message already sent strictly lowers the amount of work on its way, or ends the job |
| OcoreLiveness.MovesAreBounded | src/grvy_ramdisk.cpp:493-574 | Between two states there are at most as many message moves as there was work on its way |
| OcoreLiveness.QuietJobHasNoCalls | src/grvy_ramdisk.cpp:835-907 | When no message can be moved no worker is inside a call and no pool task waits for a block |
| OcoreExit.DeliveryGuaranteedExactlyForMaster | src/grvy_ramdisk.cpp:297-332 | That a stopped pool task has stored every write a worker made to it holds in every run if and only if the worker is the master |
| OcoreExit.ExitMayOvertakeAWrite | src/grvy_ramdisk.cpp:324-328 | For every job and every worker but the master, a run in which pool task 0 stops with that worker's write, header and block, still unread |
| OcoreExit.LastWriteMayStayUnread | src/grvy_ramdisk.cpp:297-332 | From every reachable state: when a worker other than the master writes and makes no further call, the job can go on by moving messages and finalizing alone until the owner has stopped with that header and block unread, unless a pool task without room ends it |
| OcoreExit.WritesLostExactlyWhenUnread | src/grvy_ramdisk.cpp:297-332 | In every run, for a worker other than the master that is in no call: where every pool can overflow, the job can go on without a new call until the pool task has stopped with writes of the worker lost if and only if a write of the worker is unread there; where one cannot, a full pool task may end the job instead |
| OcoreHistories.HistoriesAreExactly | src/grvy_ramdisk.cpp:373-453 | Where every pool can overflow: the histories of completed calls that all workers can have together, in some run, are exactly the families of legal histories of private maps with blocks of the one size; so every answer a private map allows does occur, and no worker restricts another |
| OcoreHistories.EmptyReadsCounted | src/grvy_ramdisk.cpp:425-440 | In every run a worker has counted as empty exactly the reads in its history of offsets it did not hold then |
| OcoreHistories.WritesLostExactlyWhenLast | src/grvy_ramdisk.cpp:297-332 | Where every pool can overflow, for every such history of a worker other than the master: some run in which the worker has it and is in no call can go on, without a new call, to lose a write at a pool task if and only if the last of its calls that reached that pool task was a write |
| OcoreChannels.ReadSettlesTheChannel | src/grvy_ramdisk.cpp:406-453 | In every run, when a worker's last call that reached a pool task was a read or pop, or none did, none of its writes to it is on its way, then and until it writes there again |
| OcoreChannels.UnbufferedExitLosesNothing | src/grvy_ramdisk.cpp:859-867 | In every run in which blocks are posted only to a pool task waiting for them, a stopped pool task has stored every write of every worker |
| OcoreInvariant.ReadAtHead | src/grvy_ramdisk.cpp:886-902 | When a read request comes to the head of its channel every earlier write of that worker has been stored, and what is stored is the worker's own block |
| PrivateMap.ReadsReturnLatestWrite | src/grvy_ramdisk.cpp:406-453 | In a legal history of one worker's calls a read or pop returns the latest write to the offset since its last pop |
| PrivateMap.ContentsIsLatestWrite | src/grvy_ramdisk.cpp:373-453 | The map a history leads to holds the latest write since the latest pop, and nothing else |
| PrivateMap.DrainReturnsAll | src/grvy_ramdisk.cpp:277-291 | Popping as often as there are records empties the map and returns each record once in ascending order |
| PrivateMap.HandedToExactly | src/grvy_ramdisk.cpp:1348-1353 | Of n assignments pool task p gets n divided by the number of pool tasks, and one more if p is below the remainder |
| PrivateMap.RoundRobinIsFair | src/grvy_ramdisk.cpp:1348-1353 | After any number of assignments the totals of two pool tasks differ by at most one |
| WorkerTask.WriteTracks | src/grvy_ramdisk.cpp:383-395 | A write keeps the owner of a held offset, gives a new or popped one the next owner in turn, and changes no other |
| WorkerTask.WriteKindExactly | src/grvy_ramdisk.cpp:383-400 | The header of a write says update if and only if the worker holds the offset, and is then for its owner; otherwise it says new and is for the first pool rank plus the number of assignments so far modulo that of pool ranks |
| WorkerTask.NumActiveIsContents | src/grvy_ramdisk.cpp:259-262 | The number a worker is told is that of the offsets it has written and not popped since, and those are the offsets in its table |
| WorkerTask.OcoreWorker.NumActive | src/grvy_ramdisk.cpp:259-262 | Returns the number of records the worker's history has written and not popped since |
| WorkerTask.OcoreWorker.AssignOwner | src/grvy_ramdisk.cpp:1341-1374 | Gives the offset to the next pool rank in turn and wraps at the number of pool tasks |
| WorkerTask.OcoreWorker.Write | src/grvy_ramdisk.cpp:373-400 | Posts the header, new or update as the table says, and then the block, both to the owner |
| WorkerTask.OcoreWorker.Read | src/grvy_ramdisk.cpp:406-453 | Asks the owner and returns its reply; an unknown offset gives zeros and counts an empty read, or aborts |
| WorkerTask.OcoreWorker.PopRecord | src/grvy_ramdisk.cpp:277-291 | Reads the record of the lowest offset and removes it from the table alone; aborts when there is none |
| PoolRuns.RunRefinesMap | src/grvy_ramdisk.cpp:1380-1652 | Over every run of stores and pulls a pool task is a plain map: same contents, same answers in order; its counter is the records in memory plus the completed overflow stores; it fails exactly when some request could not be served |
| PoolRuns.CounterRightExactlyWhen | src/grvy_ramdisk.cpp:1427 | For every live run: no store overflows, and the counter is the number of records in memory, if and only if the run stores no more different records than there are slots |
| PoolRuns.MemoryTierCollapses | src/grvy_ramdisk.cpp:1646 | What the double count leads to: after 2 * max overflow stores, ratio times the records in memory is below 2, whatever the slot count |
| PoolOverflow.OverflowsAnyNumberOfTimes | src/grvy_ramdisk.cpp:1614-1648 | For every pool that can overflow and every n there is a live run with exactly n overflow stores |
| PoolOverflow.CollapseIsReached | src/grvy_ramdisk.cpp:1646 | For every pool that can overflow there is a run after which the share of the records in memory is below 2, all other slots are free, and the counter is 2 * max too high |
| PoolOverflow.OneTooMany | src/grvy_ramdisk.cpp:1629-1642 | For every pool that cannot overflow, max different records and one more end in failure; with disk overflow on it is the free-slot assertion, after a dump of nothing |
| PoolRuns.SlotsPartition | src/grvy_ramdisk.cpp:1614-1648 | Slots in memory are distinct and off the duplicate-free free stack; exactly 0..n-1 before any overflow; with the free ones exactly 0..max-1 afterwards |
| PoolRuns.ExtentsBijective | src/grvy_ramdisk.cpp:1571-1601 | Records on disk occupy the extents 0..n-1 one each and the scratch file is exactly n extents long |
| PoolRuns.DiskPlaceIsForeverInRuns | src/grvy_ramdisk.cpp:1429-1440 | A record once on disk keeps its extent through every later request of a run |
| PoolRuns.FreshSlot | src/grvy_ramdisk.cpp:1620-1628 | Below the limit the slot handed out, the counter itself included, is in range, unused and off the free stack |
| PoolRuns.BeginStoreKeeps | src/grvy_ramdisk.cpp:1394-1440 | Handling a write header keeps the invariant and every other block; it aborts exactly when the record is new, every slot is taken and no dump could free one; the drift grows by one on the overflow path and not otherwise |
| PoolRuns.EndStoreKeeps | src/grvy_ramdisk.cpp:1445-1466 | Storing the block changes that record's block to the one received and no other, in memory or on disk |
| PoolRuns.PullDataKeeps | src/grvy_ramdisk.cpp:1476-1529 | A pull succeeds exactly for known keys, returns the stored block and changes one read count |
| PoolSpec.DumpKeeps | src/grvy_ramdisk.cpp:1535-1606 | A dump keeps every stored block and every count, moves exactly the chosen records to disk, frees as many slots, and conserves the records of both tiers together |
| PoolSpec.DumpIsLeastRead | src/grvy_ramdisk.cpp:1544-1601 | Whatever the heap does with ties, each record moved has a read count no higher than each record kept; PoolCounts says what the counts are |
| PoolCounts.CountsAreExact | src/grvy_ramdisk.cpp:1401-1440 | In every live run the read count of each record is the number of times the run asked for it and the write count the number of times it stored it; no update and no dump resets them |
| PoolCounts.MovedWasLeastAskedFor | src/grvy_ramdisk.cpp:1544-1601 | In every live run a record that a request moves to disk had been asked for no more often than any other record that stays in memory |
| PoolCounts.SlotFreedLastIsHandedOut | src/grvy_ramdisk.cpp:1620-1648 | In every live run, once it has overflowed, a new record gets the slot freed last: every slot still free was last freed before it |
| PoolSpec.EvictionOrderExists | src/grvy_ramdisk.cpp:1544-1562 | The queue yields an admissible order for any number of records up to those in memory: the dump loop never pops an empty queue |
| PoolSpec.DumpFreesASlot | src/grvy_ramdisk.cpp:1629-1648 | On the overflow path a free slot is found if and only if a full memory would dump at least one record, also when the drifted counter dumps none |
| PoolSpec.DumpCountIsFloor | src/grvy_ramdisk.cpp:1566 | The number of records dumped is the floor of ratio times the number in memory |
| PoolSpec.DumpCountBelow | src/grvy_ramdisk.cpp:1566 | A dump never takes more records than there are, nor the last one |
| ScratchFile.WriteExtent | src/grvy_ramdisk.cpp:1458-1461 | Writing an extent stores the block there and grows the file exactly when the extent is new |
| ScratchFile.OtherExtent | src/grvy_ramdisk.cpp:1575-1579 | Writing one extent leaves every other as it was |
| ScratchFile.ExtentIsRead | src/grvy_ramdisk.cpp:1516-1519 | A read at the offset of an existing extent delivers every item, and they are the extent |
| PoolTask.OcorePool.constructor | src/grvy_ramdisk.cpp:1283-1296 | Zero-filled slots, an empty map, counters at zero |
| PoolTask.OcorePool.BuildQueue | src/grvy_ramdisk.cpp:1544-1562 | Loop: the queue holds one entry for every record in memory and no other |
| PoolTask.OcorePool.MoveToDisk | src/grvy_ramdisk.cpp:1571-1598 | Writes the block to the next extent and updates map, free stack and counters |
| PoolTask.OcorePool.DumpFrom | src/grvy_ramdisk.cpp:1571-1601 | Loop: takes n entries off the heap, least read first, and moves each |
| PoolTask.OcorePool.DumptoDisk | src/grvy_ramdisk.cpp:1535-1606 | The new state is the dump of an order the heap may yield |
| PoolTask.OcorePool.GetFreeRecord | src/grvy_ramdisk.cpp:1614-1652 | Slot and state of every branch; none where the code aborts or its assertion fails |
| PoolTask.OcorePool.FindRecord | src/grvy_ramdisk.cpp:1394-1440 | The bookkeeping of StoreData before it waits for the block |
| PoolTask.OcorePool.SaveBlock | src/grvy_ramdisk.cpp:1445-1466 | Stores the block in the slot or at the extent |
| PoolTask.OcorePool.StoreData | src/grvy_ramdisk.cpp:1380-1469 | One store request, including the choice of evicted records |
| PoolTask.OcorePool.PullData | src/grvy_ramdisk.cpp:1476-1529 | One pull request; none where an assertion fails |
| PoolTask.OcorePool.Serve | src/grvy_ramdisk.cpp:531-562 | Dispatch on the header kind: a write is stored under the sender and offset and nothing else changes, a read is answered to the sender with what is stored under both, a header for another rank is dropped; refused exactly where nothing is stored and it is a read or there is no room |
| PoolTask.OcorePool.PollForWork | src/grvy_ramdisk.cpp:518-571 | Loop: serves the messages before the first exit header, or before one it must refuse. One reply for each read addressed to this rank, in order and to its sender, with the payload of the last earlier write to this rank by that sender at that offset, or else what was stored there at the start; and the whole is one run of requests |
| PoolTask.TopIsNext | src/grvy_ramdisk.cpp:84-95 | The top of a heap ordered by ComparePriority is a record in memory read least among those left |
| TimerRuns.ExclusiveReading | src/grvy_timer.cpp:310-371 | In every well-nested run (begins and ends match, and no timer is ended whose name has a negative second character), with the two clock readings of the code, the exclusive reading of a closed user timer is the summed time it was innermost, plus pause time less begin time for each pause of it, plus end time less resume time for each resumption; with one reading per call just the time it was innermost; the global timer reads the time it was open |
| TimerRuns.InclusiveReading | src/grvy_timer.cpp:370-375 | In every well-nested run (no timer being ended whose name has a negative second character), whatever the clock lags, the inclusive reading of a closed timer is the summed time it was open |
| TimerRuns.ReadingExactly | src/grvy_timer.cpp:573-594 | In every well-nested run with positive clock readings both readings of a timer are the time it was charged with if it is closed, and zero while it is open, however often it was begun and ended before |
| TimerRuns.BegunReads | src/grvy_timer.cpp:583-584 | After every well-nested run a timer just begun reads zero for a positive clock, and for any other clock reading what it read before |
| TimerRuns.After | src/grvy_timer.cpp:243-429 | In every well-nested run (no timer being ended whose name has a negative second character) the counter of begins is the depth of the call stack and the stack is exactly the open timers, each once, the global one at the bottom |
| TimerLaws.ExclusiveTimesAddUp | src/grvy_timer.cpp:243-406 | Every instant the global timer is open is charged to exactly one timer: the exclusive times add up to it |
| TimerLaws.UnassignedTime | src/grvy_timer.cpp:669-682 | With at most the global timer open: where it is closed, the global reading less all user readings is the time no user timer was open, not negative for a monotone clock; where it runs, the global reading is zero and the difference is less by the whole time it has been open |
| TimerLaws.CompletedCall | src/grvy_timer.cpp:310-396 | With the separate clock readings of the code, a completed user call records inclusive = exclusive + sum over direct children of (inclusive + resume lag - pause lag), and inclusive is its length |
| TimerLaws.CompletedCallConserves | src/grvy_timer.cpp:310-396 | With one reading per call, inclusive = exclusive + sum of the direct children's inclusive times |
| TimerLaws.SamplesAddUp | src/grvy_timer.cpp:356-375 | In every well-nested run a timer has one exclusive and one inclusive sample for each of its ends since the last reset, and they add up to its totals |
| TimerLaws.ResetIsForgetful | src/grvy_timer.cpp:408-429 | After a reset with at most the global timer open, every later run gives the readings, samples, stack and counter of a newly constructed object |
| TimerLaws.ResetWithOpenTimers | src/grvy_timer.cpp:408-429 | After every well-nested run, a reset with user timers open leaves them on the stack and running, their totals cleared, while the counter says one |
| TimerLaws.UnmatchedEndIgnoredExactlyWhen | src/grvy_timer.cpp:351-355 | After every well-nested run an end of a timer that is not open is ignored if and only if the run never began that timer or the second character of its name is negative |
| TimerLaws.UnmatchedEnd | src/grvy_timer.cpp:356-396 | Otherwise the timer gains the raw clock reading plus one and what its last call had gathered, the innermost open timer leaves the stack still running, and the one below is stamped anew |
| TimerLaws.SecondEnd | src/grvy_timer.cpp:340-396 | Begin, end, end: the stack is empty and the counter zero with the global timer running |
| TimerLaws.CounterWraps | src/grvy_timer.cpp:268-274 | Ends without a begin take the counter below zero; compared as unsigned, a begin that brings it to zero is not put on the stack and one that leaves it negative is |
| TimerLaws.MatchedEndTakenExactlyWhen | src/grvy_timer.cpp:353-396 | After every well-nested run a begin and its matching end restore stack and counter if and only if the second character of the name is not negative; otherwise the end changes nothing, the timer stays on the stack and reads zero |
| TimerDropped.DroppedEndsExactly | src/grvy_timer.cpp:340-406 | Over every run of matching begins and ends, dropped ends included, the counter and the size of the stack are the number of open timers plus that of dropped ends; so the stack holds exactly the open timers if and only if no end was dropped, and those are the well-nested runs |
| TimerDropped.InclusiveTotal | src/grvy_timer.cpp:370-396 | Over the same runs the inclusive total of a closed timer with an ordinary name is the time it was open, however many ends of others are dropped; its reading is that, or zero if it was stamped again after its end |
| TimerDropped.DroppedTimersReadZero | src/grvy_timer.cpp:573-594 | Over the same runs a timer whose name has a negative second character reads zero and has no samples, however long it was open |
| TimerDropped.EnclosingReadsZero | src/grvy_timer.cpp:356-396 | Begin a, begin and end f, end a, the end of f being dropped: the end of a takes f off the stack and stamps a again, so that a reads zero for a positive clock |
| GrvyTimer.GrvyTimerClass.constructor | src/grvy_timer.cpp:166-194 | A new object with the global timer running |
| GrvyTimer.GrvyTimerClass.BeginTimer | src/grvy_timer.cpp:243-299 | The whole new state of a begin, pause included |
| GrvyTimer.GrvyTimerClass.PauseTimer | src/grvy_timer.cpp:310-320 | Adds the time since the last stamp to what the call gathered |
| GrvyTimer.GrvyTimerClass.ResumeTimer | src/grvy_timer.cpp:329-338 | Stamps the timer anew |
| GrvyTimer.GrvyTimerClass.EndTimer | src/grvy_timer.cpp:340-406 | The whole new state of an end, rejected or not, resume included |
| GrvyTimer.GrvyTimerClass.Reset | src/grvy_timer.cpp:408-429 | Loop: clears totals and samples of every timer, then begins the global one |
| GrvyTimer.GrvyTimerClass.Finalize | src/grvy_timer.cpp:215-220 | Ends the global timer and notes that it was done |
| GrvyTimer.GrvyTimerClass.ElapsedSeconds | src/grvy_timer.cpp:573-594 | Zero for unknown or active timers, otherwise the exclusive or inclusive total; TimerRuns.ReadingExactly says what that is over runs |
| GrvyTimer.GrvyTimerClass.Summarize | src/grvy_timer.cpp:638-829 | Leaves the timers as finalized, the global one included, and reports list, remainder, total, percentages and warning |
| GrvyTimer.GrvyTimerClass.SubTime | src/grvy_timer.cpp:674-678 | Loop: sums every timer but the global one |
| GrvyTimer.GrvyTimerClass.SortByTime | src/grvy_timer.cpp:688-703 | Loop: fills the map sorted by time |
| GrvyTimer.GrvyTimerClass.PrintLines | src/grvy_timer.cpp:750-793 | Loop: one line per entry; the percentages add up to the share of the listed time |
| GrvyTimer.GrvyTimerClass.Print | src/grvy_timer.cpp:797-824 | The percentages fall short of 100 by the share of the time neither listed nor left over |
| TimerSummary.ListIsOnePerTime | src/grvy_int.h:104-117 | The list is strictly descending and has exactly one line for each time some user timer has, under the name of the last such timer |
| TimerSummary.LinesAreRanked | src/grvy_timer.cpp:684-703 | The lines of a report have the distinct user times in strictly descending order, each exactly once, with the name that comes last in the alphabet among the timers of that time |
| TimerSummary.SharesArePrinted | src/grvy_timer.cpp:750-824 | In every report with a nonzero total each line, the left-over one included, shows p with p * total = 100 * its time; the total percentage is the sum of those printed, and the warning is given if and only if it is off 100 by more than 0.001 |
| TimerSummary.ListedTime | src/grvy_timer.cpp:688-703 | The listed times add up to the user times less those of the merged timers |
| TimerSummary.MergedExactly | src/grvy_int.h:104-108 | Nothing is merged when the times are pairwise distinct, and among positive times only then |
| TimerSummary.ReportAddsUp | src/grvy_timer.cpp:665-829 | With a nonzero total the percentage shown for the total is the sum of those of the lines, and it is 100 if and only if the merged share is zero, for positive times if and only if they are pairwise distinct; with at most the global timer open the remainder is the time no user timer was open if and only if the global timer is closed or has been open for no time; where it runs the total is zero and the remainder is minus the user times |
| TimerSummary.ReportRightExactlyWhen | src/grvy_timer.cpp:655-682 | When Summarize is called with at most the global timer open, the remainder is right unless the object was finalized or reported on before its last reset, not finalized since, and time has passed since that reset |
| GrvyTimer.SecondReport | src/grvy_timer.cpp:655-682 | A new object: report, reset, one timer for d, report. The second report has a total of zero, no percentages and the remainder -d |
| TimerSummary.EqualTimesWarn | src/grvy_timer.cpp:750-824 | Two user timers that run one after the other for the same time d > 0: one line, percentages summing to 50, and the warning about overlap |
| HistLog.LogIsHistory | src/grvy_timer.cpp:1058-1107 | After any saves to any hosts, a host's table yields exactly its records in order, and its extent is C * (n / C + 1) for n records and any chunk size C |
| HistLog.TablesGrowByHundreds | src/grvy_ptable.h:67 | With the chunk size of the program: n records give an extent of 100 * (n / 100 + 1) |
| HistLog.SavedPacked | src/grvy_timer.cpp:1060-1107 | An append goes inside the table to a cell never written, keeps the earlier records and leaves room for the next |
| HistLog.PerformanceLog.SaveHistTiming | src/grvy_timer.cpp:914-1107 | Appends to the host's records and leaves every other host's table alone |
| HistLog.PerformanceLog.AppendHistData | src/grvy_timer.cpp:1922-1931 | Writes the one cell the measurement count points at |
| HistLog.PerformanceLog.ReadAllHostData | src/grvy_timer.cpp:1571-1625 | Loop: returns the stored records in order |
| FilePath.ReturnsZeroExactlyWhen | src/grvy_utils.cpp:67-150 | For every path the result is 0 if and only if the path has no parent part, or has at most 50 ancestors each of which is a directory or absent and allowed to be made |
| FilePath.OnlyAncestorsAreMade | src/grvy_utils.cpp:67-150 | Whatever the result, existing entries are unchanged and only ancestors are made, as directories; on 0 all ancestors are directories and the same call again changes nothing |
| FilePath.MakesExactly | src/grvy_utils.cpp:105-142 | For every path, tree and set of forbidden places, and whether or not the call succeeds, it makes exactly the missing ancestors among the first 51 at and above which every place is usable |
| FilePath.LeavesTreeExactlyWhen | src/grvy_utils.cpp:105-142 | A call, refused or not, leaves the tree alone if and only if the path has no parent part or there is no such ancestor |
| FilePath.TooDeepIsRefusedLate | src/grvy_utils.cpp:123-142 | More than 50 parents are always refused, and every one of the first 51 that can be made is a directory afterwards |
| FilePath.DeepPathIsRefusedLate | src/grvy_utils.cpp:123-142 | Fifty-one directories and a file, relative, in an empty tree: refused, with exactly those 51 made |
| FilePath.FiftyParentsAreMade | src/grvy_utils.cpp:69-142 | Fifty directories and a file, relative, in an empty tree: accepted, with exactly those 50 made |
| FilePath.HereExactlyWhen | src/grvy_utils.cpp:79-88 | A path counts as having no parent part if and only if it is relative and has at most one component, or one after a dot |
| FilePath.Prefixes | src/grvy_utils.cpp:118-127 | The string rebuilt for k tokens names exactly the first k components, absolute as the path was, and is no longer than the path |
| FilePath.NextToken | src/grvy_utils.cpp:105-123 | Loop: repeated calls walk over the components of the path, skipping runs of slashes |
| FilePath.FileTree.CheckDir | src/grvy_utils.cpp:152-171 | Makes a missing directory where that is possible, accepts an existing one, refuses anything else |
| FilePath.FileTree.CheckFilePath | src/grvy_utils.cpp:67-150 | Loop over the buffer: every write stays inside it, and result and tree are those of the component-wise specification, including the depth limit |
| PathNames.DirnameDropsLast | src/grvy_utils.cpp:79-81 | The parent path has all components but the last and is absolute exactly when the path is |
| PathNames.ComponentsOfRender | src/grvy_utils.cpp:118-127 | A path rebuilt from components has exactly those components |
| PathNames.PrefixFits | src/grvy_utils.cpp:80 | Every rebuilt prefix fits in a copy of the path it was cut from |

## Left out

- WorkerTask.OcoreWorker.PopRecord: returns the key it removed; the code reads its iterator after erasing it (`src/grvy_ramdisk.cpp:288-290`). The reply of the pool rank is an argument here and is tied to the stored block in `OcoreTheorems`.
- OcoreCalls.CallReturns: a call can be carried to its return, and `OcoreLiveness.MovesAreBounded` bounds the moves in between; that the MPI progress engine is fair is not modelled.
- TimerRuns.After: leaves out runs with an end the code drops, where the stack is wrong (`TimerDropped.DroppedEndsExactly`), and mis-nested ends, recursive begins, begins after Finalize, and Finalize or Summarize with user timers open, and what follows a Reset with user timers open; `TimerLaws.UnmatchedEnd` and `TimerLaws.ResetWithOpenTimers` say what an unmatched end and such a Reset do.
- TimerRuns.ExclusiveReading: leaves out runs with a dropped end, as do all results on well-nested runs in `TimerRuns`, `TimerLaws` and `TimerSummary`; there the exclusive readings can be wrong (`TimerDropped.EnclosingReadsZero`).
- TimerRuns.InclusiveReading: leaves out the same runs; `TimerDropped.InclusiveTotal` says what the inclusive reading then is.
- TimerDropped.DroppedEndsExactly: leaves out runs with a Reset, which keeps the stack but not the counter.
- GrvyTimer.GrvyTimerClass.Summarize: the printed layout, widths, statistics columns and the warning about small times are not modelled; with a total of zero, where the code divides by it, the percentages are absent and no warning is given.
- GrvyTimer.GrvyTimerClass.EndTimer: an end that would resume a surrounding timer when none is on the stack is excluded, as the code then reads an empty stack.
- FilePath.FileTree.CheckFilePath: a component `.` or `..` is a name like any other; symbolic links and permissions enter only as the set of places where nothing may be made; dirname gives `/` also for two leading slashes.
- HistLog.PerformanceLog.SaveHistTiming: group and attribute handling, the host environment record, the subtimer and environment lists and the repacking that is compiled out are not modelled; failing HDF5 calls, which end the program, are not either.
- HistLog.PerformanceLog.AppendHistData: the record has neither the list of subtimers nor that of environment variables.
- MPI start-up and teardown, communicator splitting, input parsing, statistics and the report of the ramdisk.
- Unknown header kinds, calls before initialization or with the ramdisk disabled, and failing allocations.
- Narrowing of offsets to int in the header and overflow of int counters; offsets are in range.
- Element types other than 8-byte words; a block is its bytes.
- Failing seeks and writes of the scratch file.
- `ElapsedGlobal`, whose finalize time a reset never clears, and the means and variances kept by Boost accumulators: the recorded samples are modelled.
- Rounding of times.
- `TimerCmpLowHigh`, `numDigits_positive` and `set_map_constant_value` in `src/grvy_int.h`: only easy members.
- The wrapper over HDF5, the input parser, logging, environment queries, Fortran bindings, and the command-line tools.

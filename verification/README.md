# Escort: verified models of its checkpointing

Escort makes operations on a DRAM heap durable without stopping them for long. Time is cut into epochs. While users
run operations of epoch e, one checkpointing thread brings the NVM heap to the state at the end of epoch e-1: it waits
until no operation of e-1 is left (phase Multi_Epoch_Existence), writes the lines that e-1 dirtied to a redo log
(Log_Persistence), and replays the redo logs into the NVM heap (NVM_Heap_Update). A user of epoch e that marks a line
which is still dirty from e-1 saves the old content in its own redo log first. This project models that protocol and
the data structures under it, and proves what they are for.

`dafny verify dfyconfig.toml` checks everything.

## The parts

The protocol, as a transition system over any number of threads and lines, with every interleaving:

| file | what it is about |
|---|---|
| `EpochWord.dfy` | the packed global word: 62 bits of epoch number, 2 bits of phase |
| `Epochs.dfy` | begin_op (load, store, re-check), end_op, the phase changes, the wait for each context, the execute right |
| `Sequences.dfy`, `Redo.dfy` | sequences put together; replaying redo-log entries: the last entry for a line wins |
| `Protocol.dfy` | the whole state: epochs, contexts, two bitmaps, address lists, redo logs, DRAM heap, NVM heap; one step per access |
| `Invariant.dfy` | the invariant, per thread, per line and per log |
| `UserSteps.dfy`, `HeapSteps.dfy`, `UpdateSteps.dfy`, `EpochSteps.dfy` | every step keeps the invariant |
| `CrashSafety.dfy` | what a crash leaves, what recovery makes of it, and that this is an exact epoch boundary |
| `Restarts.dfy` | any number of crashes, recoveries and restarts |
| `ExactlyOnce.dfy` | how many entries a line gets over all logs together |
| `Races.dfy` | two interleavings that show what the guarantee rests on, and a crash at the moment of the phase change |
| `Quiesce.dfy` | how users finish and a checkpoint goes on, from any moment |
| `LateSave.dfy` | when the phase change is safe for good: if and only if no copy on write is in flight |
| `EarlyStore.dfy` | when a store that comes before its mark is harmless: if and only if the line is not dirty from the previous epoch |
| `PoolOrder.dfy` | when recovery in the order of the pool is right: if and only if the surviving entries agree |
| `Recycling.dfy` | bitmaps and lists come back empty, and users leave those of the previous epoch alone |
| `Locking.dfy` | the locking discipline of the list test: no operation touches a line after one of a newer epoch |
| `Reclaim.dfy` | delayed frees and the deallocator |
| `Ledgers.dfy` | allocation logs and byte maps over whole runs: what the check sees, and that they come back blank |
| `Solo.dfy` | runs put together, and runs of one party |

The loops and objects in memory, as classes and methods:

| file | what it is about |
|---|---|
| `ChunkedLog.dfy` | blocks, the shared pool, and logs made of blocks; redo logs have 4096*8 entries a block, allocator logs 4096*16 |
| `Marking.dfy` | `mark` over bitmaps, lists and logs, and which bytes it covers |
| `Persisting.dfy` | the nested loops of `log_persistence_unit` |
| `HeapUpdate.dfy` | the nested replay loops over real blocks, and the clearing of all logs |
| `Deallocator.dfy` | free with its delay, and the deallocator's loop |
| `AllocationLog.dfy` | malloc and free entries that cancel through the DRAM byte map, and `check_valid` |
| `ObjectSize.dfy` | object sizes in the NVM byte map |
| `Recovery.dfy` | replaying the pool's blocks after a crash, with further crashes in between, and copying into DRAM |
| `MarkRefinement.dfy`, `ScanRefinement.dfy`, `UpdateRefinement.dfy` | the steps of the transition system, run without interruption, do what the methods do |

## How the code is modelled

* Memory is sequentially consistent. There is one checkpointing thread. Epoch numbers stay below 2^62; what happens
  at that number is `EpochWord.NextEpoch`.
* In `Protocol`, one user step is one shared access of `mark` on one line: test of the current bit, test of the
  previous bit, clearing of the previous bit, push of the old content, setting of the current bit. The checkpointing
  thread tests, copies and clears a line in three steps. If the bit has gone in between, the copy may be any value at
  all, because a user may be storing to the line at that moment.
* The content of a line is one number. The protocol only copies contents.
* A crash keeps the global word and the log entries. The code does not secure this: the word is fenced but never
  written back at the phase changes (src/checkpointing.cpp:184-203), and users do not fence the write-back of their
  log entries (src/plog_t.hpp:41-44). A line of the NVM heap with a store since the last fence may hold anything at
  all, since a crash can tear a store of 64 bytes; other lines hold what was fenced. The log that is being cleared may have lost any of its entries, which includes the loss of
  whole blocks from the back. The write-back of a block's `_size` is not modelled: `append` never asks for it
  (src/plog_t.hpp:41-48).
* Recovery in `CrashSafety.Recover` replays the logs, the master log first, exactly if the crash came in
  NVM_Heap_Update. `escort_init` does not do this: it masks the phase bits off before it tests the phase, it tests
  for Log_Persistence, in which the logs are incomplete (src/Escort.cpp:26-31), and the constructor of the pool has
  by then set the size of every block to 0 (src/plog_t.hpp:74-81). `EpochWord.UnphasedWord` shows that the branch is
  dead, `CrashSafety.UnreplayedHeap` that this does no harm in the first two phases, and `PoolOrder.ReplayNeeded`
  that it does in the third. The recovery loop itself takes the blocks in the
  order of the pool and does not know whose they are; `PoolOrder.AnyOrderRecovers` says exactly when that is enough.
* The library starts with any word whose number is at least 2: with `Epochs.FIRST` in its first execution and with
  the word that survived after a recovery (src/Escort.cpp:25-43). Then both heaps are as recovery leaves them, and
  bitmaps, lists and logs are empty.
* Users follow the library's demands. Two of them are `Protocol.MayTouch`: two threads do not mark or write one line
  at the same time, and an operation of epoch e-1 does not mark or store to a line that an operation of epoch e has
  marked. `Locking.LockedRunIsRun` derives these two from locks taken before begin_op. The third is that a store
  follows a mark of its line in the same operation. Locks do not give it, and constructors that run in place before
  the region is marked do not obey it (src/Escort.hpp:47, test/list.hpp:16-17); `EarlyStore.EarlyStoreExactly` says
  exactly when such a store is harmless.
* `mark` clears the old bit of a line before it pushes the old content (src/userthreadctx_t.cpp:147-148). Nothing
  stops the checkpointing thread from entering NVM_Heap_Update in between, and then a crash loses a store, at once
  (`Races.LostSave`) or in the next checkpoint (`LateSave.StaleEntry`). The protocol's runs (`Protocol.Guarded`)
  exclude just that phase change, and no less would do: `LateSave.SafePhaseChange` shows of every reachable state that
  the phase change is safe if and only if no copy on write is in flight.
* `finalize` (src/checkpointing.cpp:160-174) neither waits nor takes the execute right. It is modelled with all
  threads outside operations and without registration during it, and it leaves the numbers ready for a next epoch.
* The DRAM byte maps come from `malloc` without being cleared (src/bytemap_t.hpp:37). They are taken to be zero.
* Addresses count from the start of the heap, which is aligned. The allocator is a set of free addresses.

## Model

| member | source | states |
|---|---|---|
| EpochWord.PhaseBits | src/globalEscort.cpp:32-35 | the high bits 10 say Multi_Epoch_Existence, 01 Log_Persistence, 00 NVM_Heap_Update, and 11 no phase, each if and only if |
| EpochWord.NumberBits | src/globalEscort.cpp:32-37 | the number is the other 62 bits, and a word is its number and its high bits |
| EpochWord.FirstWord | src/Escort.cpp:42 | the word 2 of the first execution has number 2 and phase NVM_Heap_Update |
| EpochWord.PackUnpack | src/globalEscort.cpp:37-71 | packing a phase keeps the number and the phase reads back |
| EpochWord.UnpackPack | src/globalEscort.cpp:38-71 | every word that get_phase accepts is the packing of its own number and phase |
| EpochWord.UnphasedWord | src/Escort.cpp:26-31 | a word without its phase bits reads as NVM_Heap_Update whatever its phase was, so that the test for Log_Persistence never succeeds |
| EpochWord.SameWord | src/userthreadctx_t.cpp:110-112 | equal words, as in the re-check, agree in number and in phase |
| EpochWord.NextEpoch | src/checkpointing.cpp:185-186 | the next epoch's number is one higher exactly if the 62 bits are not used up; otherwise it is 0, which means no operation |
| EpochWord.ParityOfWord | src/userthreadctx_t.cpp:128-129 | the packed word and the number select the same bitmap; successive epochs select different ones |
| Epochs.InvStep | src/checkpointing.cpp:176-224 | every step of users, registration and checkpointing keeps the epoch invariant |
| Epochs.RunKeepsInv | src/checkpointing.cpp:176-224 | over all runs the invariant holds, the number never falls, and within an epoch the wait does not come back |
| Epochs.OperationEpochs | src/userthreadctx_t.cpp:106-122 | operations in progress have epoch e or e-1, only e outside Multi_Epoch_Existence, and never the value 0 |
| Epochs.LateStore | src/userthreadctx_t.cpp:100-112 | however much others do in between, a thread stores exactly the word that it has read, and its re-check lets it into its operation if and only if the global word is that word then; otherwise it reads again |
| Epochs.WaitsForPrevious | src/checkpointing.cpp:21-25 | the wait passes a context if and only if the epoch that it has stored is not the previous one; operations of the new epoch do not hold it up |
| Epochs.Quiescence | src/checkpointing.cpp:19-27 | once the wait is over no thread is, or ever again can be, in an operation of an earlier epoch, however late it stores a word it read before |
| Epochs.ContextsFixedDuringCheckpoint | src/checkpointing.cpp:226-238 | the array of contexts does not change during a checkpoint, whose thread has the execute right |
| Epochs.ParitySeparation | src/userthreadctx_t.cpp:128-129 | after the wait the parity by which a user addresses its lists, logs and maps differs from the one that the checkpointing thread calls previous; what follows for the accesses is in Recycling.PreviousParityApart, Ledgers.PreviousLedgerApart and Reclaim.ListsApart |
| Redo.ApplyAt | src/checkpointing.cpp:84-96 | after replay a line holds its last entry, or its old content if it has none |
| Redo.ApplyConcat | src/checkpointing.cpp:115-122 | replaying one log after another is replaying their concatenation |
| Redo.ApplyAgreed | src/checkpointing.cpp:84-96 | if all entries of a line agree and it starts right or has an entry, it ends right |
| Redo.ApplyAllAgreed | src/checkpointing.cpp:115-122 | the same over any number of logs |
| UserSteps.MarkTestKeeps | src/userthreadctx_t.cpp:142-143 | testing the current bit of a line keeps the protocol invariant |
| UserSteps.MarkTestPrevKeeps | src/userthreadctx_t.cpp:144 | testing the previous bit keeps it |
| UserSteps.MarkClearPrevKeeps | src/userthreadctx_t.cpp:146-147 | clearing the previous bit keeps it |
| UserSteps.MarkPushKeeps | src/userthreadctx_t.cpp:148 | pushing the old content keeps it: the content is that of the end of the previous epoch |
| UserSteps.MarkSetKeeps | src/userthreadctx_t.cpp:150-153 | setting the current bit keeps it |
| UserSteps.MarkCallKeeps | src/userthreadctx_t.cpp:124-141 | entering mark keeps it |
| UserSteps.MarkReturnKeeps | src/userthreadctx_t.cpp:155-156 | appending the range, if a bit was set, keeps it: the range covers the set bits |
| HeapSteps.WriteKeeps | src/Escort.hpp:33-38 | a store to a marked line keeps it |
| HeapSteps.ScanStepKeeps | src/checkpointing.cpp:32-46 | moving through contexts, ranges and lines, and clearing a list, keeps it |
| HeapSteps.CopyLineKeeps | src/checkpointing.cpp:42 | logging a line keeps it, torn copies of lines that were saved meanwhile included |
| HeapSteps.ClearLineKeeps | src/checkpointing.cpp:43 | clearing the bit keeps it |
| UpdateSteps.UpdateStepKeeps | src/checkpointing.cpp:107-126 | every replay store, fence and clearing of a log keeps it |
| EpochSteps.EpochStepKeeps | src/checkpointing.cpp:176-238 | every step of begin_op, end_op, registration and phase change keeps it |
| CrashSafety.StepKeepsInv | src/checkpointing.cpp:176-224 | every step of the whole system keeps the invariant |
| CrashSafety.RunKeepsInv | src/checkpointing.cpp:176-224 | the invariant holds in every reachable state and the history of stores only grows |
| CrashSafety.RecoverFromInv | src/checkpointing.cpp:107-126 | in a state of the invariant, any outcome of a crash redoes to the epoch boundary |
| CrashSafety.CrashConsistency | src/checkpointing.cpp:176-224 | for every run and every outcome of a crash, recovery yields exactly the stores of epochs up to e-2 in Multi_Epoch_Existence and Log_Persistence and up to e-1 anywhere in NVM_Heap_Update |
| CrashSafety.UnreplayedHeap | src/Escort.cpp:28-31 | after a crash in Multi_Epoch_Existence or Log_Persistence the NVM heap is the boundary without any replay |
| CrashSafety.WholeOperations | src/userthreadctx_t.cpp:106-156 | a surviving store belongs to a finished operation of which all stores survive, and earlier stores to its line survive |
| CrashSafety.StepBoundary | src/checkpointing.cpp:184-203 | one step neither moves the boundary back nor adds a store behind it |
| CrashSafety.BoundaryIsFinal | src/checkpointing.cpp:184-203 | what was recoverable once stays recoverable along every run |
| Restarts.SurvivesAllCrashes | src/Escort.cpp:25-48 | over any number of lives, each ended by a crash and followed by recovery and a restart, the heap is the very first one with exactly the surviving stores of all lives applied in order, and epoch numbers never fall |
| Restarts.CanRestart | src/Escort.cpp:25-48 | after every crash the surviving word is one to start with |
| ExactlyOnce.LoggedAtMostTwice | src/checkpointing.cpp:31-49 | with free interleaving, at the end of log persistence a line has an entry just if the previous epoch marked it, at most one in the master log and at most one over all users' logs |
| ExactlyOnce.ExactlyOnceLogged | src/checkpointing.cpp:31-49 | with atomic line steps the master log and all users' logs together have exactly one entry for a line of the previous epoch, with its value at the end of that epoch, and none for other lines |
| ExactlyOnce.AnyOrderRecovery | src/recovery.cpp:15-31 | with atomic line steps, replaying the surviving entries in any order and any number of times yields the epoch boundary |
| Races.LostSave | src/userthreadctx_t.cpp:147-148 | a reachable state in which the phase changes between the clearing of the bit and the push, and a crash that loses a store |
| Races.ReplayOrderMatters | src/checkpointing.cpp:115-122 | a reachable state in which a line is in both logs: master log first installs the old content, users' logs first does not |
| Races.CrashAtPhaseChange | src/checkpointing.cpp:200-203 | a crash at the very moment of the phase change recovers the boundary if and only if a replay would already give every line that is being saved its content; the condition for good is LateSave.SafePhaseChange |
| LateSave.SafePhaseChange | src/checkpointing.cpp:200-203 | for every reachable state at the phase change: every continuation and every crash in it recovers its boundary if and only if no user is between its test of an old bit and the push of the old content |
| LateSave.SaveInFlightLoses | src/userthreadctx_t.cpp:144-148 | with a save in flight, for any other value there is a continuation by steps of the code and a crash in the next checkpoint that puts the old content back over that value |
| LateSave.StaleEntry | src/userthreadctx_t.cpp:147-148 | a reachable state in which the line being saved has already been copied, and a continuation in which its entry comes after the logs are cleared and overrules the next checkpoint |
| EarlyStore.EarlyStoreExactly | src/Escort.hpp:33-47 | for every reachable state and every store to a line that the operation has yet to mark: if the line's old bit is clear, every crash in every run in which the mark follows recovers its boundary; if it is set, the store changes the line and no operation of the previous epoch is left, some run and crash do not |
| EarlyStore.Simulate | src/Escort.hpp:33-47 | a run with such a store to a line with nothing to save is, step by step, a run of the protocol in which the store comes after the mark |
| EarlyStore.DirtyLoses | src/userthreadctx_t.cpp:143-149 | with the old bit set there is a run, the mark in it right after the store, and a crash after which recovery installs the new content where the boundary has the old |
| EarlyStore.EarlyStoreLoses | test/list.hpp:16-17 | a reachable state in which such a store is not harmless |
| Quiesce.ScanToEnd | src/checkpointing.cpp:32-48 | the loop over dirty lines, from wherever it is and with users standing still, comes to its end and leaves heaps, users' logs and the other bitmap alone |
| Quiesce.RetireAll | src/userthreadctx_t.cpp:106-156 | from any moment the users, one after the other, can finish their marks, their begin_op and their operations, and a stale entry in a log stays |
| PoolOrder.AnyOrderRecovers | src/recovery.cpp:15-31 | for every run and every crash during the update: every order of the surviving entries recovers the boundary if and only if surviving entries for the same line agree |
| PoolOrder.PoolRecovery | src/recovery.cpp:15-31 | if they agree, recovery block by block, in any order and with any number of further crashes, ends with the epoch boundary |
| PoolOrder.AtomicAgrees | src/userthreadctx_t.cpp:143-151 | with atomic line steps the surviving entries always agree |
| PoolOrder.ReplayNeeded | src/Escort.cpp:28-31 | a reachable state in NVM_Heap_Update and a crash after which the heap is not the boundary unless the logs are replayed |
| PoolOrder.PoolOrderFails | src/recovery.cpp:17-26 | a reachable state, the copy race, whose surviving entries disagree, and an order of them that recovers the wrong content |
| Recycling.EverySetBitListed | src/userthreadctx_t.cpp:142-156 | in every reachable state every set bit is in a range of a list of its parity, or of a mark in progress |
| Recycling.PreviousParityEmpty | src/checkpointing.cpp:31-49 | in NVM_Heap_Update the previous bitmap is clear, its lists are empty, and no user can append to its redo log |
| Recycling.PreviousParityApart | src/userthreadctx_t.cpp:128-156 | after the wait no step of any user changes a list of the previous parity, and of that parity's bitmap users change only the bit of a line that they save, which they clear |
| Recycling.RestingHeaps | src/checkpointing.cpp:107-126 | between checkpoints the NVM heap is the snapshot of e-1, and equals DRAM on lines that e has not marked |
| Locking.LockGivesTouch | test/list_multi.cpp:18-23 | a thread that holds the lock of a line may touch it |
| Locking.LockedRunIsRun | test/list_multi.cpp:18-23 | every run of users that lock before begin_op, touch lines only under their lock and mark lines before they store to them is a run of the protocol: the two demands on what other threads and epochs have touched come for free |
| Locking.LockedCrashConsistency | test/list_multi.cpp:18-23 | such users get crash consistency |
| Locking.EveryTouchTraced | test/list_multi.cpp:18-23 | every line that is begun to be marked or stored to is in the trace of accesses, with its lock and epoch |
| Locking.StoresInEpochOrder | test/list_multi.cpp:18-23 | stores to lines under one lock are made in epoch order |
| Locking.ConflictsInEpochOrder | src/userthreadctx_t.cpp:106-117 | accesses under one lock have non-decreasing epochs, so every boundary is closed under conflicts, reads included |
| Reclaim.StepKeepsInv | src/userthreadctx_t.cpp:66-77 | mallocs, frees, delayed frees and deallocator steps keep the invariant on who may reuse what |
| Reclaim.WhichFreesWait | src/userthreadctx_t.cpp:71-77 | a free by an operation that began outside Multi_Epoch_Existence makes the address available at once and changes no list; one that began in it changes nothing in the allocator and appends the address to exactly the thread's list of its parity |
| Reclaim.MallocSafe | src/userthreadctx_t.cpp:66-77 | for any free of an address and any later malloc of it in a run, reuse in between included: the operation that mallocs is of no earlier epoch than the one that freed |
| Reclaim.FreedExactlyOnce | src/deallocator_t.cpp:7-16 | each free has been carried out exactly once or waits at exactly one place of one delay list |
| Reclaim.DelaysEndWithCheckpoint | src/checkpointing.cpp:194-209 | after a checkpoint no free of the previous parity is waiting |
| Deallocator.Context.Free | src/userthreadctx_t.cpp:43-82 | an operation that began in Multi_Epoch_Existence adds the address to its list of its parity; any other gives it back to the allocator at once; outside an operation the call is one of its own |
| Deallocator.Dealloc | src/deallocator_t.cpp:7-16 | gives back the delayed addresses of the previous parity of all contexts, in order, and empties just those lists |
| Deallocator.EachFreedOnce | src/deallocator_t.cpp:8-15 | the deallocator frees an address exactly as often as it is in the lists |
| Ledgers.StepKeepsInv | src/checkpointing.cpp:73-82 | every malloc, free, check, clearing and epoch step keeps the ledgers of both parities what the operations of their epochs make of them |
| Ledgers.CheckSeesPreviousEpoch | src/cpallocator_t.cpp:10-14 | when the check begins, the logs and the byte map of the previous parity are exactly those of the operations of the previous epoch |
| Ledgers.CheckSeesEntries | src/cpallocator_t.cpp:10-22 | each thread's log then holds, in order and with their sizes, exactly those of its operations that were the first, third and so on of the previous epoch on their object |
| Ledgers.CheckCancels | src/cpallocator_t.cpp:10-43 | when it ends, an object has one valid entry over all logs if that epoch's operations on it were odd in number and none if even, and its byte is 0 |
| Ledgers.ReusedBlank | src/cpallocator_t.cpp:47-63 | between checkpoints the logs and the byte map that the next epoch will use are empty and zero |
| Ledgers.PreviousLedgerApart | src/userthreadctx_t.cpp:28-34 | after the wait no malloc or free touches a log or the byte map of the previous parity |
| Ledgers.AlwaysPossible | src/cpallocator_t.cpp:21-28 | no step of malloc, free, check or clearing ever lacks the log or the byte that it needs |
| Reclaim.ListsApart | src/deallocator_t.cpp:8-14 | while the deallocator runs, users add to no list that it reads |
| ChunkedLog.Block.Append | src/plog_t.hpp:35-47 | appends to the contents, and refuses without change exactly if the block is full |
| ChunkedLog.Pool.constructor | src/plog_t.hpp:74-82 | all blocks fresh, empty, free and disjoint in memory |
| ChunkedLog.Pool.Pop | src/plog_t.hpp:84-91 | moves the last free block to the used list and nothing else |
| ChunkedLog.Pool.Push | src/plog_t.hpp:93-97 | moves a block back to the end of the free list and removes it from the used list |
| ChunkedLog.Log.PushBack | src/plog_t.cpp:8-20 | the contents grow by exactly the entry, the retry on a fresh block included; all blocks but the last stay full; other logs are untouched |
| ChunkedLog.Log.AppendToTail | src/plog_t.cpp:13-14 | appends to the contents or reports that the last block is full |
| ChunkedLog.Log.ClearLast | src/plog_t.cpp:29-32 | one round of clear leaves the contents without the last block, which goes back to the pool |
| ChunkedLog.Log.Clear | src/plog_t.cpp:27-35 | clear empties the log and returns all its blocks |
| ChunkedLog.Log.SharedKept | src/plog_t.cpp:8-35 | what one log does leaves every other log valid with the same contents |
| ChunkedLog.BlocksConserved | src/plog_t.hpp:66-98 | every block is free and empty or in exactly one log; the used list is the union of the logs; logs share no block |
| ChunkedLog.Create | src/plog_t.hpp:74-82 | a new pool and new logs satisfy what the other operations ask for, with all blocks free |
| ChunkedLog.PushShared | src/allocatorlog_t.cpp:7-42 | appending for one of several logs; fails exactly if a block is needed and the pool has none |
| ChunkedLog.ClearShared | src/allocatorlog_t.cpp:44-51 | clearing one of several logs |
| ChunkedLog.Serve | src/plog_t.cpp:8-35 | after any sequence of appends and clears each log holds what a plain sequence would, and the blocks are conserved |
| Marking.MarkedCount | src/userthreadctx_t.cpp:131-133 | the first line visited is that of the first byte, none is visited for size 0, and otherwise 64*(count-1) < size <= 64*count |
| Marking.MarkedIsTouched | src/userthreadctx_t.cpp:131-142 | every line visited has a byte of the region |
| Marking.Coverage | src/userthreadctx_t.cpp:131-138 | the lines visited are exactly those of the region's bytes if and only if the region is empty or addr mod 64 + size is at most 64*ceil(size/64); aligning the address does not change the index |
| Marking.AlignedMarksExactly | src/Escort.hpp:42-46 | of an aligned region, as of objects that pnew allocates, exactly the lines of its bytes are visited |
| Marking.StraddlingMissed | src/userthreadctx_t.cpp:131-133 | a region across the end of a line of which the second line is not marked |
| Marking.InAllLines | src/checkpointing.cpp:34-46 | the loop over a list visits exactly the lines of its ranges |
| Marking.DumpExact | src/checkpointing.cpp:39-45 | however often a line is visited it is logged exactly once if its bit was set, with its content, and otherwise not |
| Marking.Context.MarkLine | src/userthreadctx_t.cpp:143-152 | one line: its bits, the saved entry, and whether it was new |
| Marking.Context.Mark | src/userthreadctx_t.cpp:124-156 | the whole call: the range is marked, previous bits survive only where the line was marked before, each line saved has one entry, the range is listed exactly if some line was new |
| Persisting.PersistedConcat | src/checkpointing.cpp:31-49 | visiting lines in two parts is visiting them all |
| Persisting.InVisited | src/checkpointing.cpp:33-46 | the loops visit exactly the lines in the lists of all contexts |
| Persisting.Checkpointer.PersistContext | src/checkpointing.cpp:33-48 | one context: its lines are logged and cleared, its list is emptied |
| Persisting.Checkpointer.LogPersistenceUnit | src/checkpointing.cpp:29-49 | all contexts: exactly the visited lines lose their bit, the log grows by their entries, the lists of the previous parity are emptied and the others kept |
| Persisting.EveryDirtyLineOnce | src/checkpointing.cpp:29-49 | if every set bit is listed, the bitmap ends clear and the new entries are exactly one for each set line, with its content |
| HeapUpdate.ReplayBlock | src/checkpointing.cpp:88-95 | the inner loop is the fold over the entries of a block |
| HeapUpdate.ReplayRedoLog | src/checkpointing.cpp:84-97 | the nested loops are the fold over the contents of the log |
| HeapUpdate.ApplyBlocks | src/checkpointing.cpp:84-96 | folding block by block is folding the whole contents |
| HeapUpdate.ClearRedoLogs | src/checkpointing.cpp:107-113 | empties every log and conserves the blocks |
| HeapUpdate.NvmHeapUpdateUnit | src/checkpointing.cpp:115-126 | the NVM heap becomes the replay of the master log and then of the users' logs, all of which end empty |
| AllocationLog.EntriesOfOperations | src/userthreadctx_t.cpp:28-35 | k operations on an object, in any interleaving, make ceil(k/2) entries, and the byte is 1 just if k is odd |
| AllocationLog.LogsOfOperations | src/userthreadctx_t.cpp:28-35 | each thread's log holds, in order, exactly those of its operations that were the first, third and so on of any thread on their object, with their sizes |
| AllocationLog.RecordOperation | src/userthreadctx_t.cpp:52-64 | the part of malloc and free that both share does one step of that |
| AllocationLog.CheckLogKeeps | src/cpallocator_t.cpp:18-29 | the check changes nothing of an entry but its validity, and leaves it valid if and only if the byte of its object was 1 and no earlier entry of the log is for that object |
| AllocationLog.CheckLogsKeeps | src/cpallocator_t.cpp:13-30 | the objects and sizes of the entries stay the same in the logs of all contexts |
| AllocationLog.CheckLogEffect | src/cpallocator_t.cpp:18-29 | of the entries of one log for an object at most one stays valid, and one does just if its byte was 1 |
| AllocationLog.CheckLogsEffect | src/cpallocator_t.cpp:13-30 | the same over the logs of all contexts; the byte ends as 0 |
| AllocationLog.CheckValid | src/cpallocator_t.cpp:10-43 | the nested loops compute that check |
| AllocationLog.Cancellation | src/cpallocator_t.cpp:10-43 | after any operations and the check, an object has one valid entry over all logs if the operations on it were odd in number and none if even, and every byte is 0 |
| ObjectSize.EncodeShape | src/bytemap_t.hpp:76-85 | ceil(n/64) bytes, each in 1..64, that sum to n and are no more than the object's lines |
| ObjectSize.DecodeEncoded | src/bytemap_t.hpp:76-85 | adding full bytes up to the first other one gives back n |
| ObjectSize.AllSizesReadBack | src/bytemap_t.hpp:69-86 | objects that do not overlap, recorded in any order on a zero map, all read back their sizes |
| ObjectSize.SetObjSize | src/bytemap_t.hpp:69-86 | the loop writes exactly the encoding and no other byte |
| Recovery.ReplayRedoLogs | src/recovery.cpp:15-31 | the heap becomes the replay of all blocks, and all blocks end empty |
| Recovery.RestartableRecovery | src/recovery.cpp:15-31 | recovery with any number of crashes at any points and any block orders always ends with the heap of one replay without a crash, if and only if blocks agree on the last entries of the lines that they share |
| Recovery.AgreedRecovery | src/recovery.cpp:15-31 | if they agree, every moment of recovery would lead to that heap, and at the end all blocks are empty |
| Recovery.DisagreementMatters | src/recovery.cpp:15-31 | two blocks that disagree on a line, for which recovery does not always end with the same heap |
| Recovery.Copy | src/recovery.cpp:33-53 | a byte is copied just if its page can be made writable, it is 0 in DRAM and it is not 0 in NVM; no other byte changes |
| Recovery.CopyRestores | src/recovery.cpp:33-53 | DRAM ends equal to NVM if and only if every byte was equal or was 0 in a writable page |
| MarkRefinement.MarkRefines | src/userthreadctx_t.cpp:124-156 | a run of nothing but the steps of mark of one thread does to the whole state what the method `Mark` does |
| ScanRefinement.LogPersistenceRefines | src/checkpointing.cpp:29-49 | a run of nothing but steps of the scan does what `LogPersistenceUnit` does |
| UpdateRefinement.HeapUpdateRefines | src/checkpointing.cpp:84-126 | a run of nothing but steps of the update does what `NvmHeapUpdateUnit` does |

## Left out

- CrashSafety.CrashConsistency: its runs have no copy on write in flight at the phase change to NVM_Heap_Update, because `mark` clears a bit before it logs the line; LateSave.SafePhaseChange shows that this is exactly what safety needs.
- CrashSafety.StepKeepsInv: the same of the step that changes the phase.
- CrashSafety.RunKeepsInv: the same of its runs.
- CrashSafety.WholeOperations: the same of its runs.
- CrashSafety.StepBoundary: the same of the step that changes the phase.
- CrashSafety.BoundaryIsFinal: the same of its runs.
- EpochSteps.EpochStepKeeps: the same of the step that changes the phase.
- ExactlyOnce.LoggedAtMostTwice: the same of its runs.
- Recycling.EverySetBitListed: the same of its runs.
- Recycling.PreviousParityEmpty: the same of its runs.
- Recycling.PreviousParityApart: the same of its runs.
- Recycling.RestingHeaps: the same of its runs.
- Locking.LockedRunIsRun: the same of its runs, and that a store follows the mark of its line, which locks do not give (EarlyStore has what happens otherwise); a lock taken before begin_op does not keep the checkpointing thread from changing the phase.
- Locking.LockedCrashConsistency: the same two.
- Locking.ConflictsInEpochOrder: the same of its runs.
- Locking.StoresInEpochOrder: the same of its runs.
- ExactlyOnce.ExactlyOnceLogged: assumes that the work on one line is not interrupted, because otherwise a line can be logged by the checkpointing thread and by a user (Races.ReplayOrderMatters); LoggedAtMostTwice holds without.
- ExactlyOnce.AnyOrderRecovery: assumes the same; PoolOrder.AnyOrderRecovers has the exact condition without it.
- EarlyStore.EarlyStoreExactly: looks at one store before its mark at a time, and the harm only where no operation of the previous epoch is left that could be kept from ending.
- Restarts.SurvivesAllCrashes: its runs are those of the protocol, without a phase change during a copy on write; recovery is `CrashSafety.Recover`, and what further crashes during recovery do is in Recovery.RestartableRecovery.
- Marking.Context.Mark: sees the redo log as the sequence of its entries; that a log of blocks is such a sequence, and when the pool runs out of blocks, is in ChunkedLog.
- Persisting.Checkpointer.LogPersistenceUnit: sees the log of the checkpointing thread as the sequence of its entries, and runs without users in between; the interleavings are in Protocol.
- AllocationLog.CheckValid: sees a log of blocks as the sequence of its entries.
- ChunkedLog.Pool.Pop: the mutex of the pool is not modelled; a pop or push is one step.
- ChunkedLog.PushShared: the epoch that is stored in a new block of an allocator log is not modelled; only recovery would read it, in code that is unfinished.
- Reclaim.StepKeepsInv: `finalize` is not part of the model of delayed frees, since it does not run the deallocator (src/checkpointing.cpp:160-174).
- AllocationLog.RecordOperation: models what malloc and free do to the byte map and the logs; that they begin and end an operation of their own when called outside one is not modelled, and when a free reaches the allocator is in Deallocator and Reclaim.
- Ledgers.StepKeepsInv: the check and the clearing take one context at a time; the recording of sizes is left to ObjectSize. That users touch nothing of that parity meanwhile is Ledgers.PreviousLedgerApart.
- NVM files, mapping and layout, and the number of users stored there: input and output. DRAM and NVM have the same line numbers.
- The allocator behind malloc and free: foreign code.
- The root table: its operations do not do what their names say (src/roottable_t.hpp).
- `apply_metadata`, `replay_allocator_logs`, `get_obj_size`, and the effect of `cpallocator_t::checkpointing` on freed objects: unfinished in the code.
- `finalize_userthreadctx` and the array of deleted contexts: contexts are only collected there.
- Several checkpointing workers: stubs that report an error.
- The builds OLD_VERSION, WEAK_CONSISTENCY and NO_PERSIST_METADATA.
- Weak memory order, CPU binding, timing, and whether the waiting loops end.

# Kernel core

A Dafny model of the core of a small preemptive kernel: its two interchangeable heap allocators, the priority
scheduler with aging, counting semaphores with a waiting array, and blocking pipes built on those semaphores.
`dafny verify dfyconfig.toml` checks all of it.

Every kernel part has the same two layers. A *specification* module describes the state as values (a tiling of the heap, a
sequence per ready queue, a queue of waiters, a ring of bytes) and the operations as functions on them; the theorems
are about runs of these functions. A *class* works on the data the kernel works on (free lists threaded through the
heap, `ready_next` links through the process table, waiting and credit arrays, a circular buffer) with the kernel's
loops, and each method is proved to compute the function of the specification.

| files | subject |
|---|---|
| `Bits`, `BuddyTheory`, `BuddyLists`, `Buddy` | buddy allocator: aligned tilings, doubly linked free lists, class `BuddyHeap` |
| `FreeListSpec`, `FreeList` | first-fit allocator: row of blocks, class `FreeListHeap` |
| `SchedSpec`, `SchedInv`, `SchedFair`, `SchedWait` | scheduler steps, invariants, bounded waiting, parent wait |
| `SchedEffect`, `SchedTick`, `SchedStatus` | what each operation and the tick do to each process; exit statuses |
| `SchedKernel`, `SchedRuns` | scheduler steps as system calls and interrupts string them together; runs that break the queues |
| `SchedLinks`, `Scheduler` | intrusive ready queues, class `ProcessTable` |
| `SemSpec`, `Semaphore`, `Mutex` | semaphores, class `KernelSemaphore`, the mutual-exclusion client |
| `PipeSpec`, `PipeInv`, `PipeUse` | pipe protocol, its invariant on disciplined runs, orderly use of descriptors |
| `PipeFlow`, `PipeTurn`, `PipeRuns` | bytes and ends of a pipe on every run; what a turn or a close does; runs that show where the conditions are needed |
| `Pipe` | classes `RingBuffer` and `KernelPipe` |
| `Seqs` | sequences of distinct identifiers |

Main results:

- *Bounded waiting.* A ready process of base priority p runs within 6 * (5 - p) + (table size - 1) ticks whatever the
  other processes do (`SchedFair.BoundedWaiting`); with the kernel's 64 slots that is 6 * (5 - p) + 63. The same bound holds
  for a running process until it is dispatched again (`SchedTick.ServedAgain`).
- *The tick from outside.* Whom a tick dispatches, what becomes of the process it preempts, how everybody else ages and in
  which order the queues stand afterwards are read off the state before (`SchedTick.TickEffect`), with round robin among
  equals as a consequence (`SchedTick.RoundRobin`).
- *Exit statuses arrive.* On every run a wait that collects a status gets the one its child ended with
  (`SchedStatus.StatusDelivered`), and no status is collected twice (`SchedWait.StatusCollectedOnce`).
- *Credit.* On every run the credit of a semaphore waiter is the number of posts since it was recorded, up to 5, each of
  which woke somebody else (`SemSpec.CreditCountsPosts`).
- *Canonical coalescing.* Which buddy blocks are free depends only on which are live, so freeing everything in any
  order restores the initial free lists (`BuddyTheory.FreeSetDetermined`, `Buddy.AllFreedRestoresInitial`).
- *Completeness of both allocators.* A request fails exactly when no free run of the heap could hold it
  (`Buddy.BuddyHeap.Alloc`, `FreeListSpec.FitIffRoom`). The first-fit heap does so for requests up to 2^64 - 8 bytes;
  above that its rounding wraps around and it serves 0 bytes (`FreeListSpec.RoundUp`).
- *No lost pipe wake-up.* On disciplined runs, in which nobody else blocks or unblocks a process while it is recorded on a
  pipe semaphore, a process waits in a pipe only if the other side is there and whatever it waits for is already promised
  to somebody who was woken, killing included (`PipeInv.SleeperWillBeWoken`).
- *Pipe bytes and ends.* On every run a pipe is first in, first out (`PipeFlow.PipeIsFifo`), and if explicit closes drop
  unclaimed reservations only, its slot is open exactly while somebody can use it (`PipeFlow.EndsAreAccounted`). It accepts
  a byte exactly when a writer takes its turn while a reader is counted and there is room (`PipeTurn.BytesNeedReaders`).
- *Mutual exclusion end to end.* Read-modify-write between wait and post is never interleaved, whoever is blocked or
  killed meanwhile, and loses no update under any schedule (`Mutex.MutualExclusion`, `Mutex.NoUpdateLost`).

Four properties turn out to hold only under a condition, which is proved to be exact:

- `scheduler_wait` blocks its caller without taking it off its ready queue. The queues hold nothing but ready processes
  afterwards exactly when the caller was not queued (`SchedInv.WaitKeepsIff`). `SchedRuns.WaitCanBreakQueues` is a run of
  scheduler operations from the initial table that ends otherwise.
- The kernel strings these operations together so that this needs a rare interrupt: a system call that leaves its caller not
  running ends in a tick, and a caller that sleeps in the loop of `syscall_wait` can be woken before the next tick only by
  the keyboard interrupt. Such a kill keeps the kernel's invariant exactly when it does not wake a current process in its
  wait loop whose child lives on (`SchedKernel.KeyboardKeepsIff`), and runs without such a kill are safe
  (`SchedKernel.KernelRunKeeps`). Otherwise the woken process blocks itself on its ready queue
  (`SchedKernel.WokenWaiterBreaksQueues`, and `SchedRuns.KernelCanBreakQueues` as a run from the initial table). A kill can
  wake such a process through an entry left on a pipe semaphore: a sleeping reader that another process unblocks may take
  its byte and leave with its entry still recorded (`PipeRuns.StaleEntryWakesOutsider`).
- A process that is killed after being woken in a pipe hands its wake-up on when its descriptors are closed. The hand-off
  is lost exactly when somebody else still needs it and the process has no end of that side left or closes the last one
  counted (`PipeInv.CloseOneKeepsIff`, `PipeInv.FinishKeepsIff`). `PipeRuns.WakeUpCanBeLost` is such a run; it needs a
  `set_fd` that takes the last end from a process inside the pipe, and without that no hand-off is lost
  (`PipeUse.OrderlyIsRun`).
- `mm_free` of the first-fit allocator looks for the predecessor of the first block and finds the last one. The list
  keeps an end exactly when the freed block is not the first of three or more of which the last is free
  (`FreeList.FreeListHeap.Free`); `FreeList.BreaksInThreeCalls` reaches that case from a fresh heap.

## Model

| member | source | states |
|---|---|---|
| `Bits.XorFlips` | Kernel/memory/buddyManager.c:141 | flipping the bit of an aligned offset adds the block size when the offset is aligned to twice that size and subtracts it otherwise |
| `Bits.AlignedIsDivisible` | Kernel/memory/buddyManager.c:135-143 | the recursive notion of alignment is divisibility by the block size |
| `BuddyTheory.BuddyIsNeighbour` | Kernel/memory/buddyManager.c:140-143 | the buddy is the adjacent block of the same order, exactly one of the two is aligned for the parent, and being buddies is mutual |
| `BuddyTheory.Nested` | Kernel/memory/buddyManager.c:73-86 | two aligned blocks are disjoint or one contains the other |
| `BuddyTheory.CoveredRun` | Kernel/memory/buddyManager.c:139-163 | once no two free buddies exist, every aligned run of free bytes lies inside one free block |
| `BuddyTheory.CoalescedUnique` | Kernel/memory/buddyManager.c:139-166 | two fully merged free sets that cover the same bytes are equal |
| `BuddyTheory.FreeSetDetermined` | Kernel/memory/buddyManager.c:127-167 | two heaps of the same size with the same live blocks have the same free blocks, whatever their histories |
| `BuddyTheory.FreeBytes` | Kernel/memory/buddyManager.c:64-167 | a byte is free exactly when it is managed and no live block holds it |
| `BuddyTheory.TilingBytes` | Kernel/memory/buddyManager.c:170-185 | the blocks of a tiling add up to the size of the region |
| `BuddyTheory.HeapBytes` | Kernel/memory/buddyManager.c:170-185 | free and live bytes add up to the managed size |
| `BuddyTheory.TakeKeeps` | Kernel/memory/buddyManager.c:112-113 | taking a free block keeps the tiling, the alignment and the absence of free buddy pairs |
| `BuddyTheory.SplitKeeps` | Kernel/memory/buddyManager.c:115-120 | splitting a block that is being allocated keeps the invariant: its second half has no free buddy |
| `BuddyTheory.MergeKeeps` | Kernel/memory/buddyManager.c:149-160 | merging with a free buddy keeps the invariant |
| `BuddyTheory.ReleaseKeeps` | Kernel/memory/buddyManager.c:165-166 | listing a block keeps the invariant when its buddy is not free |
| `BuddyTheory.CarvedKeeps` | Kernel/memory/buddyManager.c:112-122 | taking a free block and halving it down keeps the invariant and adds exactly its front to the live blocks |
| `BuddyTheory.GivenBackKeeps` | Kernel/memory/buddyManager.c:132-166 | merging upwards and listing keeps the invariant and takes exactly the given block out of the live ones |
| `BuddyTheory.GrowKeeps` | Kernel/memory/buddyManager.c:78-85 | appending a free block at the end of a wholly free heap keeps the invariant unless its order is already present below the maximum |
| `BuddyLists.PushLinked` | Kernel/memory/buddyManager.c:26-36 | the writes of a push turn disjoint doubly linked lists into disjoint doubly linked lists with the block in front |
| `BuddyLists.RemoveLinked` | Kernel/memory/buddyManager.c:38-52 | the writes of a removal unlink exactly one block and leave every other list alone |
| `Buddy.OrderForSize` | Kernel/memory/buddyManager.c:54-61 | the least order whose blocks hold the size, or -1 exactly when the size exceeds the largest block, 2^20 bytes |
| `Buddy.ServeIffBigFreeBlock` | Kernel/memory/buddyManager.c:101-110 | a free aligned run large enough for a request exists exactly when some free block has at least its order |
| `Buddy.BuddyHeap.constructor` | Kernel/memory/buddyManager.c:64-87 | the greedy carve-up establishes the heap invariant with nothing live, leaving out only heapSize mod 32 bytes |
| `Buddy.BuddyHeap.FillOrder` | Kernel/memory/buddyManager.c:76-85 | one round of the carve-up leaves less than one block of the order and no free block of a lower order |
| `Buddy.BuddyHeap.ListPush` | Kernel/memory/buddyManager.c:26-36 | the list of the order gets the block in front, the other lists are unchanged |
| `Buddy.BuddyHeap.ListRemove` | Kernel/memory/buddyManager.c:38-52 | the block leaves its list wherever it stood, order preserved, the other lists unchanged |
| `Buddy.BuddyHeap.FindOrder` | Kernel/memory/buddyManager.c:101-106 | the least order from the requested one up that has a free block, or -1 exactly when there is none |
| `Buddy.BuddyHeap.SplitDown` | Kernel/memory/buddyManager.c:115-120 | the loop performs the specified halving: the live block is cut down to its front and all second halves become free |
| `Buddy.BuddyHeap.Alloc` | Kernel/memory/buddyManager.c:90-124 | NULL exactly for size 0 or when no aligned free run can hold header and payload; otherwise the step of the specification: one new live block of the least sufficient order at the front of a smallest sufficient free block, nothing else changed |
| `Buddy.BuddyHeap.Listed` | Kernel/memory/buddyManager.c:144-162 | walking a free list finds a block exactly when it is free with that order |
| `Buddy.BuddyHeap.MergeOnce` | Kernel/memory/buddyManager.c:140-162 | one round merges exactly when the buddy is free and then yields the parent |
| `Buddy.BuddyHeap.MergeUp` | Kernel/memory/buddyManager.c:137-163 | merging stops at a block without a free buddy, all other live blocks untouched, and listing that block completes the specified release |
| `Buddy.BuddyHeap.Free` | Kernel/memory/buddyManager.c:127-167 | performs the specified release: exactly the given block stops being live and the heap is fully merged again, which determines the free blocks; NULL changes nothing |
| `Buddy.BuddyHeap.ListBytes` | Kernel/memory/buddyManager.c:174-181 | the walk of one list adds up the free blocks of that order |
| `Buddy.BuddyHeap.Info` | Kernel/memory/buddyManager.c:170-185 | free is the sum of the free blocks, used the sum of the live blocks plus heapSize mod 32 |
| `Buddy.StepKeepsHeap` | Kernel/memory/buddyManager.c:90-167 | each allocation, refused request and release keeps tiling, alignment and the absence of free buddy pairs |
| `Buddy.RunKeepsHeap` | Kernel/memory/buddyManager.c:64-167 | so the invariant holds in every state of every run of such calls that starts in a state satisfying it |
| `Buddy.AllFreedRestoresInitial` | Kernel/memory/buddyManager.c:64-167 | over any run of allocations and releases that starts and ends with nothing live the heap at the end is the one at the start |
| `Buddy.PayloadsApart` | Kernel/memory/buddyManager.c:122-123 | payload bytes of a live block are managed, not free and in no other live block |
| `Buddy.AllocThenFree` | Kernel/memory/buddyManager.c:90-167 | allocating and freeing leaves the heap as it was |
| `FreeListSpec.RoundUp` | Kernel/memory/memManager.c:36-37 | a multiple of 8 that is at least the request exactly when the request is at most 2^64 - 8, and 0 otherwise |
| `FreeListSpec.FirstFit` | Kernel/memory/memManager.c:41-66 | the first free block large enough, none before it being so |
| `FreeListSpec.TakeKeeps` | Kernel/memory/memManager.c:44-62 | allocation keeps the exact tiling and leaves no two neighbouring free blocks |
| `FreeListSpec.FreeKeeps` | Kernel/memory/memManager.c:92-107 | freeing with both merges keeps the exact tiling and leaves no two neighbouring free blocks |
| `FreeListSpec.TakeServes` | Kernel/memory/memManager.c:44-62 | exactly one block becomes used, at the front of the chosen one: with the rounded size and a new free block behind it when at least 32 bytes more are there, the whole block otherwise; all other used blocks keep place and size |
| `FreeListSpec.FreeReleases` | Kernel/memory/memManager.c:86-107 | exactly the freed block stops being used, all other used blocks keep place and size |
| `FreeListSpec.TakeThenFree` | Kernel/memory/memManager.c:31-108 | merging undoes splitting: freeing what was just allocated restores the row of blocks |
| `FreeListSpec.TakeRoomyIff` | Kernel/memory/memManager.c:36-53 | allocation leaves every block with at least 8 payload bytes exactly when the rounding did not wrap around or the block was not split |
| `FreeListSpec.RunGood` | Kernel/memory/memManager.c:19-108 | on every run from a fresh heap of at least 32 bytes whose roundings do not wrap around the blocks tile the heap, no two free ones are neighbours, each has at least 8 payload bytes and all payloads are aligned to 8 |
| `FreeListSpec.UsedTake` | Kernel/memory/memManager.c:111-127 | allocation adds the payload of the new block to the bytes in use |
| `FreeListSpec.UsedFree` | Kernel/memory/memManager.c:111-127 | release takes the payload of the block out of them |
| `FreeListSpec.RunInOneBlock` | Kernel/memory/memManager.c:94-107 | every run of free bytes lies in one free block |
| `FreeListSpec.FitIffRoom` | Kernel/memory/memManager.c:39-69 | first fit succeeds exactly when some contiguous run of free bytes holds a header and the rounded size |
| `FreeListSpec.PayloadsApart` | Kernel/memory/memManager.c:44-62 | payloads of different blocks do not overlap and lie in the heap |
| `FreeListSpec.BytesAddUp` | Kernel/memory/memManager.c:111-127 | used and free payload and one header per block add up to the bytes they span |
| `FreeListSpec.AllFreedIsWhole` | Kernel/memory/memManager.c:73-108 | when every block is free the heap is one block again, as after initialization |
| `FreeList.FreeListHeap.constructor` | Kernel/memory/memManager.c:19-28 | one free block spans the heap |
| `FreeList.FreeListHeap.Alloc` | Kernel/memory/memManager.c:31-70 | NULL exactly for size 0 or when no free run is long enough; otherwise the first fitting block is taken, split exactly when it has at least 32 bytes more than the rounded request, and its payload address returned |
| `FreeList.FreeListHeap.LastBefore` | Kernel/memory/memManager.c:100-103 | the walk ends at the predecessor or, for the first block, at the last block |
| `FreeList.FreeListHeap.Free` | Kernel/memory/memManager.c:73-108 | a null or foreign pointer or a free block changes nothing; otherwise the block is released and merged, except when it is the first of three or more blocks with a free last one, and then no walk of the list ever ends |
| `FreeList.FreeListHeap.Info` | Kernel/memory/memManager.c:111-127 | used and free are the payload sums, and with 24 bytes per block they make up the total |
| `FreeList.LinkedWalks` | Kernel/memory/memManager.c:116-126 | a well-linked list is walked to its end, block by block in address order |
| `FreeList.LoopNeverEnds` | Kernel/memory/memManager.c:104-107 | linking the last block back to the second one leaves a list that no walk completes |
| `FreeList.BreaksInThreeCalls` | Kernel/memory/memManager.c:100-107 | on every heap with room for three minimal blocks, two minimal allocations lead to the state where freeing the first block breaks the list |
| `SchedSpec.Level` | Kernel/scheduler.c:108-122 | a valid queue index for every priority, the priority minus one when it is in range |
| `SchedInv.MakeReadyKeeps` | Kernel/scheduler.c:249-273 | making any slot ready keeps the scheduler invariant and puts a loose slot back on its queue, or takes a blocked one off a queue it was left on |
| `SchedInv.AgeFromKeeps` | Kernel/scheduler.c:215-233 | the aging pass keeps the invariant |
| `SchedInv.CreateKeeps` | Kernel/scheduler.c:350-400 | creation keeps the invariant: distinct pids, process counter and distinct stacks included |
| `SchedInv.KillKeeps` | Kernel/scheduler.c:402-447 | killing keeps the invariant, for the current process as for any other |
| `SchedInv.ExitKeeps` | Kernel/scheduler.c:615-645 | exiting keeps the invariant |
| `SchedInv.BlockKeeps` | Kernel/scheduler.c:469-482 | blocking keeps the invariant |
| `SchedInv.UnblockKeeps` | Kernel/scheduler.c:484-491 | unblocking keeps the invariant and every pid |
| `SchedInv.NiceKeeps` | Kernel/scheduler.c:493-526 | a change of priority keeps the invariant |
| `SchedInv.YieldKeeps` | Kernel/scheduler.c:685-691 | yielding keeps the invariant |
| `SchedInv.WaitKeeps` | Kernel/scheduler.c:585-613 | waiting keeps the invariant; at worst it leaves its blocked caller on a queue |
| `SchedInv.WaitKeepsIff` | Kernel/scheduler.c:585-613 | waiting keeps blocked processes off the queues exactly when it does not block a caller that is queued |
| `SchedRuns.WaitCanBreakQueues` | Kernel/scheduler.c:604-608 | a run of scheduler operations from the initial table whose last one, a wait, leaves a blocked process on a ready queue |
| `SchedKernel.NoQueuedWait` | Kernel/syscalls_kernel.c:346-358 | in a state of the kernel's invariant neither the first nor a repeated `scheduler_wait` of `syscall_wait` blocks a queued caller |
| `SchedKernel.KeyboardKeepsIff` | Kernel/scheduler.c:449-459 | a kill from the keyboard interrupt keeps that invariant exactly when it does not wake a current process in the wait loop whose child lives on |
| `SchedKernel.WokenWaiterBreaksQueues` | Kernel/syscalls_kernel.c:346-358 | when it does wake one, the loop of that process can go on, and its repeated `scheduler_wait` then blocks it on its ready queue |
| `SchedKernel.KernelRunKeeps` | Kernel/asm/interrupts.asm:221-250 | in every run of system calls with their final reschedule, timer ticks and keyboard kills the queues hold exactly the ready processes in every state up to the first kill that wakes such a process |
| `SchedRuns.KernelCanBreakQueues` | Kernel/syscalls_kernel.c:346-358 | a run of the kernel from the initial table in which such a kill leaves a blocked process on a ready queue |
| `SchedKernel.ReturnIs` | Kernel/asm/interrupts.asm:221-250 | a system call returns to its caller exactly when no reschedule is requested, the caller still runs with quantum left and no ready process outranks it, and ends in a tick otherwise |
| `SchedKernel.YieldGivesWay` | Kernel/scheduler.c:685-691 | a yield ends in a tick, which dispatches somebody else if another ready process has at least the caller's priority |
| `SchedInv.ChildIsYounger` | Kernel/scheduler.c:366-367 | a process that can be waited for has a larger pid than its parent, so no process waits for itself |
| `SchedInv.NeverStays` | Kernel/scheduler.c:647-656 | with a quantum of 1 the early return of the tick is unreachable |
| `SchedInv.NextFacts` | Kernel/scheduler.c:186-247 | the slot taken next is the head of the highest non-empty queue and no ready slot has a higher effective priority; it is ready unless the queues have a stale entry, and idle only when nothing is ready |
| `SchedInv.SwitchIsDrop` | Kernel/scheduler.c:235-247 | popping the head of the highest queue is removing that slot like any other and resetting it to its base priority |
| `SchedInv.TickFacts` | Kernel/scheduler.c:647-673 | every tick keeps the invariant and runs the head of the highest queue as the aging pass left it |
| `SchedInv.InitialInv` | Kernel/scheduler.c:317-348 | the initial table satisfies the invariant |
| `SchedInv.StepKeeps` | Kernel/scheduler.c:350-691 | every step keeps the invariant: each ready slot exactly once, in the queue of its effective priority; 1 <= priority <= effective <= 5; at most the current slot running; live pids distinct; counter equal to live slots; stacks obtained equal stacks freed plus stacks owned, none owned twice; a blocked entry appears on a queue only by the wait of a queued caller |
| `SchedInv.RunKeeps` | Kernel/scheduler.c:350-691 | the invariant, blocked queue entries aside, holds in every state of every run |
| `SchedInv.CleanRunKeeps` | Kernel/scheduler.c:350-691 | on runs without such a wait the queues hold exactly the ready slots |
| `SchedInv.StacksAreDistinct` | Kernel/scheduler.c:350-447 | in every state of every run live processes own different stacks, and a block was freed as often as obtained, less one while owned |
| `SchedFair.OthersCannotDelay` | Kernel/scheduler.c:350-691 | no step of other processes between ticks moves a ready process back in its queue or costs it aging credit |
| `SchedFair.TickProgress` | Kernel/scheduler.c:215-273 | a tick dispatches a given ready process or strictly decreases its distance to dispatch |
| `SchedFair.WaitingProgress` | Kernel/scheduler.c:647-673 | over any run the distance falls by at least one per tick until dispatch |
| `SchedFair.BoundedWaiting` | Kernel/scheduler.c:215-273 | a ready process that is not killed, blocked or reniced is dispatched within 6 * (5 - p) + table size - 1 ticks of any run |
| `SchedTick.TickEffect` | Kernel/scheduler.c:647-673 | a tick dispatches the first process of highest effective priority after aging, or idle if nobody competes; the preempted process is ready at its base priority; whoever is passed over has one wait tick more or, after the sixth below priority 5, one priority more; everybody else is unchanged; each queue holds its old members in order, then the preempted process, then the promoted ones by slot |
| `SchedTick.TickSparesTheRest` | Kernel/scheduler.c:647-673 | a tick leaves blocked, zombie and dead slots untouched and makes no other slot so |
| `SchedTick.PreemptedGoesBack` | Kernel/scheduler.c:655-661 | a running process that is not dispatched again is ready at its base priority with one wait tick, and behind it in its queue are only those promoted in the same pass |
| `SchedTick.RoundRobin` | Kernel/scheduler.c:655-673 | a running process is not dispatched again while another ready one has at least its base priority |
| `SchedTick.ServedAgain` | Kernel/scheduler.c:215-273 | a running process that is left alone is dispatched again within 6 * (5 - p) + table size - 1 ticks of any run |
| `SchedEffect.UnblockWakes` | Kernel/scheduler.c:484-491 | exactly the blocked process with the pid becomes ready, at its base priority, without wait ticks, with a fresh quantum, at the tail of its queue; unless the current process is itself blocked, a reschedule is requested exactly when the woken one outranks it |
| `SchedEffect.BlockEffect` | Kernel/scheduler.c:469-482 | the process is blocked and off its queue, the order of the others unchanged; the current one loses its quantum and asks for a reschedule |
| `SchedEffect.NiceEffect` | Kernel/scheduler.c:493-526 | the process has the new priority as base and effective priority at once, at the tail of its new queue if it was queued; a reschedule is requested exactly for the current process or when the new priority outranks it |
| `SchedEffect.CreateEffect` | Kernel/scheduler.c:350-400 | the first free slot gets a ready child of the caller with the requested priority, or 3 when that is out of range, at the tail of its queue; nothing else changes but the counters |
| `SchedEffect.KillEffect` | Kernel/scheduler.c:402-447 | the victim's slot is free and its stack given back; blocked processes that its descriptors concern or that wait for it become ready, behind those already queued; everybody else is unchanged |
| `SchedEffect.KillOtherwise` | Kernel/scheduler.c:402-413 | pids up to 1 and unknown ones are refused; a process that kills itself exits with -1 |
| `SchedEffect.ExitEffect` | Kernel/scheduler.c:615-645 | the current process is a zombie with the given status, off the queues; the same processes are woken as by a kill and everybody else is unchanged |
| `SchedEffect.WaitEffect` | Kernel/scheduler.c:585-613 | waiting for somebody else's child returns -1 and changes nothing, for a living child -2 and blocks the caller, for a zombie its status and frees the slot |
| `SchedStatus.StepCarries` | Kernel/scheduler.c:350-691 | every step keeps pid and exit status of every process it does not end or remove, and new processes get new pids |
| `SchedStatus.StatusDelivered` | Kernel/scheduler.c:585-645 | on every run a wait that collects a status returns what the process last exited with, or -1 if it was killed while current |
| `SchedWait.WaitForAcyclic` | Kernel/scheduler.c:585-613 | no chain of processes waiting for one another closes |
| `SchedWait.StepNoLoss` | Kernel/scheduler.c:585-645 | a process blocked on a child has a child that is neither zombie nor dead, kept by every disciplined step, the exit of a current zombie included |
| `SchedWait.RunNoLoss` | Kernel/scheduler.c:585-645 | on disciplined runs no exit is ever lost |
| `SchedWait.ReapedIsGone` | Kernel/scheduler.c:552-583 | a pid whose status was collected can neither be waited for nor reaped |
| `SchedWait.StatusCollectedOnce` | Kernel/syscalls_kernel.c:346-358 | no two waits in a run collect the status of the same process |
| `SchedLinks.ThreadsEnqueue` | Kernel/scheduler.c:131-148 | the writes of an enqueue append the slot to exactly one queue |
| `SchedLinks.ThreadsRemove` | Kernel/scheduler.c:150-184 | the writes of a removal take the slot out of the middle, front or back of its queue and touch no other |
| `Scheduler.ProcessTable.constructor` | Kernel/scheduler.c:317-348 | empty queues, every slot dead but the idle process |
| `Scheduler.ProcessTable.EnqueueReady` | Kernel/scheduler.c:131-148 | appends a slot above 0 to the queue of its effective priority unless it is queued |
| `Scheduler.ProcessTable.Predecessor` | Kernel/scheduler.c:155-184 | the removal loop always finds the slot, so the code after the loop (lines 182-183) is unreachable |
| `Scheduler.ProcessTable.RemoveReady` | Kernel/scheduler.c:150-184 | removes a slot from its queue, the order of the others unchanged |
| `Scheduler.ProcessTable.DequeueReady` | Kernel/scheduler.c:186-203 | pops the head of a priority's queue, or reports that it is empty |
| `Scheduler.ProcessTable.HighestReady` | Kernel/scheduler.c:205-213 | the highest priority with a non-empty queue, or 0 |
| `Scheduler.ProcessTable.AgeReady` | Kernel/scheduler.c:215-233 | the in-place pass computes the specified aging of every queued slot |
| `Scheduler.ProcessTable.DequeueNext` | Kernel/scheduler.c:235-247 | ages, then takes the head of the highest queue, or idle |
| `Scheduler.ProcessTable.MakeReady` | Kernel/scheduler.c:249-273 | requeues at base priority with a fresh quantum and asks for a reschedule when it outranks the current process |
| `Scheduler.ProcessTable.FindIndex` | Kernel/scheduler.c:98-106 | the first slot with the pid that is not dead, or -1 |
| `Scheduler.ProcessTable.FindFreeSlot` | Kernel/scheduler.c:89-96 | the first dead slot above 0, or -1 |
| `Scheduler.ProcessTable.Create` | Kernel/scheduler.c:350-400 | creates a ready child of the caller, or returns -1 and changes nothing without a slot or a stack; table stays consistent |
| `Scheduler.ProcessTable.KillPid` | Kernel/scheduler.c:402-447 | refuses pids up to 1 and unknown ones; otherwise the process is gone, its stack freed once and its waiters woken; table stays consistent |
| `Scheduler.ProcessTable.BlockPid` | Kernel/scheduler.c:469-482 | the process is blocked and off its queue; table stays consistent |
| `Scheduler.ProcessTable.UnblockPid` | Kernel/scheduler.c:484-491 | a blocked process with the pid becomes ready, any other is left alone |
| `Scheduler.ProcessTable.SetPriority` | Kernel/scheduler.c:493-526 | refuses priorities out of range and unknown pids; otherwise the new base priority takes effect at the tail of the new queue; table stays consistent |
| `Scheduler.ProcessTable.Reap` | Kernel/scheduler.c:552-583 | clears the slot, returns its stack and counts the process out |
| `Scheduler.ProcessTable.WaitPid` | Kernel/scheduler.c:585-613 | returns the status of a finished child, blocks for a living one, -1 otherwise; the table stays consistent, and free of stale queue entries exactly when a blocked caller was not queued |
| `Scheduler.ProcessTable.WakeAll` | Kernel/scheduler.c:433-439 | exactly the blocked processes that wait for the pid become ready |
| `Scheduler.ProcessTable.ExitCurrent` | Kernel/scheduler.c:615-645 | the current process becomes a zombie with its status, off the queues, its waiters woken; table stays consistent |
| `Scheduler.ProcessTable.Tick` | Kernel/scheduler.c:647-673 | the in-place tick computes the specified charge, preemption, aging and switch |
| `Scheduler.ProcessTable.TimerTick` | Kernel/scheduler.c:647-673 | from a consistent table a tick leaves a consistent table whose current slot is running; if the queues held ready processes only, dispatch, preemption, aging and order are as `SchedTick.TickEffect` says |
| `Scheduler.ProcessTable.YieldCurrent` | Kernel/scheduler.c:685-691 | gives up the quantum and asks for a reschedule; table stays consistent |
| `Scheduler.VictimStaysOff` | Kernel/scheduler.c:414-417 | closing the descriptors of a killed process does not requeue it |
| `SemSpec.BestIsBest` | Kernel/semaphore.c:147-158 | the scan selects the first blocked waiter of maximal priority plus credit, or nobody exactly when none is blocked |
| `SemSpec.PostKeeps` | Kernel/semaphore.c:72-83 | a post keeps recorded waiters within the debt, distinct, with credits in 0..5 falling along the queue |
| `SemSpec.WaitKeeps` | Kernel/semaphore.c:113-143 | so does a wait, refused or not |
| `SemSpec.RemoveKeeps` | Kernel/semaphore.c:184-209 | so does taking a killed process off the queue, after which it is not recorded |
| `SemSpec.EveryRunKeeps` | Kernel/semaphore.c:72-209 | the semaphore invariant holds over every run, with processes blocked, unblocked and killed from outside at will |
| `SemSpec.PostNeverSkips` | Kernel/semaphore.c:72-83 | while somebody is recorded the counter is negative and a post shortens the queue |
| `SemSpec.PostWakes` | Kernel/semaphore.c:145-182 | with a blocked waiter recorded a post wakes the best one only, and every other waiter of credit c has credit min(c + 1, 5) afterwards, in the same order |
| `SemSpec.NobodySleeps` | Kernel/semaphore.c:160-163 | when no recorded waiter is blocked all are forgotten and nobody is woken |
| `SemSpec.WaitOutcomes` | Kernel/semaphore.c:113-143 | a wait passes exactly on a positive counter; otherwise the caller is recorded last without credit and blocked, or, when the others fill the array, refused with the counter restored |
| `SemSpec.CreditCountsPosts` | Kernel/semaphore.c:134-182 | on every run, with processes blocked, unblocked and killed from outside at will, the credit of a recorded waiter is min(5, posts since it was recorded), and each of these posts woke somebody else |
| `SemSpec.OvertakingNeedsPriority` | Kernel/semaphore.c:145-182 | a waiter is woken before an earlier blocked one only with strictly higher current priority |
| `SemSpec.PostAllResult` | Kernel/semaphore.c:85-99 | waking everybody ends with an empty queue and the counter at max(0, old) |
| `SemSpec.ExactPost` | Kernel/semaphore.c:72-83 | a post keeps "as many blocked recorded waiters as debt" and wakes the best of them if there is one |
| `SemSpec.ExactWait` | Kernel/semaphore.c:113-143 | so does a wait, which passes exactly when the counter was positive |
| `SemSpec.ExactPostAll` | Kernel/semaphore.c:85-99 | sem_post_all wakes exactly the recorded waiters |
| `SemSpec.ExactRemove` | Kernel/semaphore.c:184-191 | taking a process off repays its share of the debt and affects no other waiter |
| `SemSpec.CompletedWaits` | Kernel/semaphore.c:72-191 | over every run of waits, posts and removals of killed processes the waits that are over, those of processes killed in their sleep aside, never exceed the initial value plus the posts, with equality while the counter is not positive, whatever happens in between to processes that are not recorded |
| `Semaphore.KernelSemaphore.constructor` | Kernel/semaphore.c:26-34 | a fresh semaphore has its initial value and nobody waiting |
| `Semaphore.KernelSemaphore.DequeueAt` | Kernel/semaphore.c:102-110 | shifting both arrays removes exactly one waiter and returns its pid |
| `Semaphore.KernelSemaphore.RemoveWaiting` | Kernel/semaphore.c:193-209 | in-place compaction drops the entries of the pid, keeps the order of the rest and counts what it dropped |
| `Semaphore.KernelSemaphore.Record` | Kernel/semaphore.c:134-143 | the pid ends up recorded once, last and without credit, unless the array is full |
| `Semaphore.KernelSemaphore.Select` | Kernel/semaphore.c:147-158 | the loop computes the specified best waiter |
| `Semaphore.KernelSemaphore.AgeWaiters` | Kernel/semaphore.c:176-182 | every waiter but the selected one gains a credit unless it has 5 |
| `Semaphore.KernelSemaphore.UnblockWaiter` | Kernel/semaphore.c:145-174 | the loop terminates: it drops stale waiters until it wakes one or the queue is empty |
| `Semaphore.KernelSemaphore.SemPost` | Kernel/semaphore.c:72-83 | refines the specified post |
| `Semaphore.KernelSemaphore.SemPostAll` | Kernel/semaphore.c:85-99 | refines the specified wake-up of everybody |
| `Semaphore.KernelSemaphore.SemWait` | Kernel/semaphore.c:113-131 | refines the specified wait; when the array is full the counter is restored |
| `Semaphore.KernelSemaphore.SemRemovePid` | Kernel/semaphore.c:184-191 | the counter grows by the entries removed |
| `Semaphore.KernelSemaphore.Retire` | Kernel/semaphore.c:58-69 | the last close forgets the waiters |
| `Mutex.ActKeeps` | Userland/SampleCodeModule/tests/test_sync.c:46-57 | every action of every client, and blocking, unblocking, renicing or killing a client, keeps: one holder at most, none when the semaphore is free, and a counter equal to what has been added |
| `Mutex.KillLock` | Kernel/semaphore.c:184-191 | killing a waiter repays its debt and lets nobody in; killing the holder leaves the semaphore taken |
| `Mutex.MutualExclusion` | Userland/SampleCodeModule/tests/test_sync.c:46-52 | in every state of every interleaving, kills included, at most one client is between wait and post, and what it read is still current when it writes |
| `Mutex.NoUpdateLost` | Userland/SampleCodeModule/tests/test_sync.c:14-20 | when all clients are done the shared counter is the sum of all increments |
| `Mutex.FinalValueZero` | Userland/SampleCodeModule/tests/test_sync.c:60-84 | with as many decrementing as incrementing clients the final value is 0 |
| `PipeInv.TurnKeeps` | Kernel/pipe.c:112-134 | one round of read, and symmetrically of write, keeps the pipe invariant whether it sleeps, leaves or moves a byte |
| `PipeInv.CloseKeeps` | Kernel/pipe.c:177-221 | closing an end keeps the invariant: a consumed wake-up is handed on, the other side is woken when the last end goes, and the slot is freed exactly when no end is left |
| `PipeInv.SetFdKeeps` | Kernel/syscalls_kernel.c:327-344 | attaching and replacing a descriptor keeps the pipe invariant, whatever its process is doing in the pipe |
| `PipeInv.RedirectKeeps` | Kernel/syscalls_kernel.c:335-342 | so does pointing a descriptor of this pipe to another one |
| `PipeInv.BeginKillKeeps` | Kernel/scheduler.c:414-417 | taking a killed process off the semaphores keeps the invariant; a wake-up it had consumed is still owed |
| `PipeInv.CloseOneKeepsIff` | Kernel/scheduler.c:304-315 | closing one of its descriptors keeps the invariant exactly when the wake-up it owes on that side is handed on to another end or not needed by anybody |
| `PipeInv.FinishKeepsIff` | Kernel/scheduler.c:414-431 | its end keeps the invariant exactly when nobody needs a wake-up it still owes |
| `PipeInv.StepKeeps` | Kernel/pipe.c:49-221 | every disciplined step of the protocol keeps the invariant, with that condition on the steps of a teardown |
| `PipeInv.RunKeeps` | Kernel/pipe.c:49-221 | the invariant holds in every state of every run of such steps |
| `PipeInv.SleeperWillBeWoken` | Kernel/pipe.c:112-134 | while a process is recorded on a semaphore of the pipe it sleeps there, the other side exists, and the bytes (or the space) it waits for are at most as many as the processes woken and not yet run again, even if others block and unblock those meanwhile |
| `PipeInv.NoDeadlock` | Kernel/pipe.c:104-174 | a reader and a writer never both wait without a wake-up under way |
| `PipeUse.OrderlySettles` | Kernel/scheduler.c:304-315 | if every process inside the pipe or owing a wake-up holds an end of its side, every wake-up owed is handed on or not needed |
| `PipeUse.OrderlyKeeps` | Kernel/syscalls_kernel.c:327-344 | both that and the pipe invariant hold in every state of every disciplined run in which no `set_fd` takes from a process inside the pipe the last end it uses |
| `PipeUse.OrderlyIsRun` | Kernel/pipe.c:49-221 | so on those runs the results above hold without a condition on teardowns |
| `PipeRuns.WakeUpCanBeLost` | Kernel/pipe.c:177-221 | a run in which a woken reader without an end is killed and another reader sleeps on with a byte in the ring and no wake-up under way |
| `PipeRuns.StaleEntryWakesOutsider` | Kernel/pipe.c:188-194 | a run in which a reader that another process unblocked has left the pipe but not the semaphore, and closing the last write end wakes it where it sleeps next |
| `PipeFlow.StepFifo` | Kernel/pipe.c:104-221 | every step, disciplined or not, keeps bytes written equal to bytes read followed by the ring |
| `PipeFlow.PipeIsFifo` | Kernel/pipe.c:104-174 | on every run the bytes written are the bytes read followed by the ring contents, which never exceed the capacity |
| `PipeFlow.StepEnds` | Kernel/pipe.c:75-97 | every step, disciplined or not, keeps the ends accounted for, if an explicit close drops an unclaimed reservation |
| `PipeFlow.EndsAreAccounted` | Kernel/pipe.c:177-221 | on every run with such closes readers and writers equal reservations plus open descriptors, and the slot is open exactly while there is a reservation or a descriptor |
| `PipeFlow.UnclaimedKeepsBytes` | Kernel/pipe.c:54-69 | over any stretch of a run in which the reader's end stays reserved the slot stays open and bytes are only added, if nobody was inside `pipe_read` when it began |
| `PipeFlow.BytesSurvive` | Kernel/pipe.c:54-69 | on orderly runs nobody is, so what was written before the reader attaches is all there when it does |
| `PipeRuns.OldReaderCanSteal` | Kernel/pipe.c:104-134 | a run in which a reader whose end was taken away outlives the slot and reads a byte of the pipe opened there next while that pipe's reading end is still reserved |
| `PipeSpec.SleepOnIs` | Kernel/pipe.c:115-120 | the wait inside a round uses up left-over events and then records the caller last and puts it to sleep, unless the other waiters leave no place |
| `PipeTurn.ReaderTurn` | Kernel/pipe.c:112-134 | a reader takes the oldest byte; from an empty pipe it waits while there are writers and leaves, everything unchanged, when there are none |
| `PipeTurn.WriterTurn` | Kernel/pipe.c:149-171 | without readers a writer leaves, everything unchanged; with room its byte goes behind the others; otherwise it waits |
| `PipeTurn.BytesNeedReaders` | Kernel/pipe.c:154-166 | on every run a step of an open pipe accepts a byte exactly when a writer takes its turn with a reader counted and room left; without readers the ring does not grow |
| `PipeTurn.TurnWakes` | Kernel/pipe.c:112-171 | a byte that moves wakes the best waiter of the other side and nobody else; a turn that moves none wakes nobody |
| `PipeTurn.CloseWakes` | Kernel/pipe.c:185-210 | closing the last end of a side wakes all waiters of the other side; closing another end wakes the best waiter of its own side if there are bytes or space for it, and nobody otherwise |
| `Pipe.RingBuffer.Take` | Kernel/pipe.c:127-129 | the circular buffer gives its oldest byte and keeps the rest in order |
| `Pipe.RingBuffer.Put` | Kernel/pipe.c:164-166 | the circular buffer appends a byte |
| `Pipe.KernelPipe.OpenSlot` | Kernel/pipe.c:49-73 | refuses capacities outside 1..buffer size; otherwise an empty pipe of that capacity with one reserved end on each side |
| `Pipe.KernelPipe.AttachEnd` | Kernel/pipe.c:75-97 | claims the reserved end or adds one, and refuses a closed pipe |
| `Pipe.KernelPipe.ReadRound` | Kernel/pipe.c:112-134 | the code of one round refines the read step of the protocol; it returns the oldest byte if there is one, reports sleep exactly when there are writers and a place to wait, and the end of the pipe otherwise |
| `Pipe.KernelPipe.WriteRound` | Kernel/pipe.c:149-171 | the code of one round refines the write step of the protocol; without readers it reports the end of the pipe, with room it stores the byte, and otherwise it sleeps if there is a place to wait |
| `Pipe.KernelPipe.CloseEnd` | Kernel/pipe.c:177-221 | refines the close step of the protocol |
| `Pipe.WaitUntilAsleep` | Kernel/pipe.c:115-120 | left-over events are consumed one by one until the caller sleeps or is refused |

## Left out

- Hardware and boot: bootloader, BMFS, interrupt tables, video, audio, clock, keyboard, and the initial stack and register frames of a process.
- Foreground ownership, process names and `scheduler_list`: they do not influence scheduling.
- The shell, the C library and the remaining system calls: they add easy members only.
- Semaphore names and the semaphore and pipe tables: one semaphore and one pipe slot are modelled, the other slots being part of the environment; user semaphores named like a pipe's are assumed not to occur.
- Starvation freedom of semaphore waiters does not hold, since credit stops at 5; the overtaking rule is proved instead.
- Payload bytes of the heaps: only headers and links are modelled, headers as maps from offsets, so reads of stale header bytes inside payloads do not occur.
- Wrap-around of `next_pid`, semaphore counters and tick counters: mathematical integers are used.
- Buddy.BuddyHeap.Alloc: requires size + 8 <= 2^63, because beyond that the shift in `order_for_size` leaves the 64-bit word.
- Buddy.BuddyHeap.Free: requires NULL or the payload pointer of a live block, as the code trusts the header it finds.
- FreeListSpec.RunGood: requests up to 2^64 - 8 bytes; `TakeRoomyIff` says exactly when a larger one, which is rounded to 0, leaves a block without payload.
- FreeList.FreeListHeap.Free: inside the heap requires a block's payload pointer, as the code trusts the header it finds.
- Scheduler.ProcessTable.KillPid: the processes that closing the victim's descriptors wakes are a parameter, which excludes a victim other than the caller because it has been taken off all semaphores before (lines 414-417).
- Scheduler.ProcessTable.ExitCurrent: the processes woken by closing descriptors are a parameter here too.
- Scheduler.ProcessTable.Create: the block obtained for the stack is a parameter, one that no process owns.
- SchedWait.RunNoLoss: for disciplined runs only, in which nobody unblocks a process that waits for a child except the end of that child, the current process is not blocked when it exits or is killed, and it is not queued when it falls asleep waiting.
- SchedKernel.KernelRunKeeps: disciplined runs, without a kill from the keyboard that wakes a current process in its wait loop whose child lives on; beyond such a kill the property is false.
- SchedKernel.KernelRunKeeps: a system call, and each pass through a sleeping loop, is one step. In the code `pipe_close` enables interrupts before it returns (Kernel/pipe.c:219), so an interrupt can come in the middle of a kill, an exit or a `set_fd`; and after the first `_hlt` the repeated `scheduler_wait` of `syscall_wait` runs with interrupts enabled, so that a keyboard kill of the child between its search and its block is an exit the parent never learns of.
- Mutex.MutualExclusion: nobody blocks or unblocks a client while it waits on the semaphore, a client killed while current is not waiting, and the waiting array has room for all clients.
- Mutex.NoUpdateLost: speaks of runs at whose end every client has finished, which a client killed earlier has not.
- PipeInv.RunKeeps: disciplined runs, in which explicit closes drop unclaimed reservations only, nobody else blocks or unblocks a process recorded on a semaphore of the pipe, and dying processes lose no wake-up in the sense of `CloseOneKeepsIff` and `FinishKeepsIff`. Processes do not outnumber the waiting slots; the kernel has 64 of each. `set_fd` is one step.
- PipeInv.BeginKillKeeps: a process killed while current is running, so that it is on no semaphore although `scheduler_exit_current` does not look. The time in which a current victim runs on inside `pipe_read` or `pipe_write` until the next tick, because the keyboard interrupt does not reschedule, is not modelled.

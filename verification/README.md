# Horizon OS kernel: models and proofs

Dafny models of the stateful cores of the Horizon OS kernel, with proofs of what they promise.

- **Threads** (`ThreadMachine`, `ThreadInvariant`, `ThreadFrames`, `ThreadSafety`, `ThreadTheorems`, `ThreadRaces`,
  `ThreadQueues`, `ThreadProgress`, `ThreadLife`): the life cycle of threads and the blocking, waking and switching protocol, as a step
  relation over any number of CPUs, threads and wait queues. One step is one critical section or one group of per-CPU writes; clearing on_cpu and the
  try that follows are two steps, and so are a waker's test of on_cpu and its try. A step yields the next state, is
  `Stuck` when it is not enabled, or is a `Panic` when one of the kernel's assertions fails. The inductive invariant
  is free of existential quantifiers: two witness maps beside the state say which CPU last held a thread and which
  one is charged with trying it. It holds at every index of every run from the booted state, up to the first try that
  comes too late; that is also exactly how far exclusion holds.
- **Clients of the wait queue** (`Completion`, `RwLock`): the counting completion and the reader/writer lock, each as
  a step relation at lock granularity with its own invariant, over `Counting`.
- **Clients on threads** (`ThreadClients`, `CompletionThreads`, `RwLockThreads`): the same two run by the threads of the
  thread machine, with its wait queues, early wake-ups, preemption and switches. Every run of client and machine together
  is a run of the client at lock granularity, so what is proved there holds over the real protocol.
- **Interrupts** (`Interrupts`): hardirq and softirq nesting on one CPU, with a stack of interrupted contexts per
  thread, interrupts arriving whenever they are enabled, and thread switches at the preemption point.
- **Bitmap allocator** (`Words`, `Extents`, `Bitmap`): the two word arrays represent a set of disjoint extents, and the
  masked word loops are proved against that set.
- **Block I/O** (`StorageSplit`, `StorageMerge`, `StorageCopy`, `StorageQueue`, `StorageTransfer`): splitting a transfer,
  merging queued requests, copying in and out of merged buffers and the sorted queue, up to the meaning of the merged
  transfers for each byte of the device. Positions are 64 bits and counts 32 bits wide.
- **Slab** (`Slab`, `SlabSizes`): the free list threaded through the free objects of a slab in memory, and the choice of
  alignment, order and object count.
- **AML namespace** (`AmlNames`, `Namespace`, `NamespacePaths`): name strings, their bytecode, and the tree with its
  upward search, told also by the paths that the parent links spell.
- **Numbers** (`Number`): the number printer and parser of `vsprintf`.
- **PCM** (`Pcm`): conversion between interleaved and planar sample buffers.

`Base` and `Arith` hold shared definitions and arithmetic facts.

Where a property the code suggests does not hold, there is a member with a concrete input and a lemma with the exact
condition:

- Exclusion. Between clearing on_cpu and trying the thread, or between a waker's test of on_cpu and its try, the thread
  can be queued, run, blocked and woken again elsewhere; the late try then queues it while another CPU is on its
  stack (`ThreadRaces.LateRelease`, `ThreadRaces.LateWaker`). Exclusion holds along a run exactly if every try finds
  its thread no longer Waking or finds its on_cpu clear (`ThreadTheorems.ExclusiveIff`).
- Merging a request that starts before an already merged one computes the old end from the moved position, and the
  limit test and the count are 32 bits wide, so a merged range can lose blocks (`StorageMerge.LaterMergeUnion`,
  `StorageMerge.FirstMergeUnion`, `StorageMerge.LeftExtensionLoses`, `StorageMerge.WideMergeLoses`).
- The buffer of a merged range and the offsets into it are computed in 32 bits, so the buffer holds its members exactly
  if the bytes of the range are below 4 GiB (`StorageCopy.BufferFits`, `StorageCopy.OffsetExact`,
  `StorageCopy.WideBufferWraps`).
- Splitting uses 32-bit counters (`StorageSplit.SplitExact`, `StorageSplit.SplitWraps`); the bitmap's word count is cut
  to 16 bits (`BitmapAllocator.TryNew`, `BitmapAllocator.WordCountCut`).
- The bitmap scan steps by whole requests, so a request can be refused beside an aligned free run exactly if it is
  longer than its alignment (`BitmapAllocator.CompleteIff`, `BitmapAllocator.RefusedBesideRun`).
- Allocating from an exhausted slab stores the cache pointer where the list head is kept (`Slab.AllocSafeIff`,
  `Slab.ExhaustedHandsOutCache`).
- `calculate_order` clamps the size first, so its errors are unreachable and `calculate_sizes` panics exactly above a
  page (`SlabSizes.CalculateSizes`, `SlabSizes.NoneInAPage`); `calculate_alignment` misses requests of 17 and 33 and
  those beyond 2^63 (`SlabSizes.AlignmentMet`, `SlabSizes.SeventeenGetsSixteen`).
- The reported bytecode length of a name can be smaller than what was read (`AmlNames.LengthExact`,
  `AmlNames.CaretBeforeRoot`).
- A number printed with an upper-case 0X prefix, or with a 0x prefix and read in base 16, is not read back
  (`Number.ReadBack`, `Number.ReadBackBaseZero`, `Number.UpperHexIsLost`).

The assertions of the thread machine, none of which fires before a late try: the waiter is not linked and the state
change to Blocking is allowed when a wait begins; the waiter is unlinked after an early wake-up and linked before the
commitment, and no third state is seen there; the head of the ready queue is not the current thread; every state change
to Ready, Idle, Running and Dead is allowed; `pending_exit` and `previous` are empty when written and the next thread is
not the current one; the reaped thread is Dead and in the manager; a woken waiter is Blocking or Blocked and linked.

## Model

| member | source | states |
|---|---|---|
| ThreadTheorems.BootInv | src/kernel/thread/scheduler.rs:227-234 | the state after boot, with every CPU on its first thread and owning an idle thread, satisfies the invariant |
| ThreadTheorems.StepKeeps | src/kernel/thread/scheduler.rs:113-322 | every step of every CPU, unless it is a try that comes too late, keeps the invariant over all CPUs, threads, ready queues, wait queues and joins |
| ThreadTheorems.RunInv | src/kernel/thread/wait_queue.rs:104-174 | the invariant holds at every index of every run up to the first try that comes too late |
| ThreadTheorems.NeverPanics | src/kernel/thread/scheduler.rs:143-221 | none of the assertions listed above fires in any such state, whatever step comes next; in particular `previous` and `pending_exit` are empty whenever they are written |
| ThreadTheorems.Exclusive | src/kernel/thread/scheduler.rs:283-386 | no thread is current on two CPUs, no two CPUs are on one stack, each thread is at most once in at most one ready queue, and never while another CPU runs it, is on its stack or has not yet let go of it |
| ThreadTheorems.ExclusiveIff | src/kernel/thread/scheduler.rs:283-295 | along every run that holds at all indices exactly if every try finds its thread no longer Waking or finds its on_cpu clear |
| ThreadTheorems.LateBreaks | src/kernel/thread/wait_queue.rs:387-395 | a try that finds a Waking thread with on_cpu set queues it while another CPU has it in use |
| ThreadTheorems.WakeOnce | src/kernel/thread/wait_queue.rs:371-399 | wake-ups and woken insertions differ by one exactly while the thread is Waking, and then a waker is still to try or a CPU is still to finish switching away |
| ThreadTheorems.QueuedOffStack | src/kernel/thread/scheduler.rs:249-256 | when a woken thread is inserted, its on_cpu is clear and no CPU runs it or is on its stack |
| ThreadTheorems.Moves | src/kernel/thread/core/thread.rs:197-260 | each step changes a thread's state only along the transition table, to Dead only at its own exit, to Idle only at the yield of an idle thread; makes it a waiter only at its own wait, inserts it as woken only from Waking at one of the two tries, and moves it in and out of the manager only at register and remove |
| ThreadTheorems.RemovedOnce | src/kernel/thread/manager.rs:63-78 | a thread leaves the manager only when another thread reaps it, Dead, with on_cpu clear and off every CPU's stack, and it never comes back |
| ThreadTheorems.StaysRemoved | src/kernel/thread/scheduler.rs:191-221 | a removed thread stays Dead and out of the manager for the rest of the run |
| ThreadTheorems.NoStrandedJoiner | src/kernel/thread/core/thread.rs:121-156 | while someone waits to join a Dead thread, that thread's CPU is still about to wake, or is waking, its joiners |
| ThreadTheorems.AtRest | src/kernel/thread/scheduler.rs:143-188 | when every CPU just runs its thread, Ready threads are queued, Blocked ones wait, Dead ones are gone and without joiners, and nobody is Waking or Blocking |
| ThreadRaces.TogetherExclusive | src/kernel/thread/scheduler.rs:283-295 | runs in which every try comes directly after its own clear or test have no late try, so exclusion holds throughout |
| ThreadRaces.LateRelease | src/kernel/thread/scheduler.rs:289-295 | from every booted machine with three CPUs there is a run in which every waker tests and tries in one go, some try of a release comes too late, and in the end two CPUs run one thread on one stack |
| ThreadRaces.LateWaker | src/kernel/thread/wait_queue.rs:387-395 | from every such machine there is also a run in which every release clears and tries in one go, some try of a waker comes too late, and in the end two CPUs run one thread on one stack |
| ThreadSafety.SpawnKeeps | src/kernel/thread/manager.rs:33-57 | registering a thread keeps the invariant |
| ThreadSafety.StartKeeps | src/kernel/thread/scheduler.rs:236-243 | making a registered thread ready keeps the invariant |
| ThreadSafety.CheckWaitKeeps | src/kernel/thread/wait_queue.rs:114-135 | taking the queue lock before dropping the condition lock keeps the invariant |
| ThreadSafety.EnqueueKeeps | src/kernel/thread/wait_queue.rs:131-146 | going Blocking and entering the wait queue keeps the invariant |
| ThreadSafety.CommitKeeps | src/kernel/thread/wait_queue.rs:148-168 | rechecking, then cancelling on an early wake-up or going Blocked, keeps the invariant |
| ThreadSafety.ExitKeeps | src/kernel/thread/core/thread.rs:152-161 | publishing Dead keeps the invariant |
| ThreadSafety.WakeJoinersKeeps | src/kernel/thread/core/thread.rs:152-161 | starting to wake the joiners of an exiting thread keeps the invariant |
| ThreadSafety.GetNextKeeps | src/kernel/thread/scheduler.rs:361-386 | taking the next thread or the idle thread keeps the invariant, with this CPU as the new holder |
| ThreadSafety.RequeueKeeps | src/kernel/thread/scheduler.rs:150-167 | putting the yielding thread back keeps the invariant although it is still on its stack |
| ThreadSafety.CommitNextKeeps | src/kernel/thread/scheduler.rs:122-125 | making the chosen thread Running keeps the invariant |
| ThreadSafety.PrepareKeeps | src/kernel/thread/scheduler.rs:306-322 | publishing the handoff keeps the invariant |
| ThreadSafety.SwitchContextKeeps | src/kernel/thread/scheduler.rs:127-137 | leaving the old stack keeps the invariant |
| ThreadSafety.ClearKeeps | src/kernel/thread/scheduler.rs:283-291 | clearing the on_cpu of the thread left keeps the invariant, with this CPU charged with trying it |
| ThreadSafety.TryLeftKeeps | src/kernel/thread/scheduler.rs:292-295 | the try that follows keeps the invariant if it finds the thread no longer Waking or its on_cpu clear |
| ThreadSafety.ReapKeeps | src/kernel/thread/scheduler.rs:297-303 | removing the exited thread from the manager keeps the invariant |
| ThreadSafety.WakeFirstKeeps | src/kernel/thread/wait_queue.rs:371-391 | taking the first waiter off its queue, to Running or Waking, keeps the invariant, with this CPU charged with trying it |
| ThreadSafety.WakeTestKeeps | src/kernel/thread/wait_queue.rs:392-393 | the waker's test of on_cpu keeps the invariant |
| ThreadSafety.WakeTryKeeps | src/kernel/thread/wait_queue.rs:393-394 | the waker's try keeps the invariant if it finds the thread no longer Waking or its on_cpu clear |
| ThreadQueues.QueueStep | src/kernel/thread/wait_queue.rs:131-146 | what each step of the machine does to each wait queue and its lock: one step appends its own thread and unlocks, wake_first takes off the head, entering takes a free lock, and nothing else touches either |
| ThreadQueues.HandingStep | src/kernel/thread/wait_queue.rs:114-146 | who holds a queue's lock in order to wait changes only when a wait takes the lock and when it enqueues |
| ThreadQueues.LockedKeeps | src/kernel/thread/wait_queue.rs:131-168 | every step keeps that each held queue lock belongs to the one CPU inside its critical section, and each CPU is in one section at a time |
| ThreadProgress.RunLocked | src/kernel/thread/wait_queue.rs:131-220 | that holds along every run, late tries or not |
| ThreadProgress.BoundedHold | src/kernel/thread/wait_queue.rs:184-220 | while a queue lock is held it stays with one CPU, whose steps meanwhile are bounded by three for each waiter and three more, whatever the others do |
| ThreadProgress.Progress | src/kernel/thread/wait_queue.rs:148-168 | in every state before a late try every CPU can take a step, or waits for a queue lock whose holder is another CPU that can |
| ThreadLife.ExitKills | src/kernel/thread/scheduler.rs:191-221 | from an exit on, late tries or not, the thread is Dead, and its CPU still has it on its way out or it is out of the manager |
| ThreadLife.ExitedForGood | src/kernel/thread/core/thread.rs:152-161 | a thread that has exited is Dead ever after, in no ready queue and never again current on a CPU in a thread's own code; once its CPU is there again it is out of the manager and nobody waits to join it |
| ThreadLife.SpawnRegisters | src/kernel/thread/manager.rs:33-57 | only a new thread is registered, and it is then Registered and in the manager |
| ThreadLife.StartedIsChosen | src/kernel/thread/scheduler.rs:236-243 | a started thread is Ready, and chosen by its CPU as soon as all that were ready there before it have been |
| ThreadLife.Offers | src/kernel/thread/wait_queue.rs:104-135 | in every timely run, a CPU in a thread's own code can begin to wait exactly when its thread is not the idle one, the queue's lock is free and it does not join itself or a Dead thread; it can always yield, exit without a panic exactly when its thread is not the idle one, register exactly the New threads, start exactly the Registered ones, and begin a wake-up of exactly the named queues whose lock is free |
| ThreadLife.Fifo | src/kernel/thread/scheduler.rs:361-386 | the thread at index k of a ready queue is chosen by the (k+1)-th choice of its CPU from then on |
| ThreadLife.ChosenRuns | src/kernel/thread/scheduler.rs:143-188 | what a CPU next runs after a choice is the head of its ready queue at that choice, or its idle thread if that was empty |
| ThreadLife.Schedules | src/kernel/thread/scheduler.rs:143-221 | after a yield or an exit a CPU runs a thread's own code again only by a choice from its ready queue |
| ThreadLife.KernelBounded | src/kernel/thread/scheduler.rs:113-322 | a CPU is back in a thread's own code after at most ten steps of its own, wakers apart |
| ThreadLife.WaitFifo | src/kernel/thread/wait_queue.rs:371-399 | the thread at index k of a wait queue is woken by the (k+1)-th wake-up of that queue from then on |
| Completion.StepKeeps | src/kernel/thread/completion.rs:30-56 | every step of a waiter or of a call of complete keeps the completion's invariant |
| Completion.NoLostWakeup | src/kernel/thread/completion.rs:36-47 | while waiters are queued, unconsumed completions never exceed calls still to wake plus woken waiters still to recheck |
| Completion.NobodySleepsOnCompletion | src/kernel/thread/completion.rs:30-56 | when every thread is outside or asleep and every call has done its waking, nobody sleeps on an available completion |
| Completion.Conservation | src/kernel/thread/completion.rs:30-47 | consumed plus available never exceeds published, and equals it until the counter saturates |
| Completion.Progress | src/kernel/thread/wait_queue.rs:104-146 | the handover of the two locks never deadlocks |
| ThreadClients.UserKeeps | src/kernel/thread/core/thread.rs:197-260 | a thread that neither exits nor waits elsewhere by its own steps stays alive, no idle thread, and on no other queue |
| ThreadClients.AwayIsComing | src/kernel/thread/wait_queue.rs:371-399 | such a thread outside the queue is Running, Ready, or Waking with a CPU responsible for making it ready |
| CompletionThreads.MoveKeeps | src/kernel/thread/completion.rs:30-56 | every move of the completion on threads keeps the joint invariant and is one step of the completion at lock granularity, or none |
| CompletionThreads.PopsFollows | src/kernel/thread/wait_queue.rs:371-399 | the machine's wake_first is the whole wake_one of the call that made it |
| CompletionThreads.IsCompletion | src/kernel/thread/completion.rs:30-45 | every run of the completion on threads before a late try is a run of `Completion` |
| CompletionThreads.NoLostWakeup | src/kernel/thread/completion.rs:30-45 | while a thread sleeps in the queue and a completion is there, some call has still to wake, or a woken waiter is Running, Ready, or Waking with a CPU responsible for it |
| RwLock.Status.constructor | src/kernel/rwlock.c:21-31 | all three counters start at zero |
| RwLock.Status.TryRead | src/kernel/rwlock.c:6-11 | reading is granted and counted exactly when no writer holds or waits |
| RwLock.Status.TryWrite | src/kernel/rwlock.c:13-19 | writing is granted exactly on a free lock, and moves one writer from waiting to holding |
| RwLock.Status.Announce | src/kernel/rwlock.c:59-62 | a writer counts itself as waiting before it tries |
| RwLock.Status.WriteTryLock | src/kernel/rwlock.c:48-57 | granted exactly on a free lock, without touching write_waiting |
| RwLock.Status.ReadUnlock | src/kernel/rwlock.c:37-46 | one reader less; a writer is to be woken exactly if it was the last reader and writers wait |
| RwLock.Status.WriteUnlock | src/kernel/rwlock.c:67-78 | one writer less; a waiting writer is preferred over all readers |
| RwLock.StepKeeps | src/kernel/rwlock.c:6-78 | every step keeps who is where, what the counters count, and that every wait is justified |
| RwLock.Exclusion | src/kernel/rwlock.c:6-78 | at most one writer, and never a writer together with a reader, in any reachable state |
| RwLock.WaitingExact | src/kernel/rwlock.c:59-65 | write_waiting is exactly the number of queued and in-flight writers, and the other counters the numbers of holders |
| RwLock.Grants | src/kernel/rwlock.c:6-57 | a reader gets in exactly if no writer holds the lock or has announced itself, a writer exactly if nobody holds it |
| RwLock.UnlockWakes | src/kernel/rwlock.c:67-78 | the end of a write lock lets the first queued writer go on if any writer has announced itself, and otherwise all queued readers |
| RwLock.EveryWaitJustified | src/kernel/rwlock.c:37-78 | queued readers imply a writer that holds or waits; queued writers on a free lock imply another writer in flight |
| RwLock.NobodyStranded | src/kernel/rwlock.c:37-78 | when every thread is outside or asleep, both wait queues are empty |
| RwLock.Progress | src/kernel/rwlock.c:33-78 | the status lock and the two queue locks never deadlock |
| RwLockThreads.LocalFollows | src/kernel/rwlock.c:6-78 | each thing a thread does in its own code in the lock's operations is one step of `RwLock` |
| RwLockThreads.WakeReadersFollows | src/kernel/rwlock.c:67-78 | the start of wake_all on the readers is the end of the write lock: all readers asleep then are on their way |
| RwLockThreads.WriterWoken | src/kernel/rwlock.c:37-46 | wake_first on the writers is the end of the unlock that called it |
| RwLockThreads.DrainingWake | src/kernel/thread/wait_queue.rs:204-218 | the steps of wake_all, one waiter after another, are nothing more to the lock until the queue is empty |
| RwLockThreads.MoveKeeps | src/kernel/rwlock.c:6-78 | every move of the lock on threads keeps the joint invariant and is one step of `RwLock`, or none |
| RwLockThreads.IsRwLock | src/kernel/rwlock.c:6-78 | every run of the lock on threads before a late try is a run of `RwLock` |
| RwLockThreads.Exclusion | src/kernel/rwlock.c:6-78 | over the real queues a thread that writes is alone |
| RwLockThreads.NobodyStranded | src/kernel/rwlock.c:37-78 | while a thread sleeps in one of the queues, some thread holds the lock, or is in an operation and Running, Ready or about to be made ready, or a wake_all is about to take it off |
| Interrupts.StepKeeps | src/kernel/interrupt/mod.rs:112-213 | every interrupt, raise, drain, recheck, switch and return keeps the invariant of all context stacks |
| Interrupts.DepthsMatch | src/kernel/interrupt/mod.rs:70-156 | both depth counters equal the guards alive on the context stack, and softirq processing never nests |
| Interrupts.PanicsExactly | src/kernel/interrupt/softirq.rs:12-19 | an assertion fails exactly when an interrupt arrives on top of 255 unfinished handlers, when a softirq handler raises a softirq, or when a kind that does not exist is raised |
| Interrupts.PointReached | src/kernel/interrupt/mod.rs:180-198 | at the preemption point both depths are zero, no guard is alive, interrupts are off and nothing is pending |
| Interrupts.AllDispatched | src/kernel/interrupt/softirq.rs:21-31 | and for every raise before it, a dispatch of all that was pending, the raised kind among them, has since begun and ended |
| Interrupts.RunHandled | src/kernel/interrupt/softirq.rs:12-31 | at every index of a run a raised softirq is pending, or in a dispatch begun since with all that was pending, or has been in one that ended |
| Interrupts.PointOnlyAfterRecheck | src/kernel/interrupt/mod.rs:180-213 | an interrupt comes to its preemption point only out of the recheck with interrupts off |
| Interrupts.OutermostDrains | src/kernel/interrupt/mod.rs:123-137 | the handler that interrupted a thread goes on to softirq processing |
| Words.Mask | src/lib/rust/bitmap.rs:129-164 | the shifted mask has exactly the wanted bits |
| Words.LowestOne | src/lib/rust/bitmap.rs:184-196 | the lowest set bit, if any |
| Extents.Allocated | src/lib/rust/bitmap.rs:146-164 | marking a free range adds one extent disjoint from all live ones |
| Extents.StartOf | src/lib/rust/bitmap.rs:166-182 | a unit that is allocated and a boundary is exactly the start of a live extent |
| Extents.Freed | src/lib/rust/bitmap.rs:198-210 | clearing a live extent removes exactly it |
| Extents.Unique | src/lib/rust/bitmap.rs:89-164 | the two maps determine the live extents, so no length needs storing |
| BitmapAllocator.Test | src/lib/rust/bitmap.rs:129-144 | the word loop answers whether every unit of the range is free |
| BitmapAllocator.MarkAllocated | src/lib/rust/bitmap.rs:146-164 | exactly the range becomes allocated, with boundary marks at both ends and none inside |
| BitmapAllocator.FindBoundary | src/lib/rust/bitmap.rs:184-196 | the first boundary mark after the start, found inside the map |
| BitmapAllocator.MarkFree | src/lib/rust/bitmap.rs:198-210 | exactly the range becomes free |
| BitmapAllocator.Scan | src/lib/rust/bitmap.rs:106-126 | the loop finds the first place that fits among the hint rounded up to the alignment and every whole number of rounded request lengths above it, or that none fits |
| BitmapAllocator.TryNew | src/lib/rust/bitmap.rs:38-61 | the new map represents no extents, and is valid exactly when its word count fits 16 bits; each error has its condition |
| BitmapAllocator.WordsFit | src/lib/rust/bitmap.rs:46-47 | the word count in the code's widths is the right one exactly while it fits 16 bits |
| BitmapAllocator.WordCountCut | src/lib/rust/bitmap.rs:46-47 | a map of 4194240 units gets no words at all |
| BitmapAllocator.Bitmap.Allocate | src/lib/rust/bitmap.rs:89-127 | success takes the first place that fits among the hint rounded up to the alignment and every whole number of rounded request lengths above it, adding one extent of the wanted length, aligned, in range and disjoint from all live ones; out of memory exactly if none of these fits, and then no aligned run is free if the request is no longer than its alignment; errors leave everything unchanged |
| BitmapAllocator.Bitmap.Deallocate | src/lib/rust/bitmap.rs:166-182 | success exactly on the start offset of a live extent, which alone is freed; any other offset is rejected without change |
| BitmapAllocator.ScanComplete | src/lib/rust/bitmap.rs:106-127 | a request no longer than its alignment is refused only if no aligned run is free, although the scan starts at first_free |
| BitmapAllocator.CompleteIff | src/lib/rust/bitmap.rs:106-127 | the scan finds every aligned free run exactly for requests no longer than their alignment |
| BitmapAllocator.RefusedBesideRun | src/lib/rust/bitmap.rs:63-127 | for every longer request, a bitmap made by allocating and freeing that refuses it although an aligned run is free |
| StorageSplit.Generate | src/driver/storage/storage_io.c:25-78 | the batch is the 32-bit split piece by piece, or an error exactly if some piece could not be made |
| StorageTransfer.Transfer | src/driver/storage/storage_io.c:25-86 | on an error the device's queue is as it was; otherwise every piece has been taken in once, and while the 32-bit counters suffice the requests together store the caller's buffer on the device, each byte in its place, or read the transfer's blocks in order, all in its direction |
| StorageTransfer.BatchCarries | src/driver/storage/storage_io.c:38-78 | the requests made of the wanted pieces have the transfer's direction, their writes one after the other store exactly its buffer, and their reads one after the other are its bytes |
| StorageTransfer.AddRequest | src/driver/storage/storage_io_queue.c:77-108 | the request is taken in once, at the device or in the queue, which stays sorted |
| StorageSplit.SplitExact | src/driver/storage/storage_io.c:25-86 | the batch is the wanted split exactly when its positions and count fit 32 bits |
| StorageSplit.SplitWraps | src/driver/storage/storage_io.c:29-31 | a transfer over the end of the 32-bit range whose second piece starts at block 0 |
| StorageSplit.IdealCovers | src/driver/storage/storage_io.c:36-70 | the wanted pieces are contiguous, not empty, within the limit, and cover exactly the requested blocks with matching buffer offsets |
| StorageMerge.FirstMergeUnion | src/driver/storage/storage_io_queue.c:29-53 | a first merge is the union of the two requests exactly if that fits the 32-bit count, and is within the device limit while the 32-bit sum of the test does not wrap |
| StorageMerge.MergeableIff | src/driver/storage/storage_io_queue.c:55-64 | unwrapped ranges merge exactly if they have one direction, their 32-bit sum is within the limit and no block lies between them |
| StorageMerge.MergesUnwrapped | src/driver/storage/storage_io_queue.c:55-64 | a request or range whose 64-bit end wraps never passes the merge test |
| StorageMerge.LaterMergeUnion | src/driver/storage/storage_io_queue.c:14-27 | a later merge is the union of its members exactly when the new request keeps the end and the union fits the count; without the end some member sticks out |
| StorageMerge.LeftExtensionLoses | src/driver/storage/storage_io_queue.c:14-27 | a concrete chain whose range no longer covers a member |
| StorageMerge.WideMergeLoses | src/driver/storage/storage_io_queue.c:55-59 | two requests of 2^31 blocks that pass any limit and merge to an empty range |
| StorageCopy.MergedWrite | src/driver/storage/storage_io_queue.c:183-197 | writing the gathered buffer leaves every byte of the device as if the members were written one by one in arrival order, whatever the buffer held |
| StorageCopy.MergedRead | src/driver/storage/storage_io_queue.c:167-181 | each member's slice of the merged read is its own bytes |
| StorageCopy.SolveWrite | src/driver/storage/storage_io_queue.c:183-197 | the copy loop, with its 32-bit offsets and sizes, leaves the gathered buffer |
| StorageCopy.SolveRead | src/driver/storage/storage_io_queue.c:167-181 | every member's buffer ends up with its slice, copied at 32-bit offsets; where members share a buffer the last one counts |
| StorageCopy.OffsetExact | src/driver/storage/storage_io_queue.c:171-174 | the 32-bit byte offset of a member is right exactly while it is below 4 GiB, although the start is cut to 32 bits |
| StorageCopy.BufferFits | src/driver/storage/storage_io_queue.c:154-158 | the buffer allocated for a merged range holds all members exactly if the bytes of the range can be counted in 32 bits |
| StorageCopy.WideBufferWraps | src/driver/storage/storage_io_queue.c:154-174 | two mergeable requests whose buffer holds one block and whose last block is copied over the first |
| StorageQueue.InsertSorted | src/driver/storage/storage_io_queue.c:77-108 | merging or inserting keeps the queue sorted by position |
| StorageQueue.InsertPlace | src/driver/storage/storage_io_queue.c:92-108 | the request merges into the first element it can, passing only elements not beyond it, or else goes before the first one beyond it or to the end; all other elements stay as and where they are |
| StorageQueue.InsertConserves | src/driver/storage/storage_io_queue.c:55-108 | the new request ends up in exactly one place and no other request is lost or doubled |
| StorageQueue.InsertCoherent | src/driver/storage/storage_io_queue.c:55-108 | every queued range stays the union of its members exactly when no chain is extended to the left past its start and no union outgrows its count |
| StorageQueue.StepConserves | src/driver/storage/storage_io_queue.c:77-152 | adding, submitting and finishing move requests without losing or doubling any |
| StorageQueue.RunConserves | src/driver/storage/storage_io_queue.c:77-152 | in every run the queue is sorted, and queued, submitted and completed requests are together exactly the accepted ones |
| StorageQueue.SubmitsLowest | src/driver/storage/storage_io_queue.c:110-118 | in every run an idle device gets the waiting element with the lowest position, and a busy one nothing |
| StorageQueue.RunCoherent | src/driver/storage/storage_io_queue.c:14-118 | in every run without those merges every waiting or submitted range is the union of its members |
| StorageQueue.FinishedWrite | src/driver/storage/storage_io_queue.c:139-197 | a write finished in such a run, with its bytes below 4 GiB, has done to each byte of the device what its members one by one would have done |
| StorageQueue.FinishedRead | src/driver/storage/storage_io_queue.c:139-181 | a read finished in such a run, with its bytes below 4 GiB, has brought each member its own bytes |
| StorageQueue.RunWithin | src/driver/storage/storage_io_queue.c:55-118 | in every run whose requests keep to a limit below 2^31, so does everything waiting or submitted |
| StorageQueue.RunBuffers | src/driver/storage/storage_io_queue.c:154-158 | in every run whose requests keep to a limit below 2^31 blocks and 4 GiB, every buffer is as large as its range |
| StorageQueue.IoQueue.TrySubmit | src/driver/storage/storage_io_queue.c:77-90 | an idle device with an empty queue takes the request at once |
| StorageQueue.IoQueue.Add | src/driver/storage/storage_io_queue.c:92-108 | the loop merges into, or inserts before, the first element that calls for it |
| StorageQueue.IoQueue.Submit | src/driver/storage/storage_io_queue.c:110-118 | an idle device takes the first element |
| StorageQueue.IoQueue.Finish | src/driver/storage/storage_io_queue.c:139-152 | every member of the finished element is completed once, in order |
| Slab.ObjectsDisjoint | src/kernel/memory/slub.rs:293-341 | objects lie inside the slab and do not overlap |
| Slab.LiveWrite | src/kernel/memory/slub.rs:222-256 | writing any word of a live object leaves the free list as it was |
| Slab.StepKeeps | src/kernel/memory/slub.rs:222-285 | allocating, freeing and writing keep a duplicate-free list threaded through the free objects and inuse plus its length equal to the object count |
| Slab.RunInv | src/kernel/memory/slub.rs:222-285 | the same at every index of every run that never allocates from a full slab |
| Slab.AllocationIsFresh | src/kernel/memory/slub.rs:222-256 | an allocation is an object inside the slab, apart from every live one, and no longer free |
| Slab.AllocSafeIff | src/kernel/memory/slub.rs:222-231 | allocating leaves a list exactly if the slab was not full |
| Slab.ExhaustedHandsOutCache | src/kernel/memory/slub.rs:222-285 | after allocating from a full slab and one free, the second allocation returns the cache's own address |
| Slab.InitNodes | src/kernel/memory/slub.rs:293-341 | every object links to the next in address order and the last to nothing; nothing outside the slab changes |
| Slab.Slub.constructor | src/kernel/memory/slub.rs:108-151 | a new slab is valid with all objects free |
| Slab.Slub.Allocate | src/kernel/memory/slub.rs:222-256 | the head of the list is popped, None exactly if it was empty, and the slab stays valid exactly if it was not full |
| Slab.Slub.Deallocate | src/kernel/memory/slub.rs:258-285 | the object is pushed and the slab stays valid |
| SlabSizes.CalculateOrder | src/kernel/memory/slub.rs:344-381 | the smallest order meeting the tightest fraction that any order meets; an error only if no order wastes less than half |
| SlabSizes.OrderExists | src/kernel/memory/slub.rs:344-381 | some allowed order always wastes less than half, so neither error is ever returned |
| SlabSizes.CalculateSizes | src/kernel/memory/slub.rs:383-410 | sizes up to a page get objects of the least multiple of the alignment, the order the search is meant to find and as many objects as fit, which fill more than half a slab; larger ones fail |
| SlabSizes.NoneInAPage | src/kernel/memory/slub.rs:344-410 | objects of 4112 bytes get slabs of one page, which holds none |
| SlabSizes.AlignmentMet | src/kernel/memory/slub.rs:412-416 | the alignment is 16, 32 or 64, and meets the request up to a cache line exactly unless the request is 17, 33 or beyond 2^63 + 1 and the size does not make up for it |
| SlabSizes.AlignmentLeast | src/kernel/memory/slub.rs:412-416 | the alignment is the least of 16, 32 and 64 that is at least the request less one and of which the size is no multiple of the double, 64 always being enough |
| SlabSizes.SeventeenGetsSixteen | src/kernel/memory/slub.rs:412-416 | a request for 17 gets 16 |
| AmlNames.ParseNamestring | src/acpi/aml/parser/namestring.rs:84-100 | the cursor loop computes the parse of a name string |
| AmlNames.LengthExact | src/acpi/aml/parser/namestring.rs:109-114 | the reported length never exceeds the bytes read, and equals them exactly when no caret precedes a root character and no short path uses the multi-name prefix |
| AmlNames.CaretBeforeRoot | src/acpi/aml/parser/namestring.rs:84-114 | a caret before a root character: three bytes are read and two reported |
| AmlNames.PathRoundTrip | src/acpi/aml/parser/namestring.rs:14-38 | an encoded path parses back to itself, whatever follows |
| AmlNames.RoundTrip | src/acpi/aml/parser/namestring.rs:84-114 | an encoded name string parses back to itself and takes exactly its reported length |
| AmlNames.ParsedIsEncoded | src/acpi/aml/parser/namestring.rs:84-114 | what parses, and has no shorter encoding, is the encoding of what it parses to |
| Namespace.InsertKeeps | src/acpi/aml/namespace.rs:96-100 | adding a child with a name no sibling has keeps the tree valid, sibling names different included |
| Namespace.GetGrown | src/acpi/aml/namespace.rs:194-216 | after one insertion a lookup gives its old result or the new node |
| Namespace.GetOrInsertKeeps | src/acpi/aml/namespace.rs:218-240 | the tree stays valid, and either nothing changes or one leaf is added and returned |
| Namespace.InsertedIsFound | src/acpi/aml/namespace.rs:194-240 | after get_or_insert succeeds, get from the same scope with the same name returns that node |
| Namespace.OthersStable | src/acpi/aml/namespace.rs:194-240 | any other lookup resolves to what it resolved to before, or to the inserted node |
| Namespace.GetFindsAny | src/acpi/aml/namespace.rs:194-216 | if any enclosing scope resolves the whole name, the search finds something |
| Namespace.GetIsNearest | src/acpi/aml/namespace.rs:194-216 | what the search finds is the match of the nearest enclosing scope that has one |
| Namespace.RunStable | src/acpi/aml/namespace.rs:218-240 | over any run of insertions the tree stays valid and a lookup keeps its result or comes to find a later node |
| NamespacePaths.GetDenotes | src/acpi/aml/namespace.rs:161-216 | get finds a node exactly if its path from the root is what the name string means in the nearest enclosing scope where it means any node |
| NamespacePaths.GetRooted | src/acpi/aml/namespace.rs:161-216 | a rooted name is found exactly at the node whose path from the root it spells, from every scope |
| NamespacePaths.GetRelative | src/acpi/aml/namespace.rs:161-216 | a name with carets is found exactly at the node whose path is that of the nearest possible enclosing scope with as many names dropped and its own names added |
| NamespacePaths.GetOrInsertInserts | src/acpi/aml/namespace.rs:218-240 | get_or_insert returns the node with the path the name means in the nearest scope from which the parent of its last name is there, makes it as the one new node if it is not there, changes no other path, and does nothing if there is no such scope |
| NamespacePaths.InsertRooted | src/acpi/aml/namespace.rs:218-240 | a rooted name is inserted at its own path, whatever the scope |
| Namespace.NameSpace.constructor | src/acpi/aml/namespace.rs:257-264 | the tree starts with the root alone |
| Namespace.NameSpace.SelectChild | src/acpi/aml/namespace.rs:133-138 | the loop finds the first child of that name |
| Namespace.NameSpace.Lookup | src/acpi/aml/namespace.rs:161-192 | the loop over the name's items ends where the walk over the tree does |
| Namespace.NameSpace.GetNode | src/acpi/aml/namespace.rs:194-216 | the recursive search, which ends because every parent is older than its child |
| Namespace.NameSpace.GetOrInsertNode | src/acpi/aml/namespace.rs:218-240 | the search with insertion changes the tree as specified and keeps it valid |
| Number.TextLength | src/lib/vsprintf.c:63-111 | exactly max(width, sign + prefix + max(digits, precision)) characters are printed |
| Number.DigitsInto | src/lib/vsprintf.c:82-86 | the division loop leaves the digits in reverse, at most 36 of them |
| Number.Print | src/lib/vsprintf.c:63-111 | the loops write exactly the specified text and nothing else, or nothing and null for a bad base |
| Number.Parse | src/lib/vsprintf.c:12-35 | the loop reads the value of the longest run of digits, modulo 64 bits, and its end |
| Number.ReadBack | src/lib/vsprintf.c:12-111 | in the same base 2 to 16 every 32-bit value is read back, up to the end of its digits, exactly if there is no sign character, no space in front and no 0x prefix |
| Number.SignedReadBack | src/lib/vsprintf.c:63-111 | whatever the width, precision and flags, a reader that takes blanks and a sign reads back the number, signed or as 32 bits, up to the end of its digits, exactly if there is no 0x prefix |
| Number.SignShown | src/lib/vsprintf.c:73-76 | the first character that is no blank is a minus exactly for a negative signed number and a plus exactly where asked for otherwise; a blank asked for comes on top of the padding |
| Number.ReadBackBaseZero | src/lib/vsprintf.c:12-111 | in base 0 a prefixed octal number is always read back, and a prefixed hex number exactly if printed in lower case |
| Number.UpperHexIsLost | src/lib/vsprintf.c:12-111 | 255 is printed as 0XFF and read in base 0 as 0 |
| Pcm.DistinctIff | src/driver/sound/pcm.c:156-175 | with more than one channel, every sample byte has its own planar slot exactly up to one period of frames |
| Pcm.PlanarIsTracks | src/driver/sound/pcm.c:156-175 | in planar order the j-th block holds the samples of channel j one after the other |
| Pcm.RoundTrip | src/driver/sound/pcm.c:156-195 | two interleaved buffers that agree with one planar buffer are equal on those frames |
| Pcm.PcmStream.SetFrameCount | src/driver/sound/pcm.c:130-135 | the period size fits the layout of the channels, the width and the count |
| Pcm.PcmStream.ToPlanar | src/driver/sound/pcm.c:156-175 | every sample byte lands in its planar slot |
| Pcm.PcmStream.ToInterleaved | src/driver/sound/pcm.c:176-195 | every sample byte lands in its interleaved slot |
| Pcm.PcmStream.ThereAndBack | src/driver/sound/pcm.c:156-195 | converting up to one period of frames and back is the identity |

## Left out

- Weak memory ordering, inline assembly, context-switch code and per-CPU addressing: steps are sequentially consistent.
- Intrusive lists: queues are sequences, and a list node is the list it is linked into, if any.
- `thread_run` on a thread that is not Registered, RESCHED, `tick`, time slices, reference counts of threads and reclaiming their memory.
- Starting the first thread of a CPU: runs begin with every CPU landed on its first thread.
- ThreadTheorems.NeverPanics: that a wait happens in thread context with preemption enabled, that idle threads neither wait nor exit, and the preempt count are conditions on callers and are taken as given.
- CompletionThreads.IsCompletion: one completion on one queue; the other users of the kernel are arbitrary steps of the machine. Which CPU runs a call of complete is arbitrary, and so is when it goes on.
- RwLockThreads.IsRwLock: one lock on two queues; a thread does not exit in the middle of one of its operations, and a holder does not take the same lock again.
- Fairness: a CPU that can go on need not, and a spin lock may go to another CPU first.
- Softirq handlers and device handlers: when they raise softirqs and toggle interrupts is arbitrary; their other effects are not modelled.
- BitmapAllocator.TryNew: the backing allocation is a parameter that succeeds or not; the single backing array is two arrays, one per map; the sum of units and one wraps as in the release profile.
- StorageCopy.SolveWrite: the copies are within the buffer; what a copy beyond a buffer that is too small does to other memory is not modelled, and `StorageCopy.BufferFits` says when that cannot happen.
- StorageCopy.SolveRead: likewise, and what the copies leave in a buffer beyond the bytes of its member is not stated.
- Storage: the periodic task's block-cache branch, locks and waking of waiters, and the completion of the synthetic head of a merged chain.
- Slab: the debug build's red zones and poison, the frame's metadata and the per-CPU and per-node caches above a slab; memory is an array of words and an object a whole number of words.
- SlabSizes.AlignmentMet: the power of two that does not fit is 0, as in the release profile; the development profile panics there.
- AML: object payloads and locks of nodes; reading past the end of the bytecode is a panic, and a level above 255 is a panic as in the development profile, where the release profile wraps.
- `vsprintf` itself, format parsing, `%s`, `%f` and `skip_atoi`.
- Number.Parse: strings are ASCII and end at their length; the character table outside ASCII is not modelled.
- Pcm: the width of the stream's fields (period size and offset fit 32 bits) and the ring buffer around the conversions.
- The red-black tree, buddy allocator, page tables, block cache, FAT, drivers, console, USB, network and build tools.

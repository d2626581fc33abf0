# Verified model of the worker queue and the container algorithms

All parallelism of the program rests on one stack: a job system (`workersystem.cpp`) on a blocking queue and a
lightweight semaphore, on a lock-free multi-producer multi-consumer queue (`extlibs/concurrentqueue`). The
commands also use in-place range algorithms and bit containers (`extlibs/eastl`). This project models both and
proves what they are for.

`dafny verify dfyconfig.toml` checks everything.

## How the concurrent parts are modelled

Every shared load, store, read-modify-write and kernel call is one step of a sequentially consistent
interleaving of any number of threads. A thread's next instruction and its local variables, including values it
has read earlier and which may be stale by now, are its program counter in the state (`pcs`). `Next` gives the
effect of one step, `Run` says that a sequence of states is a run from an initial state, and every result about
reachable states is stated for all runs. An invariant `Inv(s, v)` relates a state to a history `v` that the
program does not store. For each machine a class executes the same instructions in place on its fields, and each
of its methods ensures that it performs exactly one step. For the free list, `Interleave` carries this to whole
schedules; for the other classes only the single steps are stated.
A failed assertion of the source is a fault state, and is proved unreachable.

What holds in every state would also hold of operations that return nothing or never return. So each machine has a
second kind of result, about one thread that goes on alone, in general from every reachable state and with the other
threads stopped in the middle of whatever they do: that its call ends, and with what answer.

| module | what it models |
|---|---|
| `FreeList` | the lock-free free list: reference count and flag in one 32-bit word |
| `DequeueCounters` | the optimistic dequeue protocol on tail, head, optimistic count and overcommit |
| `BlockIndex` | the circular, growing block index that consumers read through stale headers |
| `SubQueue`, `SubQueueProof`, `SubQueueRuns` | one implicit producer: blocks, index, bulk enqueue, consumers |
| `Producer` | the counters and the sub-queue together |
| `Quiescent` | enqueues and dequeues of one producer run to their ends while nobody else is at work |
| `IndexWords`, `Wrapping` | indices as unsigned words that wrap around, and why the unbounded ones agree with them |
| `ProducerHash` | the chained, growing table from thread ids to producers |
| `Semaphore`, `BlockingQueue` | `LightweightSemaphore` and `BlockingConcurrentQueue` |
| `JobSystem`, `CheckUpdates` | the job system, and the command that submits, waits and drains |
| `Rotate`, `Juggling`, `NextPermutation` | the in-place range algorithms |
| `Words`, `Bitset`, `Bitvector` | the bit containers, in words of 64 bits |
| `Sums`, `Modular` | sums over sequences, residues |

Where the code and a comment disagree, the model follows the code:

- The comment in `get_block_index_index_for_index` says the sign of the offset is preserved by the division.
  `BLOCK_SIZE` is unsigned, so the division is unsigned; `Wrapping.WrappedSlotExactly` says exactly when the slot
  is right all the same.
- `addJob` ignores the result of `enqueue`. `waitForAllJobsFinished` therefore returns only if every enqueue has
  succeeded: `JobSystem.WaitMeansAllRan` and `JobSystem.WaitNeedsEveryEnqueue`.
- In `bitvector::resize(n, value)` the variable `newbits` underflows when the vector shrinks. The model computes
  with the wrapped value; the result is still the old prefix (`Bitvector.Bitvector.ResizeWith`).

Choices that hold throughout:

- Capacities are powers of two, so `& (capacity - 1)` is written `% cap`; `& ~(BLOCK_SIZE - 1)` is a multiple of
  `BLOCK_SIZE`. Indices are unbounded except in the room check of `SubQueue`, which compares words of 64 bits, and
  in `Wrapping`; in `FreeList` the word wraps at 32 bits.
- `FreeList` assumes fewer than 2^31 - 1 threads, since each may hold a reference counted in 31 bits.
- In `SubQueue` a single `enqueue` is a bulk enqueue of one element; the extra writes of the bulk form
  (`next`) touch only blocks the producer owns. The block pool (initial pool, free list, allocation) is a set of
  available blocks from which allocation may give any, or fail at any time; the other producers may take, return
  and overwrite their blocks at any time. `MAX_SUBQUEUE_SIZE` has its default, so the room check is the comparison
  of words alone.
- `dequeue_bulk` is asked for at least one element.
- The kernel semaphore is a counter with atomic `wait`, `try_wait` and `signal`, and its timed wait may time out at
  any moment. A weak compare_exchange may fail spuriously.
- A job is one step. What `git` prints is an arbitrary function of the repository.
- `next_permutation` works for any element type and any comparison that is a strict weak order.

## Model

| member | source | states |
|---|---|---|
| FreeList.StepKeepsInv | extlibs/concurrentqueue/concurrentqueue.h:1375-1454 | every instruction of `add`, `try_get` and `add_knowing_refcount_is_zero` by any thread keeps the invariant that ties reference words, list, flags and program counters together |
| FreeList.Safety | extlibs/concurrentqueue/concurrentqueue.h:1366-1454 | in every reachable state the list from the head is finite and duplicate-free, each masked count equals the list's or an adder's reference plus those held by `try_get`s, no added node is lost, and a node being returned has its flag clear and is in one thread's hands |
| FreeList.TakenOnce | extlibs/concurrentqueue/concurrentqueue.h:1404-1414 | the assertion in `try_get` holds: a node just unlinked has no flag, is off the list, has no owner, and no other thread returns or adds it |
| FreeList.NodeNotLost | extlibs/concurrentqueue/concurrentqueue.h:1375-1424 | an added node is on the list, or flagged with a reference holder who will add it, or in exactly one thread's add |
| FreeList.CountIsExact | extlibs/concurrentqueue/concurrentqueue.h:1354-1364 | the masked reference count is the number of `try_get` holders plus one for the list or the one thread linking or unlinking it |
| FreeList.Quiescent | extlibs/concurrentqueue/concurrentqueue.h:1375-1454 | with no operation in flight the nodes reachable from the head are exactly the free ones |
| FreeList.NextIsStable | extlibs/concurrentqueue/concurrentqueue.h:1400-1412 | `freeListNext` of a node never changes while a `try_get` holds a reference to it, which is what defeats ABA |
| FreeList.AlternateGetAdd | extlibs/concurrentqueue/concurrentqueue.h:1389-1427 | between two `try_get`s that return the same node there is an `add` of it |
| FreeList.EmptyMeansNull | extlibs/concurrentqueue/concurrentqueue.h:1389-1427 | in every run, a `try_get` that ends without a node has read the head as null while it ran |
| FreeList.GetAlone | extlibs/concurrentqueue/concurrentqueue.h:1389-1414 | whatever the other threads are in the middle of, a `try_get` that goes on alone ends with the node at the head, which now belongs to the caller, and with its successor at the head |
| FreeList.GetAloneFromEmpty | extlibs/concurrentqueue/concurrentqueue.h:1389-1427 | on an empty list it ends with nothing changed |
| FreeList.AddAlone | extlibs/concurrentqueue/concurrentqueue.h:1375-1387 | an `add` that goes on alone puts the node at the head, or, while a `try_get` refers to it, sets the flag |
| FreeList.AloneEnds | extlibs/concurrentqueue/concurrentqueue.h:1366-1454 | from every state of every run, a thread in the middle of any operation that goes on alone ends it within 27 instructions |
| FreeList.FreeListMemory.AddStep | extlibs/concurrentqueue/concurrentqueue.h:1375-1387 | each instruction of `add` and of the linking loop, in place |
| FreeList.FreeListMemory.GetStep | extlibs/concurrentqueue/concurrentqueue.h:1389-1427 | each instruction of `try_get`, in place |
| FreeList.FreeListMemory.Execute | extlibs/concurrentqueue/concurrentqueue.h:1366-1454 | any instruction of any thread performs exactly one step of the machine |
| FreeList.FreeListMemory.Interleave | extlibs/concurrentqueue/concurrentqueue.h:1366-1454 | any schedule executed in place is a run |
| DequeueCounters.GrantedBelowTail | extlibs/concurrentqueue/concurrentqueue.h:2697-2716 | all reservations that were found to be covered by the tail, together, do not exceed the tail, although each was decided with a stale overcommit |
| DequeueCounters.HeadBelowTail | extlibs/concurrentqueue/concurrentqueue.h:2708-2716 | head, even after every claim already decided, stays at or below tail |
| DequeueCounters.StepKeepsInv | extlibs/concurrentqueue/concurrentqueue.h:2695-2794 | publishing and every instruction of every consumer keep the protocol's invariant |
| DequeueCounters.Accounting | extlibs/concurrentqueue/concurrentqueue.h:2695-2794 | in every reachable state optimistic count = head + overcommit + reservations in flight, and head <= tail; also for weighted bulk reservations |
| DequeueCounters.ClaimsAreExclusive | extlibs/concurrentqueue/concurrentqueue.h:2714-2716 | claims on head do not overlap and lie below tail |
| DequeueCounters.ClaimsAreComplete | extlibs/concurrentqueue/concurrentqueue.h:2714-2716 | every index below head has been claimed by some consumer |
| DequeueCounters.AloneTakesAll | extlibs/concurrentqueue/concurrentqueue.h:2474-2542 | a consumer that runs while no reservation is in flight takes min(max, tail - head), so it fails only on an empty sub-queue |
| DequeueCounters.ProducerCounters.Execute | extlibs/concurrentqueue/concurrentqueue.h:2695-2794 | each instruction on the four counters, in place |
| BlockIndex.LookupIsRight | extlibs/concurrentqueue/concurrentqueue.h:2858-2874 | through whatever header reaches the block and whatever tail was read from it, the computed slot is the slot of that block, its key is the block's and its value is there |
| BlockIndex.TailIsKeyed | extlibs/concurrentqueue/concurrentqueue.h:2865-2867 | the tail entry a consumer reads carries a valid key while its block is in use |
| BlockIndex.StoreKeyKeepsInv | extlibs/concurrentqueue/concurrentqueue.h:2824-2827 | keying the next vacant slot overwrites no block in use, in any header |
| BlockIndex.StoreTailKeepsInv | extlibs/concurrentqueue/concurrentqueue.h:2828 | publishing the new tail |
| BlockIndex.StoreValueKeepsInv | extlibs/concurrentqueue/concurrentqueue.h:2602-2606 | a block coming into or going out of use disturbs no other lookup |
| BlockIndex.RewindKeepsInv | extlibs/concurrentqueue/concurrentqueue.h:2845-2849 | rewinding the tail |
| BlockIndex.OccupiedMeansFull | extlibs/concurrentqueue/concurrentqueue.h:2824-2833 | an occupied next slot means that the whole ring is in use |
| BlockIndex.GrowKeepsInv | extlibs/concurrentqueue/concurrentqueue.h:2876-2918 | publishing an index of twice the capacity keeps every old header valid, and the next slot is a fresh entry, as the source asserts |
| BlockIndex.FreshInv | extlibs/concurrentqueue/concurrentqueue.h:2876-2918 | the index made by the constructor |
| SubQueueProof.StepKeepsInv | extlibs/concurrentqueue/concurrentqueue.h:2545-2794 | every instruction of the producer, of any consumer and of strangers keeps the invariant of blocks, index, elements, counts and ownership |
| SubQueueProof.LookupOk | extlibs/concurrentqueue/concurrentqueue.h:2719-2728 | a consumer's loads of header, tail, key and value lead to the block of its element |
| SubQueueProof.SetEmptyBound | extlibs/concurrentqueue/concurrentqueue.h:1532-1549 | the count of a block never exceeds `BLOCK_SIZE`, and the block is in use until the last fetch_add |
| SubQueueProof.FullMeansDone | extlibs/concurrentqueue/concurrentqueue.h:1544-1548 | a full count means that all elements of the block have been claimed and counted by everyone |
| SubQueueProof.LastWriteOk | extlibs/concurrentqueue/concurrentqueue.h:2684-2687 | when the end block is reached, the assertion that all elements are written holds |
| SubQueueProof.StepPublish | extlibs/concurrentqueue/concurrentqueue.h:2690 | one store of the tail makes all elements of the call visible, each standing in its block, and changes nothing else |
| SubQueueProof.StepFailed | extlibs/concurrentqueue/concurrentqueue.h:2586-2596 | at the end of a failed call no block is held or undone, none is in the index beyond the tail, and the tail block is the old one |
| SubQueueRuns.NothingFails | extlibs/concurrentqueue/concurrentqueue.h:2858-2874 | no assertion fails in any run: every lookup finds the block, although the producer inserts, rewinds, wraps and grows meanwhile |
| SubQueueRuns.Delivered | extlibs/concurrentqueue/concurrentqueue.h:2716-2786 | a finished claim of first..hi has delivered exactly the accepted elements first..hi in order |
| SubQueueRuns.AllOrNothing | extlibs/concurrentqueue/concurrentqueue.h:2545-2692 | a call of `enqueue_bulk` either appends exactly its elements in order, or leaves the accepted elements, tail and tail block as they were; unless a larger index was published meanwhile, the index tail moves by the number of new blocks, so not at all after a failure; in any case it is the entry of the last block while an element is left, no block stays with the call, and none is in the index beyond the tail |
| SubQueueRuns.BlocksAreOwned | extlibs/concurrentqueue/concurrentqueue.h:2551-2559 | the producer never writes through a tail block it no longer owns, and consumers touch no block that is free or another producer's |
| SubQueueRuns.EmptyOnce | extlibs/concurrentqueue/concurrentqueue.h:1513-1549 | "now empty" is reported to one consumer only, when every element of the block has been claimed and none is left to move out |
| SubQueueRuns.EveryBlockHasItsPlace | extlibs/concurrentqueue/concurrentqueue.h:2568-2617 | at all times each block is in exactly one place: the pool, another producer, the index under one block number, just requisitioned, being freed by one consumer, or in the chain of next pointers that a failed call has still to give back; and no block number has two blocks |
| SubQueueRuns.NothingIsLeft | extlibs/concurrentqueue/concurrentqueue.h:2579-2597 | whenever no call is running, whatever the consumers do, every block outside the pool and the other producers is in the index with a number below that of the tail or being freed, and the index tail is keyed with the last block |
| SubQueueRuns.OthersSeeOnlyMoves | extlibs/concurrentqueue/concurrentqueue.h:2568-2617 | a step of one sub-queue is for the others what they assume of strangers: it leaves their blocks alone, takes a block of the pool or leaves it unchanged, and gives blocks back unchanged |
| SubQueueRuns.QuietBlocks | extlibs/concurrentqueue/concurrentqueue.h:2579-2597 | between operations every block is in exactly one of these places: the pool, another producer, or the index under a number between head and tail; so a failed call has returned all it took |
| SubQueueRuns.QuietIndex | extlibs/concurrentqueue/concurrentqueue.h:2561-2617 | and every block number between head and tail has its block |
| SubQueue.ImplicitProducer.Enqueue | extlibs/concurrentqueue/concurrentqueue.h:2545-2564 | the start of a call in place: the number of blocks to allocate |
| SubQueue.ImplicitProducer.ProducerStep | extlibs/concurrentqueue/concurrentqueue.h:2568-2691 | each instruction of the producer, in place |
| SubQueue.ImplicitProducer.CheckStep | extlibs/concurrentqueue/concurrentqueue.h:2575-2579 | the room check on words, and the look at the next index slot |
| SubQueue.ImplicitProducer.AddBlock | extlibs/concurrentqueue/concurrentqueue.h:2602-2617 | storing the block in its entry and linking it |
| SubQueue.ImplicitProducer.WriteStep | extlibs/concurrentqueue/concurrentqueue.h:2628-2689 | constructing an element, or going on to the next block |
| SubQueue.ImplicitProducer.UndoStep | extlibs/concurrentqueue/concurrentqueue.h:2586-2592 | taking a block of a failed call out of the index |
| SubQueue.ImplicitProducer.ClaimStep | extlibs/concurrentqueue/concurrentqueue.h:2716 | the fetch_add on head, in place |
| SubQueue.ImplicitProducer.ConsumerStep | extlibs/concurrentqueue/concurrentqueue.h:2719-2784 | each instruction of a consumer, in place |
| Producer.Safety | extlibs/concurrentqueue/concurrentqueue.h:2545-2794 | with the counters deciding the claims: no claim reaches beyond the tail, no assertion fails, and finished claims have delivered the accepted elements at their indices |
| Producer.ClaimedOnce | extlibs/concurrentqueue/concurrentqueue.h:2716 | each accepted element below head is claimed by exactly one step: none is lost or delivered twice |
| Producer.StepKeepsInv | extlibs/concurrentqueue/concurrentqueue.h:2545-2794 | the joint invariant is kept by every step |
| Quiescent.QuietIsSettled | extlibs/concurrentqueue/concurrentqueue.h:2545-2794 | every state of a run in which nobody is at work is one from which the following operations start, with the accepted elements as its contents |
| Quiescent.DequeueAlone | extlibs/concurrentqueue/concurrentqueue.h:2474-2542 | run to its end while nobody else is at work, a dequeue by one thread takes the min(max, tail - head) oldest elements in order, comes back empty-handed only from an empty queue, and leaves the queue at rest |
| Quiescent.DequeueAfterRun | extlibs/concurrentqueue/concurrentqueue.h:2695-2794 | the same as the continuation of any run that has come to rest: what it delivers are the accepted elements from head on |
| Quiescent.EnqueueAlone | extlibs/concurrentqueue/concurrentqueue.h:2545-2692 | run to its end while nobody else is at work, there is room and the pool has blocks enough, an enqueue succeeds, appends its elements in order and takes one block for each that they begin |
| Quiescent.ClaimsEnd | extlibs/concurrentqueue/concurrentqueue.h:2719-2786 | in every run each instruction of a consumer that moves its claim out lowers a bound that no other step changes, so every claim ends |
| IndexWords.CircularLessIsLess | extlibs/concurrentqueue/concurrentqueue.h:406-417 | exactly when the wrapped comparison of two indices less than 2^w apart is the comparison |
| Wrapping.RoomCheckIsExact | extlibs/concurrentqueue/concurrentqueue.h:2416-2419 | the room check on words passes exactly when the new block ends below head + 2^(w-1) |
| Wrapping.ComparisonsAreExact | extlibs/concurrentqueue/concurrentqueue.h:2576-2579 | in every run of producer and consumers head, tail and the end of the blocks taken stay less than 2^63 apart, though each room check sees only words; so the comparisons of head and tail are exact, the assertion before a new block holds, and the check refuses a block exactly when it would not fit |
| Wrapping.TestIsExact | extlibs/concurrentqueue/concurrentqueue.h:2477-2479 | the tests of `dequeue` and `dequeue_bulk` are the same, and what they give on words when fewer than half the words are available |
| Wrapping.DesiredIsExact | extlibs/concurrentqueue/concurrentqueue.h:2697-2701 | in every run: elements found available are as many as computed on words, and the test is exact if and only if what the thread has missed since its loads (units returned, reserved by others, claimed beyond the tail it read), reduced to a word, is at most 2^63 |
| Wrapping.RecheckIsExact | extlibs/concurrentqueue/concurrentqueue.h:2705-2709 | the second test is exact while fewer than 2^63 elements lie between the head at its fetch_add and the tail, and at most 2^63 units were in flight or returned unseen |
| Wrapping.WrappedSlotIsExact | extlibs/concurrentqueue/concurrentqueue.h:2863-2873 | the masked slot computed with the unsigned division is the slot used in `BlockIndex` |
| Wrapping.WrappedSlotExactly | extlibs/concurrentqueue/concurrentqueue.h:2868-2871 | it is for all blocks and tails if and only if the capacity divides 2^w / BLOCK_SIZE |
| Wrapping.CapacityDivides | extlibs/concurrentqueue/concurrentqueue.h:2910-2915 | powers of two up to 2^w / BLOCK_SIZE do |
| Wrapping.BlockBaseDiffIsExact | extlibs/concurrentqueue/concurrentqueue.h:2562-2563 | the wrapped `blockBaseDiff` is the number of blocks to allocate, also at index 0 where startTailIndex - 1 wraps |
| ProducerHash.LoadFactor | extlibs/concurrentqueue/concurrentqueue.h:3396-3399 | residents have distinct counts below three quarters of the capacity, so no more than three quarters of the slots are taken |
| ProducerHash.SomeSlotIsFree | extlibs/concurrentqueue/concurrentqueue.h:3317 | so a slot is free |
| ProducerHash.TablesNeverFull | extlibs/concurrentqueue/concurrentqueue.h:3317 | both hold for every table of every reachable state |
| ProducerHash.GrowsWhenHalfFull | extlibs/concurrentqueue/concurrentqueue.h:3355-3388 | in every run a new table is published only when the calls counted would fill half of the current one; it has at least twice the slots, doubled no more often than these calls need |
| ProducerHash.ProbesEnd | extlibs/concurrentqueue/concurrentqueue.h:3316-3432 | no probe loop, for search, migration or insertion, goes once around its table |
| ProducerHash.ResidentFound | extlibs/concurrentqueue/concurrentqueue.h:3317-3353 | a probe meets no free slot before a thread's own entry |
| ProducerHash.StepKeepsInv | extlibs/concurrentqueue/concurrentqueue.h:3294-3442 | every instruction of every thread keeps the table invariant |
| ProducerHash.SameThreadSameProducer | extlibs/concurrentqueue/concurrentqueue.h:3294-3442 | results at any two times are the same producer if and only if the threads are the same, across resizes and migrations |
| ProducerHash.ResultIsOwn | extlibs/concurrentqueue/concurrentqueue.h:3400-3434 | the result is the one producer the thread created |
| ProducerHash.CallSucceeds | extlibs/concurrentqueue/concurrentqueue.h:3293-3294 | a call that ends returns a producer |
| ProducerHash.CallEnds | extlibs/concurrentqueue/concurrentqueue.h:3294-3442 | from every state of every run in which nobody holds the resize flag, a call that runs alone ends, within a bound given by table capacities and count, with the one producer of the thread, which then has an entry in the current table: it was there, has moved there from an older table, or has been added, to a bigger table if need be |
| ProducerHash.AloneEnds | extlibs/concurrentqueue/concurrentqueue.h:3294-3442 | the same for a thread in the middle of a call, with whatever stale tables, counts and slots, unless another thread holds the resize flag |
| ProducerHash.ProducerTable.Execute | extlibs/concurrentqueue/concurrentqueue.h:3294-3442 | each instruction, in place |
| Semaphore.StepKeepsInv | extlibs/concurrentqueue/blockingconcurrentqueue.h:260-405 | every instruction of every wait and signal keeps both balances |
| Semaphore.Conservation | extlibs/concurrentqueue/blockingconcurrentqueue.h:260-405 | waiters = kernel tokens + posts owed + max(0, -count); acquired + free + tokens + owed = supplied, so never more is acquired than supplied |
| Semaphore.ResultIsAcquired | extlibs/concurrentqueue/blockingconcurrentqueue.h:299-335 | a call returns what it acquired; a timeout acquires nothing |
| Semaphore.ResultWithinMax | extlibs/concurrentqueue/blockingconcurrentqueue.h:299-377 | in every run the result of a call is between 0 and the max it was given |
| Semaphore.TryAlone | extlibs/concurrentqueue/blockingconcurrentqueue.h:366-377 | alone, `tryWaitMany` returns the lesser of max and the count, or 0, and leaves the rest |
| Semaphore.WaitAlone | extlibs/concurrentqueue/blockingconcurrentqueue.h:379-394 | so does `waitMany` when there is a unit |
| Semaphore.SpinTakes | extlibs/concurrentqueue/blockingconcurrentqueue.h:304-314 | a spinning thread that sees a unit takes as much |
| Semaphore.WaitSleeps | extlibs/concurrentqueue/blockingconcurrentqueue.h:299-320 | without a unit it spins, subtracts one from the count, and sleeps |
| Semaphore.WakesAlone | extlibs/concurrentqueue/blockingconcurrentqueue.h:320-335 | a sleeper given a token returns one unit, and up to max - 1 more if they are there |
| Semaphore.TimesOutAlone | extlibs/concurrentqueue/blockingconcurrentqueue.h:321-331 | a sleeper that times out with no unit there restores the count and returns 0 |
| Semaphore.SignalAlone | extlibs/concurrentqueue/blockingconcurrentqueue.h:396-405 | `signal` adds its units to the count and gives as many tokens as there are waiters for them |
| Semaphore.AloneEnds | extlibs/concurrentqueue/blockingconcurrentqueue.h:260-405 | from every state of every run, with whatever stale counts, a thread that goes on alone ends its call or falls asleep for want of a token; only a waiter that has timed out may have to wait for a post under way |
| Semaphore.NoLostWakeup | extlibs/concurrentqueue/blockingconcurrentqueue.h:396-405 | while a unit is free and no post is owed, there is a kernel token for every waiter |
| Semaphore.UndoEnds | extlibs/concurrentqueue/blockingconcurrentqueue.h:289-297 | a timed-out waiter leaves its undo loop with its next two instructions when no post is owed |
| Semaphore.LightweightSemaphore.TryStep | extlibs/concurrentqueue/blockingconcurrentqueue.h:366-377 | `tryWaitMany` and the spinning loops, in place |
| Semaphore.LightweightSemaphore.WaitStep | extlibs/concurrentqueue/blockingconcurrentqueue.h:315-335 | the decrement, the sleep and the undo loop, in place |
| Semaphore.LightweightSemaphore.SignalStep | extlibs/concurrentqueue/blockingconcurrentqueue.h:396-405 | `signal`, in place |
| BlockingQueue.StepKeepsInv | extlibs/concurrentqueue/blockingconcurrentqueue.h:519-781 | every step keeps elements and permits in balance |
| BlockingQueue.ElementsMatchPermits | extlibs/concurrentqueue/blockingconcurrentqueue.h:519-781 | elements in the inner queue = permits available + permits held by consumers + elements not yet signalled |
| BlockingQueue.NeverSpinsOnNothing | extlibs/concurrentqueue/blockingconcurrentqueue.h:690-781 | all consumers in their retry loops have their elements reserved in the inner queue |
| BlockingQueue.QuiescentSize | extlibs/concurrentqueue/blockingconcurrentqueue.h:519-781 | between calls the count is the number of elements |
| BlockingQueue.SizeIsEnqueuedLessDequeued | extlibs/concurrentqueue/blockingconcurrentqueue.h:519-781 | in every run the inner queue holds what the successful enqueue calls were given, less what has been dequeued |
| BlockingQueue.DequeuesWithinMax | extlibs/concurrentqueue/blockingconcurrentqueue.h:690-781 | a call never dequeues more than the max it was given, and has dequeued just what the semaphore granted when it returns |
| BlockingQueue.CountIsThere | extlibs/concurrentqueue/blockingconcurrentqueue.h:690-781 | in every reachable state the count never promises more elements than there are |
| BlockingQueue.EnqueueAdds | extlibs/concurrentqueue/blockingconcurrentqueue.h:519-583 | alone, an enqueue of n elements adds n elements and n units |
| BlockingQueue.EnqueueFails | extlibs/concurrentqueue/blockingconcurrentqueue.h:519-583 | a call whose inner enqueue fails leaves everything as it was |
| BlockingQueue.DequeueTakes | extlibs/concurrentqueue/blockingconcurrentqueue.h:690-781 | alone, a dequeue takes the lesser of max and the count from both |
| BlockingQueue.QuiescentDequeue | extlibs/concurrentqueue/blockingconcurrentqueue.h:690-781 | between calls of the others it takes the lesser of max and the number of elements |
| BlockingQueue.BlockingConcurrentQueue.EnqueueStep | extlibs/concurrentqueue/blockingconcurrentqueue.h:575-583 | enqueue, then signal as many units only if it succeeded |
| BlockingQueue.BlockingConcurrentQueue.SemaStep | extlibs/concurrentqueue/blockingconcurrentqueue.h:771-775 | an instruction inside the semaphore |
| BlockingQueue.BlockingConcurrentQueue.QueueStep | extlibs/concurrentqueue/blockingconcurrentqueue.h:690-781 | calls and the loop around the inner dequeue, in place |
| JobSystem.PendingCounts | workersystem.cpp:17-64 | `pendingJobs` = counted not yet enqueued + queued + dequeued not yet subtracted + lost by a failed enqueue |
| JobSystem.WaitMeansAllRan | workersystem.cpp:55-64 | in every run, when a call of `waitForAllJobsFinished` has returned, nothing is pending or under way and every job submitted so far has run exactly once |
| JobSystem.WaitNeedsEveryEnqueue | workersystem.cpp:47-53 | after a failed enqueue no call of it ever returns |
| JobSystem.WaitEnds | workersystem.cpp:55-64 | if none has failed, the call can return from wherever it is, whatever the workers are in the middle of: it does when threads with a job in hand go on and the main thread takes the queued ones |
| JobSystem.WaitCanReturn | workersystem.cpp:55-64 | it can return exactly when no step of a job is left and no enqueue has failed |
| JobSystem.JobsProgress | workersystem.cpp:21-64 | until the next submission the steps left never grow, and every step that works on a job lowers them |
| JobSystem.WaitAlone | workersystem.cpp:55-64 | when the workers have no job in hand it runs all queued jobs itself, in order, and returns |
| JobSystem.AddJobAlone | workersystem.cpp:47-53 | `addJob` counts the job and appends it to the queue |
| JobSystem.RunsOneJob | workersystem.cpp:21-30 | a worker that finds a job takes the oldest, runs it once and subtracts it |
| JobSystem.ExitMeansShutdown | workersystem.cpp:21-44 | a worker leaves its loop only after a shutdown has begun |
| JobSystem.WorkersExit | workersystem.cpp:21-30 | and then within four of its own steps |
| JobSystem.ShutdownJoinsAll | workersystem.cpp:39-44 | when `shutdownJobSystem` has returned every worker has left its loop |
| JobSystem.ShutdownEnds | workersystem.cpp:39-44 | from any state it does return, when workers and main thread are scheduled in turn, after at most five steps for each worker and three more |
| JobSystem.NothingDropped | workersystem.cpp:39-44 | from its return until the next submission nothing more runs and a shutdown drops no job |
| JobSystem.ShutdownDropsQueued | workersystem.cpp:39-44 | a shutdown without waiting drops exactly the jobs still queued |
| JobSystem.StepKeepsInv | workersystem.cpp:21-64 | every step of workers and main thread keeps the accounts |
| JobSystem.WorkerSystem.WorkerThread | workersystem.cpp:21-30 | a step of a worker, in place |
| JobSystem.WorkerSystem.MainThread | workersystem.cpp:39-64 | a step of submitting, helping or shutting down, in place |
| CheckUpdates.MarkerMeans | commands/checkforupdatesonserver.cpp:42-65 | which result each marker stands for |
| CheckUpdates.DequeueOne | extlibs/concurrentqueue/concurrentqueue.h:2474-2542 | a dequeue from one producer at rest, executed on the lock-free machine, takes its oldest element, and fails only if there is none |
| CheckUpdates.ResultQueue.TryDequeue | extlibs/concurrentqueue/concurrentqueue.h:1041-1073 | over producers at rest it takes the oldest element of the preferred producer, and fails only if all are empty |
| CheckUpdates.ResultQueue.TryFrom | extlibs/concurrentqueue/concurrentqueue.h:1061-1071 | its end: if the preferred producer is empty all others are tried |
| CheckUpdates.ResultQueue.Best | extlibs/concurrentqueue/concurrentqueue.h:1046-1057 | the scan counts none only if all producers are empty; otherwise it gives the first of the largest among the first three that are not |
| CheckUpdates.Drain | commands/checkforupdatesonserver.cpp:92-108 | the drain ends with every element taken exactly once and sorted by its marker |
| CheckUpdates.BucketCounts | commands/checkforupdatesonserver.cpp:93-107 | a repository is listed under a marker as often as its marked result was dequeued |
| CheckUpdates.Fill | commands/checkforupdatesonserver.cpp:50-67 | the results that the jobs of each thread have enqueued, through the machine of its producer, are the contents of the result queue |
| CheckUpdates.CheckForUpdates | commands/checkforupdatesonserver.cpp:76-113 | for any repositories and any schedule of the jobs, after the wait the drained lists hold exactly the repositories with their marker, and the five lists are a permutation of the input |
| Rotate.RotatedAt | extlibs/eastl/algorithm.h:3901-3904 | where each element of the rotated range comes from and goes to |
| Rotate.RotateGeneral | extlibs/eastl/algorithm.h:3938-3965 | the swapping rotation: contents and returned position |
| Rotate.BringForward | extlibs/eastl/algorithm.h:3942-3949 | its first loop, for which the rest is again a rotation |
| Rotate.FinishRotation | extlibs/eastl/algorithm.h:3952-3962 | its second loop |
| Rotate.MoveRotateLeftByOne | extlibs/eastl/algorithm.h:3969-3978 | rotation by one to the left |
| Rotate.MoveRotateRightByOne | extlibs/eastl/algorithm.h:3982-3992 | rotation by one to the right |
| Juggling.GreatestCommonDivisor | extlibs/eastl/algorithm.h:4076-4085 | a common divisor that every common divisor divides, and a combination of the two numbers |
| Juggling.GcdIsGreatest | extlibs/eastl/algorithm.h:4076-4085 | hence every common divisor divides it |
| Juggling.PosDistinct | extlibs/eastl/algorithm.h:4104-4119 | the positions of a cycle are distinct until it closes |
| Juggling.CycleCloses | extlibs/eastl/algorithm.h:4109-4119 | the cycle closes after n / g steps |
| Juggling.CycleMeets | extlibs/eastl/algorithm.h:4104-4119 | the cycle from p meets every position congruent to p modulo g |
| Juggling.MoveCycle | extlibs/eastl/algorithm.h:4106-4121 | one cycle moves each of its elements m1 places down and touches no other |
| Juggling.RotateJuggling | extlibs/eastl/algorithm.h:4094-4125 | the juggling rotation agrees with the swapping one in contents and returned position |
| Juggling.RotateRange | extlibs/eastl/algorithm.h:4138-4173 | `rotate` for every kind of iterator and element |
| NextPermutation.NextPermutation | extlibs/eastl/algorithm.h:3855-3887 | for any strict weak order: true exactly when a greater arrangement exists, and then the least such; otherwise the sorted one |
| NextPermutation.AdvancedIsNextBy | extlibs/eastl/algorithm.h:3867-3874 | swapping the pivot with its successor and reversing the rest gives the least greater arrangement |
| NextPermutation.DescendingIsLast | extlibs/eastl/algorithm.h:3877-3881 | a descending range is the last arrangement |
| NextPermutation.FindPivot | extlibs/eastl/algorithm.h:3863-3881 | the backward search for the pivot |
| NextPermutation.FindSuccessor | extlibs/eastl/algorithm.h:3869-3871 | the backward search for the successor |
| NextPermutation.MeetsEveryArrangement | extlibs/eastl/algorithm.h:3830-3852 | repeated calls from the sorted arrangement meet every arrangement, up to elements that compare equal, exactly once |
| NextPermutation.ReverseBidirectional | extlibs/eastl/algorithm.h:2817-2821 | reversal with bidirectional iterators |
| NextPermutation.ReverseRandomAccess | extlibs/eastl/algorithm.h:2824-2831 | reversal with random access iterators |
| Words.ShiftUpInPhases | extlibs/eastl/bitset.h:752-770 | whole words, then bits across words, shift the bit string by any amount |
| Words.ShiftDownInPhases | extlibs/eastl/bitset.h:774-790 | the same downwards |
| Bitset.BitsetBase.ShiftLeft | extlibs/eastl/bitset.h:752-770 | new[i] = old[i - n], zeros below |
| Bitset.BitsetBase.ShiftRight | extlibs/eastl/bitset.h:774-790 | new[i] = old[i + n], zeros above |
| Bitset.BitsetBase.Flip | extlibs/eastl/bitset.h:794-799 | every bit of every word inverted |
| Bitset.BitsetBase.Set | extlibs/eastl/bitset.h:812-818 | one bit |
| Bitset.BitsetBase.Count | extlibs/eastl/bitset.h:863-889 | the number of set bits |
| Bitset.BitsetBase.FindFirst | extlibs/eastl/bitset.h:993-1004 | the first set bit |
| Bitset.BitsetBase.FindNext | extlibs/eastl/bitset.h:1013-1044 | the first set bit after a position; after the largest word the increment wraps around to 0 |
| Bitset.BitsetBase.FindLast | extlibs/eastl/bitset.h:1053-1064 | the last set bit |
| Bitset.BitsetBase.FindPrev | extlibs/eastl/bitset.h:1069-1096 | the last set bit before a position |
| Bitset.UpwardsIsComplete | extlibs/eastl/bitset.h:2153-2175 | searching upwards from one past each bit found enumerates exactly the set bits, ascending, count() many |
| Bitset.DownwardsIsComplete | extlibs/eastl/bitset.h:2181-2203 | searching downwards enumerates them descending |
| Bitset.NextSetFinds | extlibs/eastl/bitset.h:993-1044 | what "the first set bit from here on" means |
| Bitset.PrevSetFinds | extlibs/eastl/bitset.h:1053-1096 | what "the last set bit before" means |
| Bitset.MaskClears | extlibs/eastl/bitset.h:1858-1859 | masking the last word clears exactly the unused bits |
| Bitset.Bitset.ShiftLeft | extlibs/eastl/bitset.h:1852-1865 | the shift on N bits, unused bits kept zero |
| Bitset.Bitset.ShiftRight | extlibs/eastl/bitset.h:1870-1877 | likewise |
| Bitset.Bitset.SetAll | extlibs/eastl/bitset.h:1882-1888 | likewise |
| Bitset.BitsetBase.Combine | extlibs/eastl/bitset.h:728-748 | the operators with another bitset, bit by bit, also with itself |
| Bitset.Bitset.Combine | extlibs/eastl/bitset.h:1825-1847 | likewise on N bits |
| Bitset.Bitset.ResetAll | extlibs/eastl/bitset.h:1915-1919 | all bits zero |
| Bitset.Bitset.FlipAll | extlibs/eastl/bitset.h:1946-1954 | likewise |
| Bitset.Bitset.Set | extlibs/eastl/bitset.h:1893-1910 | likewise; out of range nothing changes |
| Bitset.Bitset.Flip | extlibs/eastl/bitset.h:1959-1975 | likewise |
| Bitset.Bitset.Count | extlibs/eastl/bitset.h:863-889 | the number of set bits among the N |
| Bitset.Bitset.FindFirst | extlibs/eastl/bitset.h:2153-2162 | the search clamped to N |
| Bitset.Bitset.FindNext | extlibs/eastl/bitset.h:2167-2176 | likewise |
| Bitset.Bitset.FindLast | extlibs/eastl/bitset.h:2181-2190 | likewise |
| Bitset.Bitset.FindPrev | extlibs/eastl/bitset.h:2195-2204 | likewise |
| Bitset.Bitset.SetBits | extlibs/eastl/bitset.h:2153-2176 | the loop from findFirst by findNext to N meets exactly the set bits, ascending, count() many |
| Bitset.Bitset.SetBitsDown | extlibs/eastl/bitset.h:2181-2204 | the loop from findLast by findPrev meets the same, descending |
| Bitvector.Inc | extlibs/eastl/bitvector.h:417-428 | one bit forwards |
| Bitvector.Dec | extlibs/eastl/bitvector.h:433-443 | one bit backwards |
| Bitvector.Plus | extlibs/eastl/bitvector.h:468-497 | for every signed n the position moves by n |
| Bitvector.Distance | extlibs/eastl/bitvector.h:529-532 | the difference of two iterators is the difference of positions |
| Bitvector.PlusIsInvertible | extlibs/eastl/bitvector.h:468-532 | moves undo each other, and begin plus distance is the iterator |
| Bitvector.Bitvector.End | extlibs/eastl/bitvector.h:795-798 | the end iterator stands at size() |
| Bitvector.Bitvector.MoveBits | extlibs/eastl/bitvector.h:677-703 | overlapping copies are right in both directions |
| Bitvector.Bitvector.PushBack | extlibs/eastl/bitvector.h:950-954 | appends |
| Bitvector.Bitvector.PopBack | extlibs/eastl/bitvector.h:958-967 | removes the last bit |
| Bitvector.Bitvector.Resize | extlibs/eastl/bitvector.h:979-986 | keeps the common prefix |
| Bitvector.Bitvector.ResizeWith | extlibs/eastl/bitvector.h:990-1017 | pads with the value, or cuts to the old prefix in spite of the underflow |
| Bitvector.Bitvector.FillUp | extlibs/eastl/bitvector.h:999-1003 | the loop that fills the last word |
| Bitvector.Bitvector.FillWords | extlibs/eastl/bitvector.h:1006-1016 | the rest by whole words |
| Bitvector.Bitvector.Test | extlibs/eastl/bitvector.h:1021-1027 | the bit, or the default beyond the end |
| Bitvector.Bitvector.Set | extlibs/eastl/bitvector.h:1031-1037 | sets one bit, growing if needed |
| Bitvector.Bitvector.Insert | extlibs/eastl/bitvector.h:1168-1186 | sequence insertion of one bit |
| Bitvector.Bitvector.InsertMany | extlibs/eastl/bitvector.h:1190-1213 | sequence insertion of n bits |
| Bitvector.Bitvector.Erase | extlibs/eastl/bitvector.h:1247-1262 | removal of one bit |
| Bitvector.Bitvector.EraseRange | extlibs/eastl/bitvector.h:1267-1296 | removal of a range |

## Left out

- Memory orders weaker than sequential consistency, exceptions thrown by element moves and allocation (except
  where `enqueue_bulk` speaks about failure), move constructors, swaps and destructors.
- `ExplicitProducer`, producer and consumer tokens, and consumer rotation: no command uses tokens.
- `requisition_block` and the initial block pool as code: any block that is available, or none. The sub-queues are
  not composed with `FreeList`, nor several of them with each other; `SubQueueRuns.OthersSeeOnlyMoves` says that
  each does to the others' blocks only what they allow.
- `Quiescent.EnqueueAlone`: says nothing of a call that fails; `SubQueueRuns.AllOrNothing` does.
- `MAX_SUBQUEUE_SIZE` other than the default.
- Failure of allocation in the thread-id table, and reuse of inactive producers: with the default macros no
  implicit producer ever becomes inactive. A spurious failure of the compare_exchange in `add_producer` only
  repeats it.
- `JobSystem.WaitMeansAllRan`: that the wait ends under every schedule is not claimed, since a worker with a job in hand
  may never be scheduled; `JobSystem.WaitEnds` names the schedule.
- `Wrapping.RecheckIsExact`: gives a condition that suffices, not one that is necessary.
- `SubQueueRuns.Delivered`: an element is moved out in one step; the destructor call after it is not modelled.
- `DequeueCounters.StepKeepsInv`: a bulk dequeue of zero elements is not modelled.
- `CheckUpdates.ResultQueue.Dequeue`: used only when no other operation is in flight, as in the command.
- `CheckUpdates.Fill`: each thread's enqueues are executed one after the other, not interleaved with those of other
  threads, which use other producers; the producers stand in the list in the order of the threads.
- `CheckUpdates.CheckForUpdates`: for fewer repositories than about 2^63, the room of one sub-queue.
- `Bitvector.Bitvector.Resize`: does not say what bits come into view, because the code does not clear them.
- `Bitvector.Bitvector.Set`: likewise for the bits between the old end and n.
- `Bitset.Bitset.FindPrev`: requires the position to be inside the words; the code reads outside them otherwise.
- The specialised one- and two-word bitset bases, conversions to integers, the
  popcount and first-bit tables.
- Reverse iterators, `assign` and capacity management of `bitvector`.
- The other commands, JSON, reports, directory scanning and process calls.

# Runtime cores of the microTVM template project

This project models the runtime that ships with the template, core by core, and proves what
its code relies on. Protocols between threads are state machines whose steps are single atomic
operations (or critical sections under a mutex), and the results are about every state of every
run, for any number of threads. Objects that one thread updates in place are classes, with
methods proved against functions on their contents.

| Modules | What they model |
|---|---|
| FreeList, FreeListCalls | the reference-counted free list of the concurrent queue |
| DequeueProtocol | how consumers claim elements over four counters |
| ImplicitQueue, ExplicitQueue | counters and index of a sub-queue together |
| ImplicitIndex*, ExplicitIndex*, IndexBlocks, IndexGrowth | the two growable circular block indexes, and the recycling of blocks |
| ProducerHash* | the hash of implicit producers, with its chain of tables and lazy migration |
| WrappingArithmetic, ModArithmetic | machine words against unbounded counters |
| LightweightSemaphore, SemaphoreCalls, BlockingQueue | the semaphore and the blocking queue on top of it |
| JsonText, JsonRoundTrip, JsonKeys, Json | the JSON writer and reader |
| ThreadedIter* | the iterator that produces ahead in its own thread |
| PackedSeq, RpcMemory, RpcReceiver, RpcChannel, RpcExecute, RpcServer | wire format, receiver, sender, calls and server of the minimal RPC |
| Arena | the paged bump allocator the server decodes into |
| FuncRegistry, CrtHandles | the packed function table, and handles resolved through it |
| StackAllocator | the workspace allocator with its tags |
| Kernels | the generated dense kernels against their Relay program |
| Wrappers, ThreadCounting, ByteStrings | shared types and counting |

How the machines fit together: the block indexes let consumers claim published indices only;
`ImplicitQueue` and `ExplicitQueue` run the counters of `DequeueProtocol` and an index as one
machine, in which that is proved. Blocks come from and go to a pool, for which `FreeList` shows that
no block has two owners; all of them count without bound, and `WrappingArithmetic` says when the
words of the program agree. A method of a `...Calls` module runs the program text of a call, with
arbitrary steps of other threads in between, and is proved to make only steps of the machine.

Besides what every run keeps, there are results on what calls get done: elements that were claimed are
received, each once (`ImplicitQueue.EachElementIsDelivered`, `ExplicitQueue.EachElementIsDelivered`),
enqueues and dequeues end after finitely many steps (the `...Delivery` modules), and a call that runs alone
succeeds from every reachable state (`FreeList.UndisturbedTryGet`, `DequeueProtocol.UndisturbedDequeue`,
`LightweightSemaphore.UndisturbedWait`, `ProducerHashAnswers.UndisturbedCall`, `ThreadedIterRuns.UndisturbedRound`).

Where code and comments disagree, or a promise of the code has a limit, the code is modelled and
the limit is a result:

- The ring offset in a lookup is meant to keep its sign, but the division is one of unsigned
  words, since the block size is unsigned: the slot is right all the same unless the ring has more
  than 2^w / BLOCK_SIZE entries (`WrappingArithmetic.SlotIsThatOfCounting`).
- `circular_less_than` is wrong at a distance of exactly half the range
  (`WrappingArithmetic.CircularIsOrder`), which the fullness test avoids.
- JSON keys are written without escapes and read with them, so a value reads back if and only if its
  keys need none (`JsonKeys.RoundTripsIffKeysClean`).
- The registry's check for room forgets the terminator of the list, which can then clear a byte
  of the first function pointer (`FuncRegistry.AddingKeepsIffRoom`,
  `FuncRegistry.TerminatorSharesAByte`, `FuncRegistry.TightNameIsAccepted`), and empty names are counted but not listed
  (`FuncRegistry.EmptyNameIsLost`).
- Function indices from 0x8000 on collide with the mark in handles (`CrtHandles.HandleRoundTrip`).
- With the check for frees out of order, blocks of the stack allocator are not 16-byte aligned
  (`StackAllocator.AlignmentOfBlocks`), and a pointer a multiple of 2^32 away from the newest block
  is accepted for it (`StackAllocator.StackMemoryManager.Free`).

## Model

| member | source | states |
|---|---|---|
| FreeList.EveryNodeHasOnePlace | template_project/crt/include/dmlc/concurrentqueue.h:1388-1469 | In every reachable state of any number of threads, the list from the head is acyclic and every node is in exactly one place: not yet made, owned by one client, waiting to be added again, being added by one thread, or listed once. |
| FreeList.NoSharedOwner | template_project/crt/include/dmlc/concurrentqueue.h:1388-1469 | No node is ever owned by two clients, nor owned while it is listed or while another thread is adding it. |
| FreeList.PopIsSafe | template_project/crt/include/dmlc/concurrentqueue.h:1401-1444 | Free of ABA: the successor that a pop is about to install is the one the node has at that moment; when the two references are dropped the flag is clear and the word is at least two, which is what the assertion demands. |
| FreeList.NothingIsLost | template_project/crt/include/dmlc/concurrentqueue.h:1388-1469 | When no call is running, every node ever made is in the list or with a client. |
| FreeList.ChainIsUnique | template_project/crt/include/dmlc/concurrentqueue.h:1446-1469 | The words determine the list: there is one chain from a head. |
| FreeList.EveryRunKeepsInv | template_project/crt/include/dmlc/concurrentqueue.h:1388-1469 | Each reference count is the number of temporary holders plus one if listed, its flag says whether the node waits to be added; every atomic step of every thread keeps this. |
| FreeListCalls.SharedFreeList.AddKnowingRefcountIsZero | template_project/crt/include/dmlc/concurrentqueue.h:1446-1469 | The retry loop as written, other threads running between any two atomic operations; each operation is a step of the machine, so the invariant holds throughout, and the caller keeps what it owns. When it returns, just this node has been pushed, or left to the threads that still hold it. |
| FreeListCalls.SharedFreeList.Add | template_project/crt/include/dmlc/concurrentqueue.h:1388-1399 | The same for add, called with an owned node: just that node leaves the caller, and it has been pushed, or left to the threads that hold it. |
| FreeListCalls.SharedFreeList.TryGet | template_project/crt/include/dmlc/concurrentqueue.h:1401-1444 | The same for try_get: the thread has popped at most one node, and that is the one returned, owned by the caller from then on, who loses nothing; without a node the call has popped none and has seen an empty list. |
| FreeListCalls.SharedFreeList.TakeOrRelease | template_project/crt/include/dmlc/concurrentqueue.h:1416-1440 | One attempt at the head with its reference counted: the pop and the drop of two references, or the drop of one, with the adding that may then fall to this thread. |
| FreeList.UndisturbedTryGet | template_project/crt/include/dmlc/concurrentqueue.h:1401-1444 | From every reachable state, a try_get that runs alone takes the head of the list, and null only from an empty list; its successor becomes the head. |
| FreeList.UndisturbedAdd | template_project/crt/include/dmlc/concurrentqueue.h:1388-1399 | From every reachable state, an add that runs alone makes the node the head, linked to the old one, if no thread holds it; otherwise it leaves the node to those threads, with the flag set. |
| DequeueProtocol.HeadNeverPassesTail | template_project/crt/include/dmlc/concurrentqueue.h:1902-2000 | With one producer and any number of consumers mixing single and bulk dequeues, head plus the entitlements not yet turned into claims never exceeds tail, and the optimistic count is head plus overcommit plus reservations in flight. |
| DequeueProtocol.WonAtMostTail | template_project/crt/include/dmlc/concurrentqueue.h:1938-1944 | However stale the values were on which consumers decided, all tickets won together are at most what was published. |
| DequeueProtocol.WinKeepsBound | template_project/crt/include/dmlc/concurrentqueue.h:1936-1961 | The global argument: the highest winning ticket, corrected by the lost tickets below it, bounds all that was won, and a further win keeps that. |
| DequeueProtocol.EachElementIsClaimedOnce | template_project/crt/include/dmlc/concurrentqueue.h:2209-2235 | Claims are of published indices and a later claim lies wholly behind an earlier one. |
| DequeueProtocol.DeliveryIsFifo | template_project/crt/include/dmlc/concurrentqueue.h:1902-2000 | The elements claimed so far, in the order of the claims, are the first headIndex elements that were enqueued. |
| DequeueProtocol.UndisturbedDequeue | template_project/crt/include/dmlc/concurrentqueue.h:1902-2000 | With no reservation in flight a call that runs alone obtains the smaller of what it asks for and what there is; it fails only on an empty sub-queue, whatever races there were before. |
| DequeueProtocol.EveryRunKeepsInv | template_project/crt/include/dmlc/concurrentqueue.h:1902-2000 | Every atomic operation of every thread keeps the ticket accounts. |
| ImplicitQueue.ClaimIsPublished | template_project/crt/include/dmlc/concurrentqueue.h:2531-2546 | In the whole of counters and index, the claim that the fetch_add on the head makes without looking at the tail is one of published elements, which is what the index machine demands of its claims. |
| ImplicitQueue.StepIsOfBoth | template_project/crt/include/dmlc/concurrentqueue.h:2527-2595 | Every step of the whole is a step of the dequeue protocol or none, and a step of the index machine or none: what is proved of their runs holds of the whole. |
| ImplicitQueue.ElementsAreDequeuedOnceAndRight | template_project/crt/include/dmlc/concurrentqueue.h:2527-2595 | With consumers racing over the counters, no lookup fails, what is received for an index is what was enqueued there, and the claims made are of the oldest elements, each once, in order. |
| ImplicitQueue.EachElementIsDelivered | template_project/crt/include/dmlc/concurrentqueue.h:2527-2595 | Nothing claimed is lost: once no consumer is on its way, the indices received are just those below the head, each once, with the elements that were enqueued there. |
| ImplicitQueue.ElementsAreConserved | template_project/crt/include/dmlc/concurrentqueue.h:2527-2595 | At every moment each claimed index has either been received once or is still to be read by one consumer, and no other index was received. |
| ExplicitQueue.ClaimIsPublished | template_project/crt/include/dmlc/concurrentqueue.h:1936-1961 | The same for the claims of an explicit producer. |
| ExplicitQueue.StepIsOfBoth | template_project/crt/include/dmlc/concurrentqueue.h:1902-2000 | The same for the steps. |
| ExplicitQueue.ElementsAreDequeuedOnceAndRight | template_project/crt/include/dmlc/concurrentqueue.h:1902-2000 | The same for the elements. |
| ExplicitQueue.EachElementIsDelivered | template_project/crt/include/dmlc/concurrentqueue.h:1902-2000 | The same for the delivery. |
| ExplicitQueue.ElementsAreConserved | template_project/crt/include/dmlc/concurrentqueue.h:1902-2000 | The same for the conservation. |
| ImplicitIndexRuns.LookupsNeverFail | template_project/crt/include/dmlc/concurrentqueue.h:2939-2957 | Every lookup finds a valid key at the tail and a block in its slot, across out-of-order emptying, rewinds and growth. |
| ImplicitIndexRuns.LookupFindsTheBlock | template_project/crt/include/dmlc/concurrentqueue.h:2543-2595 | The block a consumer found is the live block of its index, with every published element of that block in place, and in no pool. |
| ImplicitIndexRuns.EveryElementIsRight | template_project/crt/include/dmlc/concurrentqueue.h:2527-2595 | What is received for an index is the element that was enqueued there. |
| ImplicitIndexRuns.LiveEntriesAreIntact | template_project/crt/include/dmlc/concurrentqueue.h:2896-2925 | In every header that may still be asked, the entry of a live block has its key and its block: it is never overwritten. |
| ImplicitIndexRuns.KeysAreSpaced | template_project/crt/include/dmlc/concurrentqueue.h:2939-2957 | Keys in the current ring are as far apart as their positions, and within one turn of each other. |
| ImplicitIndexRuns.BlocksAreNotShared | template_project/crt/include/dmlc/concurrentqueue.h:2484-2520 | Blocks in use are distinct and neither in the pool nor with another producer. |
| ImplicitIndexRuns.ReturnedExactlyOnce | template_project/crt/include/dmlc/concurrentqueue.h:1527-1576 | Each published block is returned once: never before its last element is counted; afterwards by exactly one thread, which is on the way until it has done so. |
| ImplicitIndexInvariant.IndexGrows | template_project/crt/include/dmlc/concurrentqueue.h:2959-3004 | Moving into the ring of twice the size keeps the index invariant: blocks keep their entries at the positions that old and new header compute for them. |
| ImplicitIndexConsumers.SlotIsRight | template_project/crt/include/dmlc/concurrentqueue.h:2943-2956 | Whichever valid key the tail has, the slot computed from it is that of the block, anywhere in the ring. |
| ImplicitIndexRuns.ApplyKeeps | template_project/crt/include/dmlc/concurrentqueue.h:2461-2595 | Every step of producer and consumers keeps the invariant, the bulk enqueue with its undoing included (2598-2760). |
| ImplicitIndexDelivery.ElementsAreConserved | template_project/crt/include/dmlc/concurrentqueue.h:2762-2890 | In every run of the index machine: for each index below the head, the times it was received and the threads that have yet to read it add up to one; for all others to none. |
| ImplicitIndexDelivery.EachElementIsReceivedOnce | template_project/crt/include/dmlc/concurrentqueue.h:2808-2813 | With no consumer busy, every claimed element was received once, as enqueued. |
| ImplicitIndexDelivery.ConsumingEnds | template_project/crt/include/dmlc/concurrentqueue.h:2527-2595 | Every step of a consumer brings it closer to the end of its claim; none is repeated forever. |
| ImplicitIndexDelivery.EnqueueEnds | template_project/crt/include/dmlc/concurrentqueue.h:2461-2520 | Every step of an enqueue, single or bulk (2598-2760), brings it closer to its end, which is to have published all its elements; it gives up only for want of room, index memory or a block, and then the tail is as before. |
| IndexGrowth.NewImplicitIndex | template_project/crt/include/dmlc/concurrentqueue.h:2959-3004 | The copying loops of new_block_index leave the ring that the step machine installs: the old entries in ring order from behind the tail, then fresh ones, with the tail on the last old entry. |
| ProducerHashRuns.TablesStayRoomy | template_project/crt/include/dmlc/concurrentqueue.h:3440-3531 | No table ever has three quarters of its slots taken, counting the keys copied lazily from older tables. |
| ProducerHashRuns.EveryProbeEnds | template_project/crt/include/dmlc/concurrentqueue.h:3394-3438 | Every probe loop, for looking up, copying and inserting, comes to a free slot or its key before it has passed all slots. |
| ProducerHashRuns.IdOncePerTable | template_project/crt/include/dmlc/concurrentqueue.h:3408-3429 | A thread id stands in one slot of a table at most. |
| ProducerHashRuns.ThreadKeepsItsProducer | template_project/crt/include/dmlc/concurrentqueue.h:3375-3531 | All calls of one thread that return a producer return the same one, across any number of resizes. |
| ProducerHashRuns.ProducersAreNotShared | template_project/crt/include/dmlc/concurrentqueue.h:3485-3524 | Two threads never get the same producer. |
| ProducerHashRuns.InstalledIsFound | template_project/crt/include/dmlc/concurrentqueue.h:3393-3441 | A search that ends with an answer ends with the producer its thread installed, and a thread with a producer is never counted again. |
| ProducerHashAnswers.NullIffAllocationFailed | template_project/crt/include/dmlc/concurrentqueue.h:3461-3490 | In every run, the answer to a call is null if and only if an allocation of a table or a producer failed during that very call. |
| ProducerHashAnswers.UndisturbedCall | template_project/crt/include/dmlc/concurrentqueue.h:3375-3531 | From every reachable state with the lock free: a call that runs alone and whose allocations succeed ends with the producer of its thread, which stands beside the id in the newest table, whether the thread was new, known there, or known in an older table. |
| ProducerHashAnswers.UndisturbedCallEnds | template_project/crt/include/dmlc/concurrentqueue.h:3440-3531 | The same from the middle of any call in which nothing has failed, other threads being anywhere but in the lock: it ends, with the producer of its thread. |
| ProducerHashRuns.NoTableIsLost | template_project/crt/include/dmlc/concurrentqueue.h:3465-3479 | The newest table is the current one and the chain from it leads through all tables. |
| ProducerHashRuns.RoomAfterGrowing | template_project/crt/include/dmlc/concurrentqueue.h:3450-3454 | The size to which a table grows leaves room for the thread that has just counted itself. |
| ProducerHashProof.FewKeys | template_project/crt/include/dmlc/concurrentqueue.h:3441-3495 | The counting argument: threads that have, or will have, a key in a table are fewer than its room. |
| ProducerHashProof.ProbesAreShort | template_project/crt/include/dmlc/concurrentqueue.h:3503-3522 | In a table with a free slot no probe passes as many slots as there are. |
| ExplicitIndexRuns.ListIsIndexWindow | template_project/crt/include/dmlc/concurrentqueue.h:1799-1899 | Between enqueues the circular list, walked from the block behind tailBlock, is block by block the last pr_blockIndexSlotsUsed index entries, whose bases are consecutive. |
| ExplicitIndexRuns.ReuseIsOfEmptiedBlock | template_project/crt/include/dmlc/concurrentqueue.h:1806-1816 | A block is taken again only when all its elements have been dequeued completely; it is the oldest of the window. |
| ExplicitIndexDelivery.EmptyBlockIsTakenAgain | template_project/crt/include/dmlc/concurrentqueue.h:1806-1816 | The converse: once all elements of the oldest block are dequeued completely, the check of its flags goes through and that block is taken. |
| ExplicitIndexRuns.LookupsNeverFail | template_project/crt/include/dmlc/concurrentqueue.h:1953-1975 | Every lookup comes upon entries that were written. |
| ExplicitIndexRuns.LookupFindsTheBlock | template_project/crt/include/dmlc/concurrentqueue.h:1953-1975 | The block a consumer found is the one its elements were constructed in. |
| ExplicitIndexRuns.EveryElementIsRight | template_project/crt/include/dmlc/concurrentqueue.h:1967-1990 | What is received for an index is the element that was enqueued there. |
| ExplicitIndexDelivery.ElementsAreConserved | template_project/crt/include/dmlc/concurrentqueue.h:2209-2327 | For each index below the head, the times it was received and the threads that have yet to read it add up to one; for all others to none. |
| ExplicitIndexDelivery.EachElementIsReceivedOnce | template_project/crt/include/dmlc/concurrentqueue.h:1967-1990 | With no consumer busy, every claimed element was received once, as enqueued. |
| ExplicitIndexDelivery.ConsumingEnds | template_project/crt/include/dmlc/concurrentqueue.h:1953-1990 | Every step of a consumer brings it closer to having all elements of its claim and having set their flags. |
| ExplicitIndexDelivery.EnqueueEnds | template_project/crt/include/dmlc/concurrentqueue.h:1799-1899 | Every step of an enqueue brings it closer to its end, and it ends with its element published unless it wanted for room, index memory or a block. |
| ExplicitIndexRuns.GrowingKeepsTheWindow | template_project/crt/include/dmlc/concurrentqueue.h:2329-2368 | After growing, the new index holds the window from its start, in order, and nothing else. |
| IndexGrowth.NewExplicitIndex | template_project/crt/include/dmlc/concurrentqueue.h:2329-2368 | The copying loop of new_block_index yields the entries the step machine installs; it stops after exactly the slots in use, also when the ring is full and it starts where it must stop. |
| WrappingArithmetic.CircularIsOrder | template_project/crt/include/dmlc/concurrentqueue.h:413-430 | Up to half the range apart, words compare as the counters do, except when the second is exactly half the range ahead. |
| WrappingArithmetic.LeewayKeepsDistance | template_project/crt/include/dmlc/concurrentqueue.h:1820-1835 | The fullness test admits a block exactly when the counters stay within half the range. |
| WrappingArithmetic.DesiredIsPositive | template_project/crt/include/dmlc/concurrentqueue.h:2211-2216 | The difference of three words in a bulk dequeue is positive exactly when there are more elements than settled reservations, and is then their number. |
| WrappingArithmetic.BaseOfWord | template_project/crt/include/dmlc/concurrentqueue.h:2943-2943 | Masking the word of an index gives the word of the base of its block. |
| WrappingArithmetic.UnsignedQuotient | template_project/crt/include/dmlc/concurrentqueue.h:2951-2953 | What the division by the block size makes of a negative distance, the division being one of unsigned words. |
| WrappingArithmetic.SlotIsThatOfCounting | template_project/crt/include/dmlc/concurrentqueue.h:2943-2954 | The masked slot is the true slot modulo the capacity, if and only if the index is not behind the tail or the ring has at most 2^w / BLOCK_SIZE slots. |
| WrappingArithmetic.CeilIsLeastPower | template_project/crt/include/dmlc/concurrentqueue.h:433-448 | ceil_to_pow_2 gives the least power of two that is not below its argument, and zero for zero and for arguments above the largest power. |
| WrappingArithmetic.CeilToPow2InPlace | template_project/crt/include/dmlc/concurrentqueue.h:433-448 | The smearing loops compute it, for words of any width that is a power of two bytes. |
| WrappingArithmetic.MaskIsRemainder | template_project/crt/include/dmlc/concurrentqueue.h:2905-2906 | And-ing with a power of two minus one is the remainder. |
| WrappingArithmetic.InverseMaskDropsRemainder | template_project/crt/include/dmlc/concurrentqueue.h:2943-2943 | And-ing with the inverted mask takes the remainder away. |
| WrappingArithmetic.FirstSizeIsPow2 | template_project/crt/include/dmlc/concurrentqueue.h:1716-1722 | The first index size is a power of two, and at least the configured one, for every pool size. |
| WrappingArithmetic.DoublingKeepsPow2 | template_project/crt/include/dmlc/concurrentqueue.h:2333-2333 | Doubling keeps sizes powers of two. |
| LightweightSemaphore.PermitsAreConserved | template_project/crt/include/dmlc/blockingconcurrentqueue.h:266-341 | Spent, held, free, posted and about-to-be-posted permits together are the initial and signalled ones, in every reachable state. |
| LightweightSemaphore.WaitersAreAccountedFor | template_project/crt/include/dmlc/blockingconcurrentqueue.h:266-341 | Committed waiters are as many as the count is below zero plus kernel permits plus releases not yet posted. |
| LightweightSemaphore.NoWakeupIsLost | template_project/crt/include/dmlc/blockingconcurrentqueue.h:293-341 | With no release under way, a waiter without a kernel permit implies a negative count, and a waiter in the loop after a timeout that sees a count at or above zero gets out with its next attempt. |
| LightweightSemaphore.ReleasesFitAnInt | template_project/crt/include/dmlc/blockingconcurrentqueue.h:402-411 | A signal releases no more threads than wait, so the conversion to int is exact. |
| LightweightSemaphore.EveryRunKeepsInv | template_project/crt/include/dmlc/blockingconcurrentqueue.h:266-411 | Every operation, spurious failures and timeouts included, keeps the accounts. |
| LightweightSemaphore.UndisturbedWait | template_project/crt/include/dmlc/blockingconcurrentqueue.h:372-400 | From every state: a wait that runs alone takes the smaller of the count and max, in two operations; only a waiting call that finds no permit goes on from there. |
| SemaphoreCalls.Semaphore.TryWaitMany | template_project/crt/include/dmlc/blockingconcurrentqueue.h:372-383 | The loop as written, with other threads between any two operations: each operation is a step of the machine; its exchange takes the smaller of max and the count it saw, once, and it takes nothing only when it saw no permit. |
| SemaphoreCalls.Semaphore.WaitManyWithPartialSpinning | template_project/crt/include/dmlc/blockingconcurrentqueue.h:305-341 | The same for the waiting path: at least one and at most max permits unless the wait is timed. |
| SemaphoreCalls.Semaphore.AfterTimeout | template_project/crt/include/dmlc/blockingconcurrentqueue.h:321-337 | The loop after a timeout ends with the kernel permit or with the count adjusted back. |
| SemaphoreCalls.Semaphore.WaitMany | template_project/crt/include/dmlc/blockingconcurrentqueue.h:386-400 | The same for the whole bulk wait. |
| SemaphoreCalls.Semaphore.Signal | template_project/crt/include/dmlc/blockingconcurrentqueue.h:402-411 | Adds its number to the count once and posts once for each waiter that the count before the addition allows it to release, and nothing else; each operation is a step of the machine. |
| SemaphoreCalls.Semaphore.PostMany | template_project/crt/include/dmlc/blockingconcurrentqueue.h:165-171 | The loop that posts: as many posts as asked for. |
| BlockingQueue.ElementsCoverPermits | template_project/crt/include/dmlc/blockingconcurrentqueue.h:525-588 | In every reachable state the inner queue has at least as many elements as permits were granted and not yet used, for single and bulk calls. |
| BlockingQueue.RetryingFindsElements | template_project/crt/include/dmlc/blockingconcurrentqueue.h:696-767 | A thread that retries on the inner queue finds it to hold all it still has permits for. |
| BlockingQueue.SleepingMeansNothingLeft | template_project/crt/include/dmlc/blockingconcurrentqueue.h:845-871 | Once all signals are through, a thread sleeps only when every element left belongs to a permit of another thread. |
| BlockingQueue.StableSizeIsExact | template_project/crt/include/dmlc/blockingconcurrentqueue.h:936-939 | With no call running, size_approx is the number of elements. |
| JsonRoundTrip.RoundTrip | template_project/crt/include/dmlc/json.h:408-451 | For every type built of integers, strings, vectors, pairs and maps, every value of it with clean keys, and every layout: reading what was written, with anything behind it, gives the value and leaves just what was behind. |
| JsonRoundTrip.RenderIsInjective | template_project/crt/include/dmlc/json.h:408-451 | No text stands for two values, whatever the layouts. |
| JsonRoundTrip.EscapedReadsBack | template_project/crt/include/dmlc/json.h:675-712 | A string of any characters survives escaping and reading. |
| JsonRoundTrip.NumberReadsBack | template_project/crt/include/dmlc/json.h:715-728 | A number within the range of its type reads back when no digit follows. |
| JsonRoundTrip.KeyReadsBackIffClean | template_project/crt/include/dmlc/json.h:880-891 | A key, which is written without escapes, reads back if and only if it has no quote, backslash, CR or LF. |
| JsonRoundTrip.UncleanFirstKeyIsLost | template_project/crt/include/dmlc/json.h:880-891 | A map whose first key is not clean never reads back, whatever else it holds and whatever follows it. |
| JsonKeys.RoundTripsIffKeysClean | template_project/crt/include/dmlc/json.h:408-451 | For every type, value and layout: the value comes back and just its text is consumed if and only if no key at any depth has a quote, backslash, CR or LF; maps count as equal in whatever order they are listed. |
| JsonKeys.UncleanKeysAreLost | template_project/crt/include/dmlc/json.h:880-891 | With an unclean key anywhere, whatever is read without using up escapes that follow the text takes fewer escapes than the value that was written, so it is another value. |
| JsonKeys.ParseUses | template_project/crt/include/dmlc/json.h:675-712 | Whatever a text is taken for, the strings and keys that are read use up escapes of the text, no two of them the same. |
| JsonKeys.RenderProvides | template_project/crt/include/dmlc/json.h:820-891 | The text of a value provides just the escapes that its strings take, and for its keys too few by the number of their unclean characters. |
| Json.WriteThenRead | template_project/crt/include/dmlc/json.h:730-920 | The writer and reader objects together: the value comes back and the reader stops right behind the text. |
| Json.JSONWriter.Write | template_project/crt/include/dmlc/json.h:907-912 | The writer appends the text of the value in the current scopes and leaves its scope stacks as they were. |
| Json.JSONWriter.WriteString | template_project/crt/include/dmlc/json.h:820-834 | Appends the quoted and escaped string. |
| Json.JSONWriter.Begin | template_project/crt/include/dmlc/json.h:845-849 | Opens a scope and remembers whether it is on several lines. |
| Json.JSONWriter.End | template_project/crt/include/dmlc/json.h:851-860 | Closes a scope with the line break and indentation that its layout and content call for; fails with no scope open. |
| Json.JSONWriter.WriteSeparator | template_project/crt/include/dmlc/json.h:915-920 | A line break and the indentation, unless the innermost scope is on one line. |
| Json.JSONWriter.WriteArrayItem | template_project/crt/include/dmlc/json.h:893-905 | A comma except before the first item, separator and item; the item is counted. |
| Json.JSONWriter.WriteObjectKeyValue | template_project/crt/include/dmlc/json.h:880-891 | The same for a key and its value; the key is not escaped. |
| Json.JSONWriter.WriteVec | template_project/crt/include/dmlc/json.h:410-418 | The handler of arrays renders the vector, on several lines when it has more than ten items or items that are not plain. |
| Json.JSONWriter.WritePair | template_project/crt/include/dmlc/json.h:479-484 | The handler of pairs. |
| Json.JSONWriter.WriteMap | template_project/crt/include/dmlc/json.h:433-439 | The handler of maps. |
| Json.JSONReader.Read | template_project/crt/include/dmlc/json.h:810-812 | Reading a value of a type consumes what the parsing function consumes and returns its value or its error; the scope stack is restored. |
| Json.JSONReader.ReadString | template_project/crt/include/dmlc/json.h:675-712 | The character loop with its escapes, its errors and its treatment of line breaks. |
| Json.JSONReader.NextArrayItem | template_project/crt/include/dmlc/json.h:780-807 | Whether another item follows, with the comma, the end of the scope and each error. |
| Json.JSONReader.NextObjectItem | template_project/crt/include/dmlc/json.h:746-778 | The same for objects, with key and colon. |
| Json.JSONReader.ReadVec | template_project/crt/include/dmlc/json.h:419-430 | The handler of arrays clears and fills the vector. |
| Json.JSONReader.ReadPair | template_project/crt/include/dmlc/json.h:485-494 | The handler of pairs: two items and the end of the array. |
| Json.JSONReader.ReadMap | template_project/crt/include/dmlc/json.h:440-451 | The handler of maps: a repeated key overwrites. |
| ThreadedIterRuns.NextReturnsAPrefix | template_project/crt/include/dmlc/threadediter.h:441-471 | What Next returned since the last completed BeforeFirst is a prefix of the sequence, in order and without gaps, for any number of consumers. |
| ThreadedIterRuns.EndMeansAll | template_project/crt/include/dmlc/threadediter.h:449-470 | With the end stored and the queue empty the sequence is finite and all of it was returned, and Next returns without an item. |
| ThreadedIterRuns.NextAnswers | template_project/crt/include/dmlc/threadediter.h:441-471 | Whatever the state, Next does one of three things: it returns the next item of the sequence in a cell that is the consumers' from then on, or it returns false, and then the sequence is finite and was returned completely, or it sleeps, and then all that was produced was returned and the end has not been found. |
| ThreadedIterRuns.UndisturbedRound | template_project/crt/include/dmlc/threadediter.h:336-436 | A round of the producer does what the signal asks: the next item goes to the end of the queue in a free or a new cell, or the end is found and nothing is queued; or everything starts over and all queued cells are free; or the thread ends. Waiting consumers are notified. |
| ThreadedIterRuns.ResetIsAwaited | template_project/crt/include/dmlc/threadediter.h:207-232 | BeforeFirst returns only when the producer has started over and nothing was taken since, unless the iterator is being destroyed. |
| ThreadedIterRuns.EachCellHasOnePlace | template_project/crt/include/dmlc/threadediter.h:336-403 | Every cell ever allocated is queued, free, with the producer, with a consumer or deleted, exactly one of them, once. |
| ThreadedIterRuns.CellsAreBounded | template_project/crt/include/dmlc/threadediter.h:336-358 | There are never more cells than max_capacity plus the most that consumers held at once. |
| ThreadedIterRuns.ChecksHold | template_project/crt/include/dmlc/threadediter.h:445-449 | The check in Next against a concurrent BeforeFirst and the check in BeforeFirst on an earlier answer hold. |
| ThreadedIterRuns.NeverBothAsleep | template_project/crt/include/dmlc/threadediter.h:336-403 | While the producer sleeps and no notification is under way there is nothing for it to do, and (with a capacity above zero) no consumer sleeps. |
| ThreadedIterRuns.ConsumersAreNotified | template_project/crt/include/dmlc/threadediter.h:384-436 | A sleeping consumer for whom there is an item, the end or a finished reset is about to be notified. |
| ThreadedIterRuns.DestroyDeletesTheRest | template_project/crt/include/dmlc/threadediter.h:282-313 | When Destroy returns the producer has ended and every cell is deleted once or still with a consumer. |
| ThreadedIterRuns.ApplyKeeps | template_project/crt/include/dmlc/threadediter.h:207-232 | Every critical section and every notification keeps the invariant, the reset handshake included. |
| PackedSeq.SeqRoundTrip | template_project/crt/src/runtime/minrpc/rpc_reference.h:298-373 | Every argument list that the sender accepts, for either kind of sender, reads back as it was, and just the bytes sent are consumed. |
| PackedSeq.ArgRoundTrip | template_project/crt/src/runtime/minrpc/rpc_reference.h:386-470 | The same for one argument of any accepted type code. |
| PackedSeq.TensorRoundTrip | template_project/crt/src/runtime/minrpc/rpc_reference.h:237-272 | The same for a tensor without strides. |
| PackedSeq.UnknownCodeIsRefused | template_project/crt/src/runtime/minrpc/rpc_reference.h:398-466 | The reader refuses exactly the type codes that no sender sends. |
| RpcReceiver.Receiver.RecvPackedSeq | template_project/crt/src/runtime/minrpc/rpc_reference.h:386-470 | Reading a list through the arena: the arguments in memory are those of the bytes, which are consumed exactly, in regions of their own; on a short stream, an unknown code or a lack of memory the server stops with that failure. |
| RpcReceiver.Receiver.ReceiveTensor | template_project/crt/src/runtime/minrpc/rpc_reference.h:258-272 | A tensor is built in arena memory, with its shape behind a pointer, field by field in the order of the wire. |
| RpcReceiver.ArgsAreApart | template_project/crt/src/runtime/minrpc/rpc_reference.h:386-470 | Two received arguments share no byte of memory. |
| RpcMemory.ArgStays | template_project/crt/src/runtime/minrpc/rpc_reference.h:386-470 | Writes outside of what an argument occupies leave it as it is. |
| RpcReceiver.StoredGrows | template_project/crt/src/runtime/minrpc/rpc_reference.h:386-470 | A list that was received stays intact while later regions are handed out. |
| RpcReceiver.Receiver.ReadRawBytes | template_project/crt/src/runtime/minrpc/minrpc_server.h:756-775 | However the stream is cut, the next bytes are delivered; at its end the server shuts down cleanly between packets and fails within one. |
| RpcChannel.Channel.WriteRawBytes | template_project/crt/src/runtime/minrpc/minrpc_server.h:149-160 | However the bytes are taken, they are written once and in order, all of them unless a write fails; then a proper part is out and the program ends with the write error. |
| RpcChannel.Channel.SendPackedSeq | template_project/crt/src/runtime/minrpc/rpc_reference.h:298-373 | Sends exactly the bytes of the list, or throws the status of the first argument it refuses, unless a write fails first. |
| RpcChannel.Channel.SendDLTensor | template_project/crt/src/runtime/minrpc/rpc_reference.h:237-255 | Sends the bytes of the tensor, or refuses strides, unless a write fails first. |
| RpcChannel.Channel.PackedSeqGetNumBytes | template_project/crt/src/runtime/minrpc/rpc_reference.h:229-234 | The counting sender, the same code over a counting channel, gives the length of what the writing sender writes. |
| RpcChannel.FrameIsInStep | template_project/crt/src/runtime/minrpc/rpc_reference.h:480-518 | Every reply announces the number of bytes that follow it: a reader takes the reply out of a longer stream and is at what comes next. |
| RpcChannel.ReplyReadsBack | template_project/crt/src/runtime/minrpc/rpc_reference.h:480-518 | The payload of a reply reads back as its arguments. |
| RpcChannel.RepliesReadBack | template_project/crt/src/runtime/minrpc/rpc_reference.h:480-518 | A client that takes frame after frame from a stream of replies finds each reply, whatever follows the stream. |
| RpcChannel.Channel.ReturnVoid | template_project/crt/src/runtime/minrpc/minrpc_server.h:72-85 | Writes the framed void reply. |
| RpcChannel.Channel.ReturnHandle | template_project/crt/src/runtime/minrpc/minrpc_server.h:87-102 | Writes the framed handle. |
| RpcChannel.Channel.ReturnException | template_project/crt/src/runtime/minrpc/rpc_reference.h:480-503 | Writes the framed exception with its message. |
| RpcChannel.Channel.ReturnPackedSeq | template_project/crt/src/runtime/minrpc/rpc_reference.h:506-518 | Writes the framed list; a refused list is found while it is counted, before any byte is written. |
| RpcChannel.Channel.ReturnCopyFromRemote | template_project/crt/src/runtime/minrpc/minrpc_server.h:110-119 | Writes the framed data. |
| RpcServer.MinRpcServer.ProcessOnePacket | template_project/crt/src/runtime/minrpc/minrpc_server.h:582-626 | A well-formed frame is consumed to its last byte, makes the calls it asks for and is answered as it asks: nothing for the empty frame, the end for a shutdown, one reply or a refusal otherwise; a copy to the host leaves its data in memory. |
| RpcServer.ServeAll | template_project/crt/src/runtime/minrpc/minrpc_server.h:582-626 | A stream of well-formed requests is consumed frame by frame without drift; what is written are the answers to the requests served, each the one its request and the runtime ask for, in order, and their calls are made in order. All are served unless there is a shutdown, a refusal, no memory or a failed write, after which just a part of the next reply may be out. |
| RpcServer.RepliedIffPasses | template_project/crt/src/runtime/minrpc/minrpc_server.h:182-325 | A request is replied to if and only if it passes its checks and the sender accepts its result. |
| RpcServer.OneReplyEach | template_project/crt/src/runtime/minrpc/minrpc_server.h:582-626 | There is exactly one reply to each served request that is not empty. |
| RpcServer.ClientReadsAnswers | template_project/crt/src/runtime/minrpc/rpc_reference.h:480-518 | A client reads the answers back one by one, in order and without drift, for outcomes the C types can hold and copies whose length can be announced. |
| RpcServer.AnswerFits | template_project/crt/src/runtime/minrpc/minrpc_server.h:72-125 | Every reply can announce its length, under these conditions. |
| RpcServer.CopyThereAndBack | template_project/crt/src/runtime/minrpc/minrpc_server.h:656-715 | Data copied to the memory of the host and copied back by a second request are the same, unless they lie where the arena makes room for that request. |
| RpcServer.FrameStarts | template_project/crt/src/runtime/minrpc/minrpc_server.h:582-595 | How a frame begins, and that only the empty frame announces no bytes. |
| RpcServer.ContentReadsBack | template_project/crt/src/runtime/minrpc/minrpc_server.h:645-724 | What the handlers read of a frame is its request, and they leave what is behind it. |
| RpcServer.MinRpcServer.HandleNormalCallFunc | template_project/crt/src/runtime/minrpc/minrpc_server.h:645-654 | Reads handle and arguments, passes them to the runtime and replies with what the call returned. |
| RpcServer.MinRpcServer.HandleCopyFromRemote | template_project/crt/src/runtime/minrpc/minrpc_server.h:656-680 | Reads tensor and size and replies with the data, those of a device copied to arena memory first; on the host, memory outside of the arena stays. |
| RpcServer.MinRpcServer.HandleCopyToRemote | template_project/crt/src/runtime/minrpc/minrpc_server.h:682-715 | Reads tensor, size and data and replies with nothing or the failure; on the host, the data are at their place and memory outside of the arena is otherwise as it was. |
| RpcServer.MinRpcServer.HandleSyscallFunc | template_project/crt/src/runtime/minrpc/minrpc_server.h:717-724 | Reads the arguments and answers by the system call. |
| RpcServer.MinRpcServer.ReadTensor | template_project/crt/src/runtime/minrpc/minrpc_server.h:656-667 | The tensor read from the stream is in arena memory, field by field, and memory outside of the arena is as it was. |
| RpcExecute.MinRpcExecute.SysCallFunc | template_project/crt/src/runtime/minrpc/minrpc_server.h:270-325 | Each system call makes the one call that its arguments give, if their type codes are among its signatures, and replies with its handle, nothing or the error; otherwise it refuses, or says that it is not supported. |
| RpcExecute.MeantAsks | template_project/crt/src/runtime/minrpc/minrpc_server.h:270-325 | For every system call that a client can mean, with its arguments by name: the runtime is asked for just the operation it stands for, and the reply is its error, its handle if it makes one, or nothing. |
| RpcExecute.PassesIffMeant | template_project/crt/src/runtime/minrpc/minrpc_server.h:270-509 | Arguments pass the checks if and only if they are those of a system call that a client can mean. |
| RpcServer.ServeSyscall | template_project/crt/src/runtime/minrpc/minrpc_server.h:717-724 | The same for the frame on the wire: it is consumed to its end, the runtime gets the call meant and no other, and the framed reply is written. |
| RpcExecute.FreeingAsks | template_project/crt/src/runtime/minrpc/minrpc_server.h:327-350 | A handle is freed by the call of its kind: array, function or module. |
| RpcExecute.GettingAsks | template_project/crt/src/runtime/minrpc/minrpc_server.h:352-363 | The function of that name is asked for, and its handle replied. |
| RpcExecute.CopyingAsks | template_project/crt/src/runtime/minrpc/minrpc_server.h:365-386 | From the first tensor to the second, on the stream. |
| RpcExecute.AllocatingAsks | template_project/crt/src/runtime/minrpc/minrpc_server.h:388-408 | That many bytes at that alignment on the device; the reply is the handle. |
| RpcExecute.AllocatingWithScopeAsks | template_project/crt/src/runtime/minrpc/minrpc_server.h:410-425 | Space for the tensor, in the scope of that name if one is given; the reply is the handle. |
| RpcExecute.DeviceCallsAsk | template_project/crt/src/runtime/minrpc/minrpc_server.h:427-509 | Freeing data and the four operations on streams: on the device and handle given; only a created stream is replied. |
| RpcExecute.MinRpcExecute.SyscallFreeHandle | template_project/crt/src/runtime/minrpc/minrpc_server.h:327-350 | The checks one after the other, and the choice by the kind of the handle, amount to its signature and the three kinds. |
| RpcExecute.MinRpcExecute.SyscallGetGlobalFunc | template_project/crt/src/runtime/minrpc/minrpc_server.h:352-363 | The checks amount to its signature; the name reaches the runtime. |
| RpcExecute.MinRpcExecute.SyscallCopyAmongRemote | template_project/crt/src/runtime/minrpc/minrpc_server.h:365-386 | The checks amount to its signature; both tensors and the stream reach the runtime. |
| RpcExecute.MinRpcExecute.SyscallDevAllocData | template_project/crt/src/runtime/minrpc/minrpc_server.h:388-408 | The checks amount to its signature, and the call made is that of the table of system calls, which AllocatingAsks pins argument by argument. |
| RpcExecute.MinRpcExecute.SyscallDevAllocDataWithScope | template_project/crt/src/runtime/minrpc/minrpc_server.h:410-425 | The checks amount to its two signatures, with and without a scope. |
| RpcExecute.MinRpcExecute.SyscallDevFreeData | template_project/crt/src/runtime/minrpc/minrpc_server.h:427-442 | The checks amount to its signature; device and handle reach the runtime. |
| RpcExecute.MinRpcExecute.SyscallDevCreateStream | template_project/crt/src/runtime/minrpc/minrpc_server.h:444-458 | The checks amount to its signature; the device reaches the runtime. |
| RpcExecute.MinRpcExecute.SyscallDevFreeStream | template_project/crt/src/runtime/minrpc/minrpc_server.h:460-475 | The checks amount to its signature; device and stream reach the runtime. |
| RpcExecute.MinRpcExecute.SyscallDevStreamSync | template_project/crt/src/runtime/minrpc/minrpc_server.h:477-492 | The checks amount to its signature; device and stream reach the runtime. |
| RpcExecute.MinRpcExecute.SyscallDevSetStream | template_project/crt/src/runtime/minrpc/minrpc_server.h:494-509 | The checks amount to its signature; device and stream reach the runtime. |
| RpcExecute.MinRpcExecute.NormalCallFunc | template_project/crt/src/runtime/minrpc/minrpc_server.h:182-212 | Calls the function with the handle and arguments given and replies with its value behind the type code, handles made opaque and arrays as tensor and handle; a byte array is freed once it is sent. |
| RpcExecute.ValuesAreReturned | template_project/crt/src/runtime/minrpc/minrpc_server.h:182-212 | What a client receives for each kind of value: null, bytes and strings as they are, functions and modules as opaque handles behind their code, arrays with their tensor and a handle, errors as their text. |
| RpcExecute.MinRpcExecute.CopyFromRemote | template_project/crt/src/runtime/minrpc/minrpc_server.h:214-237 | A copy from a device waits for its end before the data are sent, or replies with the error of either call. |
| RpcExecute.MinRpcExecute.CopyToRemote | template_project/crt/src/runtime/minrpc/minrpc_server.h:239-268 | The same for a copy to a device. |
| RpcServer.MinRpcServer.HandleInitServer | template_project/crt/src/runtime/minrpc/minrpc_server.h:628-638 | Reads version and arguments, of which there must be none. |
| Arena.GenericArena.Alloc | template_project/crt/src/support/generic_arena.h:147-170 | A new region is aligned, inside its page behind the header, and apart from all regions since the last recycle: in the newest page if it fits there, else in the first free page if it fits there, else in a new one; no other page is touched. |
| Arena.GenericArena.RecycleAll | template_project/crt/src/support/generic_arena.h:86-95 | All pages but the newest become free, in order; none is lost or listed twice and none is released. |
| Arena.GenericArena.FreeAll | template_project/crt/src/support/generic_arena.h:81-84 | Every page is given back, each of them once. |
| Arena.GenericArena.FreePageList | template_project/crt/src/support/generic_arena.h:171-178 | The pages of the list and no others are given back, each while still live. |
| Arena.GenericArena.constructor | template_project/crt/src/support/generic_arena.h:70-74 | One page is in use from the start and the tail pointer is on it. |
| Arena.UpperAlignIsLeast | template_project/crt/src/support/generic_arena.h:139-141 | The least multiple of the alignment that is not below the offset. |
| Arena.RecycledLists | template_project/crt/src/support/generic_arena.h:86-95 | Joining the lists by the tail pointer leaves one page in use and the others free, with the tail pointer right again. |
| Arena.GivenGrows | template_project/crt/src/support/generic_arena.h:147-170 | A region at the end of its page is apart from all earlier ones. |
| Arena.AlignedInPage | template_project/crt/src/support/generic_arena.h:139-160 | An offset aligned within a page is an aligned address. |
| Arena.RoundedFits | template_project/crt/src/runtime/minrpc/minrpc_server.h:797-810 | The size to which the page allocator rounds is a multiple of the page size and large enough. |
| FuncRegistry.Registry.Lookup | template_project/crt/src/runtime/crt/common/func_registry.c:79-95 | The first entry of that name in the packed list, or name-not-found. |
| FuncRegistry.Registry.GetByIndex | template_project/crt/src/runtime/crt/common/func_registry.c:97-109 | The function of the entry, or index-invalid. |
| FuncRegistry.Registry.Create | template_project/crt/src/runtime/crt/common/func_registry.c:111-131 | A buffer too small for one entry is refused untouched; any other represents the empty list, with room computed from its length. |
| FuncRegistry.Registry.Set | template_project/crt/src/runtime/crt/common/func_registry.c:133-174 | Overrides, refuses or appends exactly as the list calls for, the bytes of an appended name and each refusal included; the buffer goes on representing the list, except for an empty name or one that leaves no byte for the terminator. |
| FuncRegistry.Registry.StrcmpCursor | template_project/crt/src/runtime/crt/common/func_registry.c:41-61 | Zero if and only if the names are equal; the cursor ends at the NUL in any case. |
| FuncRegistry.AddingKeepsIffRoom | template_project/crt/src/runtime/crt/common/func_registry.c:158-171 | For a new non-empty name that passes the check, the bytes represent the longer list if and only if there is a byte left for the terminator. |
| FuncRegistry.TerminatorSharesAByte | template_project/crt/src/runtime/crt/common/func_registry.c:158-171 | When the name just fits, the terminator falls on the first function pointer: the list is still represented if and only if the low byte of that pointer is zero. |
| FuncRegistry.TightNameIsAccepted | template_project/crt/src/runtime/crt/common/func_registry.c:111-174 | The input that shows it: in a buffer of 19 bytes, with pointers of 8, a name of 8 characters is accepted by a new registry, and afterwards the buffer does not represent the list with it. |
| FuncRegistry.EmptyNameIsLost | template_project/crt/src/runtime/crt/common/func_registry.c:133-174 | An empty name is counted but does not enter the list of names. |
| FuncRegistry.SetIsMapUpdate | template_project/crt/src/runtime/crt/common/func_registry.c:133-174 | Setting changes the function of that name only, and no position of a name that is there. |
| FuncRegistry.FindIsFirstMatch | template_project/crt/src/runtime/crt/common/func_registry.c:79-95 | Searching gives the first match, or nothing when there is none. |
| FuncRegistry.NameInBuffer | template_project/crt/src/runtime/crt/common/func_registry.c:41-61 | Where the i-th name lies in the buffer, with its NUL. |
| FuncRegistry.OverrideKeeps | template_project/crt/src/runtime/crt/common/func_registry.c:145-152 | Writing over one pointer changes the function of that entry only. |
| CrtHandles.HandleRoundTrip | template_project/crt/src/runtime/crt/common/crt_runtime_api.c:229-257 | Indices come back from a handle if and only if both are below 0x8000; no handle is null. |
| CrtHandles.FuncRegisterGlobal | template_project/crt/src/runtime/crt/common/crt_runtime_api.c:150-152 | Registering by Set on the packed bytes does to them what the command does to the table: it overrides, adds, or refuses a name that is there or a full registry. |
| CrtHandles.FuncGetGlobal | template_project/crt/src/runtime/crt/common/crt_runtime_api.c:319-328 | The search in the packed bytes gives the handle that the table gives. |
| CrtHandles.FuncCallGlobal | template_project/crt/src/runtime/crt/common/crt_runtime_api.c:273-305 | The function that a global handle runs is the one read from the packed bytes. |
| CrtHandles.GlobalHandleRunsLastSet | template_project/crt/src/runtime/crt/common/crt_runtime_api.c:273-328 | A handle obtained by name runs, after any commands, refused ones included, the function then under that name, if its index is below 0x8000; otherwise the handle has another index. |
| CrtHandles.LastRegistrationWins | template_project/crt/src/runtime/crt/common/crt_runtime_api.c:148-152 | The function under a global name is that of the last accepted registration; one is accepted if it may override or finds room. |
| CrtHandles.PositionsStay | template_project/crt/src/runtime/crt/common/crt_runtime_api.c:148-201 | A name keeps its index under any later commands. |
| CrtHandles.ModuleHandleRuns | template_project/crt/src/runtime/crt/common/crt_runtime_api.c:330-339 | The handle of a module function runs that function, with that module as resource, as long as the module stays. |
| CrtHandles.CreateGivesFreshHandle | template_project/crt/src/runtime/crt/common/crt_runtime_api.c:179-191 | A new module gets a free place and a handle that decodes to it; the others stay. |
| CrtHandles.FreeTakesOneModule | template_project/crt/src/runtime/crt/common/crt_runtime_api.c:197-210 | Freeing takes that module only, never the system library; its handles then fail. |
| CrtHandles.ExecuteKeepsValid | template_project/crt/src/runtime/crt/common/crt_runtime_api.c:148-216 | Every command keeps the tables in order. |
| StackAllocator.StackMemoryManager.constructor | template_project/crt/src/runtime/crt/memory/stack_allocator.c:80-93 | The workspace begins at the first aligned address of the memory. |
| StackAllocator.StackMemoryManager.Allocate | template_project/crt/src/runtime/crt/memory/stack_allocator.c:22-46 | The newest block is pushed, its tag written behind it with the check, or nothing changes and memory is short; nothing else in memory changes. |
| StackAllocator.StackMemoryManager.Free | template_project/crt/src/runtime/crt/memory/stack_allocator.c:58-70 | For any pointer: with the check and a live block it succeeds if and only if the pointer is the newest block or differs from it by a multiple of 2^32, which among pointers into the memory is the newest block alone; its allocation is undone. Without the check it cuts the stack at that block. |
| StackAllocator.StackMemoryManager.Write | template_project/crt/src/runtime/crt/memory/stack_allocator.c:22-46 | A client writing inside a block of its own leaves stack and tags in order. |
| StackAllocator.TagTellsSize | template_project/crt/src/runtime/crt/memory/stack_allocator.c:41-43 | The size comes back out of its tag. |
| StackAllocator.BlocksAreDisjoint | template_project/crt/src/runtime/crt/memory/stack_allocator.c:22-46 | Each block ends, with padding and tag, before the next begins. |
| StackAllocator.StackedInside | template_project/crt/src/runtime/crt/memory/stack_allocator.c:22-46 | All blocks are within the workspace below the next allocation. |
| StackAllocator.AlignmentOfBlocks | template_project/crt/src/runtime/crt/memory/stack_allocator.c:22-46 | Without the check every block is 16-byte aligned; with it the tags shift the i-th block by 4 i bytes. |
| StackAllocator.TagsStay | template_project/crt/src/runtime/crt/memory/stack_allocator.c:58-70 | Whatever happens inside blocks and above the last one, the tags in memory encode the stack. |
| Kernels.DensePackAddNnRelu1 | template_project/model/codegen/host/src/default_lib2.c:168-201 | The 8-wide kernel computes reshaped input times matrix, bias and rectifier, output by output in the same order of accumulation, with the matrix that the packed constant stands for; the rest of the output buffer stays. |
| Kernels.DensePackAddNnRelu | template_project/model/codegen/host/src/default_lib2.c:132-163 | The same for the first layer, with one input. |
| Kernels.DensePackAdd | template_project/model/codegen/host/src/default_lib2.c:104-127 | The same for the last layer, without the rectifier, even into the buffer it reads from. |
| Kernels.FusedReshape | template_project/model/codegen/host/src/default_lib2.c:206-223 | The copy is the reshape. |
| Kernels.FusedReshape1 | template_project/model/codegen/host/src/default_lib2.c:229-249 | The copying loop is the reshape, also in place. |
| Kernels.RunGraph | template_project/model/executor-config/graph/default.graph:1-150 | Running the graph over its shared storage computes the Relay program, although the last operator overwrites the output of the first. |
| Kernels.SameWidthReshapeIsNop | template_project/model/src/default.relay:2-12 | The reshapes of the program change nothing, so the graph may replace them by no operation. |
| Kernels.ReshapeKeepsMemory | template_project/model/src/default.relay:2-8 | Reshaping leaves the elements in memory as they are and gives rows of the new width. |
| Kernels.PackedSlotIsOwn | template_project/model/codegen/host/src/default_lib2.c:191-195 | Packing sends each weight to a slot of its own, W[o][k] to (o/8)*128 + k*8 + o%8, within the buffer. |
| Kernels.EverySlotIsUsed | template_project/model/codegen/host/src/default_lib2.c:191-195 | Every slot holds a weight: packing is a bijection. |
| Kernels.UnpackPack | template_project/model/codegen/host/src/default_lib2.c:191-195 | Unpacking a packed matrix gives the matrix. |
| Kernels.PackUnpack | template_project/model/codegen/host/src/default_lib2.c:191-195 | Packing an unpacked buffer gives the buffer. |
| Kernels.SubscriptOf | template_project/model/codegen/host/src/default_lib2.c:191-195 | The subscript of the generated code addresses the weight of that output and input. |
| Kernels.PackedParametersGiveTheProgram | template_project/model/src/default.relay:1-13 | With the parameters packed by the compiler the chain is the program on the parameters themselves. |

## Left out

- ImplicitQueue and ExplicitQueue: calls that ask for no elements, and the pool as a machine of its own; that blocks in the pool are nobody else's is what the action Obtain assumes.
- Memory orders and fences: atomic operations are sequentially consistent steps.
- The explicit producer's `enqueue_bulk`, and constructors that throw: their rollback keeps blocks in the ring while it restores the slot count.
- The implicit producer's throwing constructors; its bulk enqueue is modelled, with its chain of new blocks as the list of inserted stages.
- Counters instead of flags in the blocks of an explicit producer (block sizes above the threshold of `Block::is_empty`), whose empty test is that of implicit blocks.
- Whole-queue iteration over producers, consumer tokens and rotation, producer lists, move, swap, destruction and recycling of producers on thread exit.
- FreeListCalls: `rounds` bounds how often a lost race is retried; a call that is still running then says so, and the invariant holds then as well.
- SemaphoreCalls: the same bound, which also limits for how long a sleeping thread is watched.
- Counters of the step machines are unbounded; only WrappingArithmetic deals with their words.
- IndexGrowth: an allocation that fails is the step `Full` of the machines, not a path of these methods.
- Json: floating-point numbers, unsigned and 8-bit integers, registered dynamic types, and the line counts in error messages.
- JsonRoundTrip.UncleanFirstKeyIsLost: only the first key of a map, but whatever follows; JsonKeys.RoundTripsIffKeysClean has all keys, for a reader that consumes just the text.
- ThreadedIter: exceptions of the producer, and `BeforeFirst` running together with `Next`, which its callers are told not to do.
- RpcReceiver: read errors other than the end of the stream, and negative counts of dimensions or arguments; addresses stand for pages of the arena, and a page beyond the word size is a failed allocation.
- RpcServer: the runtime behind the calls, whose outcomes and effects on memory are arbitrary; the loggers, the framing below the byte stream and the time evaluator.
- RpcServer.ServeAll: which bytes a copy from a device or the host sends is stated request by request, in ProcessOnePacket.
- CrtHandles: `DecodeModuleHandle` lets through the index behind its table; what lies there is the parameter `past`, and looking up a function through it is left out.
- FuncRegistry: alignment of the pointers in the buffer.
- StackAllocator: memory shorter than the alignment of its address.
- Arena: the pages are numbered and have addresses, which the caller of `Alloc` supplies; contents of pages are in RpcMemory.
- Kernels: rounding, since the operations are arbitrary; the values of the constants.
- Board support, project generation, timers, recordio, parameter parsing, logging, optional and any types.

# Verified models of the SANDIE data path

This project models the parts of the repository that move file data over Named Data Networking and
proves what they promise. It is written in Dafny 4.11; `dafny verify dfyconfig.toml` checks all of it.

## What is modelled

**The Interest pipeline** (`WindowControl`, `Pipeline`, `PipelineInvariant`, `PipelineLaws`,
`PipelineOutcomes`, `PipelineInterests`). Applications push Interests; one worker fetches them in batches, sends them,
keeps them in a pending table under a token, times them out in order of expression, retries them
under fresh tokens and hands answers to per-consumer queues, while a fixed or an adaptive window
limits what is in flight. `Pipeline` gives the state and its events as a transition system,
`PipelineInvariant` what each event keeps, `PipelineLaws` what holds in every run,
`PipelineOutcomes` what each event comes to and where answers come from, and
`PipelineInterests` is the class whose methods update that state in place and are proved to perform
the events. A request is followed from acceptance to its answer by a history record that says where it is.

**The lock-free queue under it** (`OptimisticDequeue`, `BlockIndex`, `ImplicitQueue`, `QueueOutcomes`, `FreeList`,
`BlockPool`, `Semaphore`, `BlockingQueue`, `BlockingSubQueue`, `CircularOrder`, `Blocks`). Each load, store and read-modify-write of the
implicit-producer path is one step, threads have program counters, and any number of them
interleave under sequential consistency. `OptimisticDequeue` is the overcommit protocol that hands
out indices; `BlockIndex` the growable circular index that maps block numbers to blocks;
`ImplicitQueue` puts both together with the blocks, their cells, their links and their reclamation,
and `QueueOutcomes` says what a dequeue and an enqueue come to when they are run to their end.
`BlockPool` joins a sub-queue to the free list its blocks come from, and `BlockingSubQueue` to the
semaphore in front of it; there what the parts assume of each other is proved. Indices are
unbounded, and `CircularOrder` shows when 64-bit wrapped indices behave the same.

**Segmented reads** (`Bytes`, `SegmentedRead`, `StridedCopy`): both readers of a byte range over
segments, the producer of a segment, and the multi-threaded copy.

**The packet formats of the DPDK plugin** (`Tlv`, `DataPacket`, `Names`, `ReadBurst`), following the
NDN Packet Format Specification 0.3.

**Two small concurrent machines** (`TimeCache`, `DataFetcher`, `FetchPipeline`): the logger's cache
of the local time, and the retrying fetcher with the window in front of it.

`Options`, `Numbers`, `MapSum` and `ModArithmetic` are helpers.

Where the code and its promises part, the code is followed and the exact condition is proved: a
read of an empty, segment-aligned range asks for nothing, so `File::read` returns -1 and
`Consumer::Read` looks into an empty store (`SegmentedRead.Read`, `SegmentedRead.ReadMapped`); a read
that begins behind the end of the file stays in bounds exactly when it begins on a segment boundary
or asks for no bytes (`SegmentedRead.TrimSafeExactly`, `SegmentedRead.CopyLengthExactly`,
`SegmentedRead.Read`); an empty content is not found again, and the content type survives only if it
is 0, so that an error packet is never recognised as one (`DataPacket.ContentFoundExactly`,
`DataPacket.TypeSurvivesExactly`); a block distance the lookup wants to keep negative is divided
unsigned, which is harmless (`CircularOrder.OffsetForgetsSign`); path elements with a
zero byte are cut (`Names.JoinedExactly`); the congestion back-off never grows
(`DataFetcher.DataFetcher.HandleNack`); a READ request without buffers is dropped
(`ReadBurst.ConsumerTx.ExpressReadInterests`).

## Model

| member | source | states |
|---|---|---|
| CircularOrder.CircularLessExact | NDNc/congestion-control/concurrentqueue/concurrentqueue.h:476-488 | on 64-bit wrapped counters the circular comparison answers yes exactly when the true forward distance, reduced to a word, is nonzero and below half a word |
| CircularOrder.CircularLessIsLess | NDNc/congestion-control/concurrentqueue/concurrentqueue.h:476-488 | for counters less than half a word apart the circular comparison is the plain one |
| CircularOrder.HalfWordApartIsIncomparable | NDNc/congestion-control/concurrentqueue/concurrentqueue.h:476-488 | at exactly half a word it answers no in both directions |
| CircularOrder.SignedDifference | NDNc/congestion-control/concurrentqueue/concurrentqueue.h:2963-2965 | the signed difference of two wrapped indices, before it is divided, is their true difference |
| CircularOrder.OffsetForgetsSign | NDNc/congestion-control/concurrentqueue/concurrentqueue.h:2963-2965 | the block size being unsigned, the division turns the difference back into a word: the offset of a block d behind the tail is 2^59 - d, in general the distance reduced by 2^59 |
| CircularOrder.SlotSurvivesWrap | NDNc/congestion-control/concurrentqueue/concurrentqueue.h:2965-2966 | the lookup's wrapped sum, masked with capacity - 1, is all the same the slot at the true signed distance, for every capacity that divides 2^59 |
| CircularOrder.BlockBaseDiffCounts | NDNc/congestion-control/concurrentqueue/concurrentqueue.h:2647-2649 | the wrapped base difference of a bulk enqueue is one block size per block boundary in its range, for an empty queue too |
| OptimisticDequeue.StepKeepsInv | NDNc/congestion-control/concurrentqueue/concurrentqueue.h:2784-2884 | every load and read-modify-write of any number of dequeuers, and every publication, keeps the claim invariant |
| OptimisticDequeue.GrantIsJustified | NDNc/congestion-control/concurrentqueue/concurrentqueue.h:2556-2566 | a stale overcommit snapshot v implies v refused tickets older than the thread's own, so a ticket granted by the second look at the tail lies below it |
| OptimisticDequeue.WinsBelowTail | NDNc/congestion-control/concurrentqueue/concurrentqueue.h:2784-2884 | all tickets granted so far, claimed or not, fit below the tail |
| OptimisticDequeue.ClaimFits | NDNc/congestion-control/concurrentqueue/concurrentqueue.h:2784-2884 | whoever is about to advance head stays at or below the tail |
| OptimisticDequeue.NoOverclaim | NDNc/congestion-control/concurrentqueue/concurrentqueue.h:2784-2884 | in every state of every run the slots won, with those about to be taken, never pass the tail |
| OptimisticDequeue.ClaimsAreForever | NDNc/congestion-control/concurrentqueue/concurrentqueue.h:2784-2884 | a won index keeps its winner for the rest of the run: each index is won exactly once |
| OptimisticDequeue.IdleBalance | NDNc/congestion-control/concurrentqueue/concurrentqueue.h:2784-2884 | with nobody inside a dequeue, head is optimistic count minus overcommit |
| OptimisticDequeue.LoneDequeueTakesAll | NDNc/congestion-control/concurrentqueue/concurrentqueue.h:2784-2801 | run to its end from a state with nobody inside, a dequeue of up to max wins exactly the first min(left, max) remaining indices and leaves tail, overcommit count and the threads as they were |
| OptimisticDequeue.SecondLookExactly | NDNc/congestion-control/concurrentqueue/concurrentqueue.h:2797-2801 | also among others: the second look grants a ticket exactly if, less the losses its thread knew of, it lies below the tail as it is then, and refuses the thread exactly if none of its tickets does |
| BlockIndex.StoreKeyKeepsInv | NDNc/congestion-control/concurrentqueue/concurrentqueue.h:2906-2919 | storing the next key keeps keys, values and old headers in place; a reused slot is the oldest and no longer live |
| BlockIndex.ReuseIsOldestFirst | NDNc/congestion-control/concurrentqueue/concurrentqueue.h:2914-2917 | an insertion that reuses a slot takes the one of the oldest block, which has been emptied |
| BlockIndex.NoRoomMeansFull | NDNc/congestion-control/concurrentqueue/concurrentqueue.h:2913-2927 | without room the index is full of the last capacity blocks and the oldest is live |
| BlockIndex.StoreTailKeepsInv | NDNc/congestion-control/concurrentqueue/concurrentqueue.h:2918 | moving the tail slot after the key store keeps the invariant |
| BlockIndex.RewindKeepsInv | NDNc/congestion-control/concurrentqueue/concurrentqueue.h:2940-2944 | rewinding the tail slot keeps every key and value reachable |
| BlockIndex.GrowKeepsEntries | NDNc/congestion-control/concurrentqueue/concurrentqueue.h:2984-2996 | in the doubled header every block that still has its slot keeps its entry |
| BlockIndex.GrowKeepsInv | NDNc/congestion-control/concurrentqueue/concurrentqueue.h:2971-3013 | doubling keeps the invariant, agrees with all older headers and makes room |
| BlockIndex.SlotByDistance | NDNc/congestion-control/concurrentqueue/concurrentqueue.h:2953-2968 | the signed block distance from the tail key leads from the tail slot to the block's slot |
| BlockIndex.LookupFinds | NDNc/congestion-control/concurrentqueue/concurrentqueue.h:2953-2968 | a lookup through the current or any older header, with a tail slot read earlier and its key read now, finds the entry of every block that still has its slot |
| BlockIndex.LiveBlockFound | NDNc/congestion-control/concurrentqueue/concurrentqueue.h:2946-2951 | that entry holds the live block, never null |
| BlockIndex.NextSlotIsNextBlock | NDNc/congestion-control/concurrentqueue/concurrentqueue.h:2873 | one slot further is the next block |
| BlockIndex.ClearValueKeepsInv | NDNc/congestion-control/concurrentqueue/concurrentqueue.h:2862-2870 | clearing the value of an emptied block touches no other block |
| ImplicitQueue.StepKeepsInv | NDNc/congestion-control/concurrentqueue/concurrentqueue.h:2631-2777 | every step of the producer, allocations that fail and early construction included, of any number of consumers, and of whoever has the blocks not in use here, keeps the whole-queue invariant |
| ImplicitQueue.CursorIsLive | NDNc/congestion-control/concurrentqueue/concurrentqueue.h:2710-2727 | wherever the writing loop has come by following links, it writes into the live block of the index it writes: a tail block that may be lost is not used |
| ImplicitQueue.LinkTargetIsLive | NDNc/congestion-control/concurrentqueue/concurrentqueue.h:2637-2700 | the link store goes through the tail block only when its guard holds, and then that block exists and is the live block numbered just before the new one: a lost tail block is never dereferenced |
| ImplicitQueue.ChainIsExactlyBlocks | NDNc/congestion-control/concurrentqueue/concurrentqueue.h:2690-2703 | following the links from the first allocated block leads through exactly the blocks allocated so far, in order, and ends there; a start block with room leads to the first of them |
| ImplicitQueue.WalkFollowsChain | NDNc/congestion-control/concurrentqueue/concurrentqueue.h:2771-2775 | at a stop the writing loop is in the end block exactly when all elements are written, as asserted, and otherwise the link leads to the block of the next index |
| ImplicitQueue.UndoFollowsChain | NDNc/congestion-control/concurrentqueue/concurrentqueue.h:2673-2681 | the undo loop and the loop that returns blocks visit exactly the allocated blocks and end after the last |
| ImplicitQueue.ElsewhereStep | NDNc/congestion-control/concurrentqueue/concurrentqueue.h:3072-3092 | links, counts and cells of blocks that are not in use here may change in any way |
| ImplicitQueue.OneBlockPerBoundary | NDNc/congestion-control/concurrentqueue/concurrentqueue.h:2642-2705 | a batch has allocated exactly one block per boundary in its range when it begins to write, all different and in the index under their numbers |
| ImplicitQueue.OwnLookupFinds | NDNc/congestion-control/concurrentqueue/concurrentqueue.h:2668-2681 | when an enqueue is undone, each of its blocks is found again although the tail has been rewound past it |
| ImplicitQueue.ProducerNeverStuck | NDNc/congestion-control/concurrentqueue/concurrentqueue.h:2631-2777 | whatever the allocator answers, the producer's next step uses only entries and blocks that exist |
| ImplicitQueue.KeyLoadFits | NDNc/congestion-control/concurrentqueue/concurrentqueue.h:2805-2812 | whichever header and tail slot a consumer loaded, the offset leads to its block's slot |
| ImplicitQueue.ValueLoadFits | NDNc/congestion-control/concurrentqueue/concurrentqueue.h:2813-2820 | at that slot it finds its own block |
| ImplicitQueue.TakenIsEnqueued | NDNc/congestion-control/concurrentqueue/concurrentqueue.h:2813-2840 | the cell it moves out holds the element enqueued at that index and has not been taken before |
| ImplicitQueue.ConsumerNeverStuck | NDNc/congestion-control/concurrentqueue/concurrentqueue.h:2785-2876 | header, slot, key, block and cell of a consumer inside a dequeue always exist |
| ImplicitQueue.FinishInterval | NDNc/congestion-control/concurrentqueue/concurrentqueue.h:1621-1639 | counting a stretch as emptied raises its own block's count by the stretch and no other's, and the count is full exactly when every element is finished |
| ImplicitQueue.ClearDisturbsNobody | NDNc/congestion-control/concurrentqueue/concurrentqueue.h:2862-2871 | a block that is given up has no consumer left in it |
| ImplicitQueue.ReleaseAccounts | NDNc/congestion-control/concurrentqueue/concurrentqueue.h:3072-3082 | a block is released once per fill: it is in use, out of the index and in no other hand |
| ImplicitQueue.ReleasedBlockIsFree | NDNc/congestion-control/concurrentqueue/concurrentqueue.h:2862-2871 | nobody else reads, clears, releases or writes a block that is about to be released |
| ImplicitQueue.DeliversWhatWasEnqueued | NDNc/congestion-control/concurrentqueue/concurrentqueue.h:2556-2624 | in every run whatever is delivered from index i is the i-th element enqueued |
| ImplicitQueue.RestingState | NDNc/congestion-control/concurrentqueue/concurrentqueue.h:2426-2488 | at rest exactly the first head elements are delivered and the blocks in use are exactly those that hold an element or have room for one |
| QueueOutcomes.ConsumerTakes | NDNc/congestion-control/concurrentqueue/concurrentqueue.h:2805-2876 | whatever the others do, each step of a consumer inside a dequeue takes out the next index it has won or none, comes closer to the end, and leaves only when all are taken |
| QueueOutcomes.TakesItsShare | NDNc/congestion-control/concurrentqueue/concurrentqueue.h:2805-2876 | a consumer that has won indices takes out exactly these |
| QueueOutcomes.LoneDequeueDelivers | NDNc/congestion-control/concurrentqueue/concurrentqueue.h:2784-2884 | an undisturbed dequeue of up to max delivers exactly the first min(left, max) elements that are left, each the one enqueued at its index |
| QueueOutcomes.EnqueuesAllOrNothing | NDNc/congestion-control/concurrentqueue/concurrentqueue.h:2631-2777 | in every trace, whatever the consumers do meanwhile, an enqueue that has ended has appended all of its elements in their order, or, exactly if memory ran out, none |
| QueueOutcomes.ProducerCloser | NDNc/congestion-control/concurrentqueue/concurrentqueue.h:2631-2777 | every step of the producer brings its enqueue strictly closer to its end, whatever the allocator answers |
| QueueOutcomes.OthersDoNotDelay | NDNc/congestion-control/concurrentqueue/concurrentqueue.h:2631-2777 | no step of a consumer takes it further away |
| FreeList.StepKeepsInv | NDNc/congestion-control/concurrentqueue/concurrentqueue.h:1464-1543 | any interleaving of add and try_get keeps list, counts, flags and owners consistent |
| FreeList.SetFlagKeepsInv | NDNc/congestion-control/concurrentqueue/concurrentqueue.h:1476-1487 | the flag is clear when add sets it, so the 32-bit addition cannot carry out |
| FreeList.TakenHeadSuccessor | NDNc/congestion-control/concurrentqueue/concurrentqueue.h:1506-1511 | a successful head exchange installs the head's real successor, however old the pointer read: no ABA |
| FreeList.LastOneOutLinks | NDNc/congestion-control/concurrentqueue/concurrentqueue.h:1516-1524 | exactly the last thread to count itself out of a flagged node takes over linking it |
| FreeList.SwingListFits | NDNc/congestion-control/concurrentqueue/concurrentqueue.h:1535-1545 | linking puts a node in front of exactly the list its next pointer leads to |
| FreeList.NeverStuck | NDNc/congestion-control/concurrentqueue/concurrentqueue.h:1489-1528 | counts never run below zero, the taken node's flag is clear as asserted, and every thread can go on |
| FreeList.NeverHandedOutTwice | NDNc/congestion-control/concurrentqueue/concurrentqueue.h:1464-1543 | in every run the list is a chain of distinct nodes and a node is handed out at most as often as it was put in |
| FreeList.RestingList | NDNc/congestion-control/concurrentqueue/concurrentqueue.h:1464-1543 | at rest nothing is lost: a node is on the list exactly when it was put in and not handed out, with count one and clear flag |
| FreeList.LoneGetTakesFirst | NDNc/congestion-control/concurrentqueue/concurrentqueue.h:1478-1515 | an undisturbed try_get takes the first node off the list, with no reference left on it, and comes back with nothing, changing nothing, exactly when the list is empty |
| FreeList.LoneAddPrepends | NDNc/congestion-control/concurrentqueue/concurrentqueue.h:1464-1476 | an undisturbed add puts the node in front of the list with count one |
| FreeList.EmptyHandedSawEmpty | NDNc/congestion-control/concurrentqueue/concurrentqueue.h:1483-1514 | in every run a try_get that comes back with nothing has loaded a null head at a moment during its call when the list was empty |
| BlockPool.StepKeepsInv | NDNc/congestion-control/concurrentqueue/concurrentqueue.h:3072-3120 | sub-queue and free list side by side, with recycling or without: every step keeps both invariants and leaves each block with one holder |
| BlockPool.AssumptionsMet | NDNc/congestion-control/concurrentqueue/concurrentqueue.h:3072-3120 | what the parts assume of their callers holds: an obtained block is in use nowhere, and who gives a block back holds it |
| BlockPool.TakenIsNotHeld | NDNc/congestion-control/concurrentqueue/concurrentqueue.h:1506-1513 | the node try_get is about to hand out is held by nobody |
| BlockPool.UnknownStays | NDNc/congestion-control/concurrentqueue/concurrentqueue.h:3072-3083 | a block that is never added stays unknown to the free list's head, links and threads |
| BlockPool.BlockInOnePlace | NDNc/congestion-control/concurrentqueue/concurrentqueue.h:3072-3120 | in every run, whatever other sub-queues do, a block in use is on no list and not destroyed, no thread in the free list ever has a block that may be destroyed in hand, and index i yields the i-th element |
| BlockPool.GivenBackIsReused | NDNc/congestion-control/concurrentqueue/concurrentqueue.h:3072-3092 | a block given back while the free list is at rest is destroyed, or comes to its front and is what the next try_get hands out |
| Semaphore.StepKeepsInv | NDNc/congestion-control/concurrentqueue/lightweightsemaphore.h:276-346 | every step keeps waiters = max(0, -count) + kernel permits + permits about to be posted, and acquired + free = initial + signalled |
| Semaphore.NeverOverAcquired | NDNc/congestion-control/concurrentqueue/lightweightsemaphore.h:276-416 | acquisitions never exceed initial plus signalled, for any mix of try, timed and many-permit waits |
| Semaphore.ResultIsWhatWasTaken | NDNc/congestion-control/concurrentqueue/lightweightsemaphore.h:312-346 | a call returns exactly the permits it took and at most its maximum |
| Semaphore.UntimedWaitSucceeds | NDNc/congestion-control/concurrentqueue/lightweightsemaphore.h:391-405 | in every run a wait for up to max > 0 permits that may sleep, and whose sleep does not give up, ends with at least one and at most max: what the untimed waitMany asserts |
| Semaphore.ShortOnlyIfNoneFree | NDNc/congestion-control/concurrentqueue/lightweightsemaphore.h:312-398 | in every run a call that comes back with fewer permits than its maximum has come upon a moment in its course when none was free |
| Semaphore.LoneTryTakesAll | NDNc/congestion-control/concurrentqueue/lightweightsemaphore.h:377-398 | undisturbed, the fast path takes as many permits as there are up to its maximum, and a wait goes on to spin exactly if it got none |
| Semaphore.LoneSpinTakes | NDNc/congestion-control/concurrentqueue/lightweightsemaphore.h:317-327 | undisturbed, a thread that spins while permits are free takes min(max, free) |
| Semaphore.LoneRegisterTakes | NDNc/congestion-control/concurrentqueue/lightweightsemaphore.h:328-345 | likewise one that comes to register, its registration counted as the first |
| Semaphore.LoneWakeTakesRest | NDNc/congestion-control/concurrentqueue/lightweightsemaphore.h:343-345 | a sleeper that is woken takes its permit and as many of the free ones as it may |
| Semaphore.LoneLateWaker | NDNc/congestion-control/concurrentqueue/lightweightsemaphore.h:333-345 | a waiter that gave up just as it was signalled still takes the permit posted for it |
| Semaphore.LonePoll | NDNc/congestion-control/concurrentqueue/lightweightsemaphore.h:312-345 | a wait that may not sleep, undisturbed, takes min(max, free) permits, and if none is free leaves no trace after all of its spins |
| Semaphore.NothingLost | NDNc/congestion-control/concurrentqueue/lightweightsemaphore.h:295-310 | after timeouts too, every permit not acquired is back in the count when nobody is inside |
| Semaphore.EveryWaiterServed | NDNc/congestion-control/concurrentqueue/lightweightsemaphore.h:407-416 | once the count is not negative every registered waiter has a permit in the kernel or about to be posted |
| Semaphore.PostsFitWaiters | NDNc/congestion-control/concurrentqueue/lightweightsemaphore.h:407-416 | a signal posts at most one permit per waiter, so its cast to int loses nothing with fewer than 2^31 threads |
| BlockingQueue.StepKeepsInv | NDNc/congestion-control/concurrentqueue/blockingconcurrentqueue.h:123-144 | enqueue before signal: unclaimed elements equal free permits, permits in hand and permits about to be signalled |
| BlockingQueue.PermitGuaranteesElement | NDNc/congestion-control/concurrentqueue/blockingconcurrentqueue.h:293-333 | whoever spins for n elements after obtaining permits has n unclaimed elements, so the spin has something to take |
| BlockingQueue.ReturnsItsPermits | NDNc/congestion-control/concurrentqueue/blockingconcurrentqueue.h:326-333 | a bulk dequeue returns exactly its permit count, at most its maximum |
| BlockingQueue.UntimedDequeueSucceeds | NDNc/congestion-control/concurrentqueue/blockingconcurrentqueue.h:446-455 | in every run a waiting bulk dequeue for max > 0 elements whose sleep does not give up returns at least one and at most max |
| BlockingQueue.LoneDequeueAcquires | NDNc/congestion-control/concurrentqueue/blockingconcurrentqueue.h:326-332 | an undisturbed dequeue, waiting or not, sets out to take min(max, elements there are); a wait that finds none goes on to spin |
| BlockingQueue.LoneEnqueueSignals | NDNc/congestion-control/concurrentqueue/blockingconcurrentqueue.h:123-130 | an undisturbed enqueue adds its elements and makes a permit free for each |
| BlockingQueue.PermitsNeverExceedElements | NDNc/congestion-control/concurrentqueue/blockingconcurrentqueue.h:293-333 | all free and held permits together never exceed the unclaimed elements |
| BlockingQueue.RestingCount | NDNc/congestion-control/concurrentqueue/blockingconcurrentqueue.h:123-144 | at rest the count is the number of elements |
| BlockingSubQueue.StepRefines | NDNc/congestion-control/concurrentqueue/blockingconcurrentqueue.h:323-333 | each step of semaphore and real sub-queue together is a step of BlockingQueue or one it does not see; in particular what a dequeue wins was wanted and is unclaimed |
| BlockingSubQueue.RunRefines | NDNc/congestion-control/concurrentqueue/blockingconcurrentqueue.h:123-144 | every run of the pair is, without the unseen steps, a run of BlockingQueue |
| BlockingSubQueue.WonFits | NDNc/congestion-control/concurrentqueue/concurrentqueue.h:2784-2801 | an inner dequeue wins at most what its caller still wants and what is unclaimed |
| BlockingSubQueue.StepKeepsInv | NDNc/congestion-control/concurrentqueue/blockingconcurrentqueue.h:123-144 | every step keeps the invariants of the sub-queue, of the semaphore and between them, enqueues that fail included |
| BlockingSubQueue.SpinnerFindsElements | NDNc/congestion-control/concurrentqueue/blockingconcurrentqueue.h:323-333 | in every run whoever spins for n more elements has n published ones that nobody has won, and index i yields the i-th element |
| BlockingSubQueue.AttemptCounts | NDNc/congestion-control/concurrentqueue/blockingconcurrentqueue.h:328-332 | an undisturbed attempt does in the inner queue what it does there alone, and its caller counts every index it wins |
| BlockingSubQueue.LoneSpinnerSucceeds | NDNc/congestion-control/concurrentqueue/blockingconcurrentqueue.h:328-332 | a spinner alone in the inner queue comes away from its next attempt with all it wants, having taken out exactly the first elements that were left |
| BlockingSubQueue.RestingQueue | NDNc/congestion-control/concurrentqueue/blockingconcurrentqueue.h:123-144 | at rest the count of the semaphore is the number of elements left, and exactly those before them are delivered |
| WindowControl.DecreaseKeepsBounds | NDNc/congestion-control/pipeline-interests-aimd.cpp:227-240 | a decrease stays within 64 and max(65536, initial threshold) and never grows the window |
| WindowControl.IncreaseKeepsBounds | NDNc/congestion-control/pipeline-interests-aimd.cpp:242-255 | an increase stays within the bounds and keeps counter < window |
| WindowControl.DecreaseExactly | NDNc/congestion-control/pipeline-interests-aimd.cpp:227-240 | a decrease 200 ms after the last halves the window, down to 64 at least, sets the threshold to it and the counter to 0; any other changes nothing |
| WindowControl.IncreaseExactly | NDNc/congestion-control/pipeline-interests-aimd.cpp:242-255 | one more per answer below the threshold, one more per window of answers above it, up to 65536 |
| WindowControl.SlowStartGrowth | NDNc/congestion-control/pipeline-interests-aimd.cpp:243-247 | in slow start k answers add k |
| WindowControl.AvoidanceGrowth | NDNc/congestion-control/pipeline-interests-aimd.cpp:248-254 | in congestion avoidance each answer below the cap raises W(W-1)/2 + counter by exactly one, in closed form over k answers |
| WindowControl.ProgressDetermines | NDNc/congestion-control/pipeline-interests-aimd.cpp:248-254 | that value determines window and counter |
| WindowControl.HalvingsInSpan | NDNc/congestion-control/pipeline-interests-aimd.cpp:227-240 | effective decreases within a span D number at most D / 200 ms + 1 |
| PipelineInvariant.AdmitKeepsCore | NDNc/congestion-control/pipeline-interests.hpp:166-178 | an admitted request is in the request queue and nowhere else |
| PipelineInvariant.ExpressKeepsCore | NDNc/congestion-control/pipeline-interests-aimd.cpp:84-90 | a sent request moves from the batch into the PIT under its token |
| PipelineInvariant.AnswerKeepsCore | NDNc/congestion-control/pipeline-interests.hpp:223-239 | an answered request leaves the PIT for good; a refused answer leaves it there and closes |
| PipelineInvariant.RefreshKeepsCore | NDNc/congestion-control/pipeline-interests.hpp:254-273 | a refreshed request keeps its consumer, gets a fresh token and leaves the old one behind |
| PipelineInvariant.ExpressKeepsOrder | NDNc/congestion-control/pipeline-interests-aimd.cpp:84-90 | PIT tokens stay exactly once in the PIQ, live ones in order of expression |
| PipelineInvariant.DataKeepsInv | NDNc/congestion-control/pipeline-interests-aimd.cpp:94-122 | Data, marked or not, keeps the pipeline invariant |
| PipelineInvariant.NackKeepsInv | NDNc/congestion-control/pipeline-interests-aimd.cpp:124-170 | a Nack of any reason keeps it |
| PipelineInvariant.TurnKeepsInv | NDNc/congestion-control/pipeline-interests-aimd.cpp:172-225 | one turn of the timeout loop keeps it |
| PipelineInvariant.BatchKeepsInv | NDNc/congestion-control/pipeline-interests-fixed.cpp:45-52 | fetching a batch keeps it |
| PipelineInvariant.SendKeepsInv | NDNc/congestion-control/pipeline-interests-fixed.cpp:80-88 | a partial or full send keeps it |
| PipelineInvariant.StepKeepsInv | NDNc/congestion-control/pipeline-interests-aimd.cpp:42-225 | every event of applications, worker and network keeps it |
| PipelineLaws.ExactlyOnePlace | NDNc/congestion-control/pipeline-interests.hpp:122-179 | an accepted request is in exactly one of request queue, batch, PIT and answers, any other number in none |
| PipelineLaws.NoDuplicates | NDNc/congestion-control/pipeline-interests.hpp:122-179 | and is there once |
| PipelineLaws.AnsweredExactlyOnce | NDNc/congestion-control/pipeline-interests.hpp:223-239 | in every run a request gets at most one answer, for its own consumer |
| PipelineLaws.RunLater | NDNc/congestion-control/pipeline-interests.hpp:254-273 | owners, answers, issued and superseded tokens are never taken back |
| PipelineLaws.SupersededNeverMatched | NDNc/congestion-control/pipeline-interests-aimd.cpp:98-105 | packets under a superseded token are never matched later in the run, they only count as unexpected |
| PipelineLaws.QueuesHoldOwnAnswers | NDNc/congestion-control/pipeline-interests.hpp:181-221 | a response queue holds exactly its consumer's answers since registration, in order, less those popped |
| PipelineLaws.RetriesBounded | NDNc/congestion-control/pending-interest.hpp:65-67 | a request in the PIT has its original consumer and lifetime, has retried at most 8 times and was sent 1 + retries + duplicate Nacks times |
| PipelineLaws.GivenUpAfterNine | NDNc/congestion-control/pipeline-interests-aimd.cpp:185-197 | a request failed at a timeout has been sent nine times, not counting duplicate Nacks, and is answered with null |
| PipelineLaws.InFlightBound | NDNc/congestion-control/pipeline-interests-fixed.cpp:45-64 | PIT plus unsent batch never exceed the fixed window, nor the adaptive window at the last batch |
| PipelineLaws.WindowBounds | NDNc/congestion-control/pipeline-interests-aimd.cpp:227-255 | in every run 64 <= window <= max(65536, initial threshold), counter < window, halvings at least 200 ms apart |
| PipelineLaws.LossStep | NDNc/congestion-control/pipeline-interests-aimd.cpp:107-121 | a marked Data answer tries to halve the window and then counts as an increase; a timeout retry tries to halve it |
| PipelineLaws.LossFreeStep | NDNc/congestion-control/pipeline-interests-aimd.cpp:94-122 | without marks and retries an event increases the window once if it gave a Data answer and else leaves it alone |
| PipelineLaws.LossFreeGrowth | NDNc/congestion-control/pipeline-interests-aimd.cpp:242-255 | over any loss-free stretch of a run the window is that after as many increases as Data answers were given |
| PipelineLaws.CounterLedger | NDNc/congestion-control/pipeline-interests-fixed.cpp:80-88 | while open, tx + unexpected + Nacks without reason = PIT size + rx + nack + timeout after every event |
| PipelineLaws.OldestFirst | NDNc/congestion-control/pipeline-interests-fixed.cpp:164-177 | with equal lifetimes, if the oldest live entry has not expired, none has |
| PipelineLaws.TimeoutOutcome | NDNc/congestion-control/pipeline-interests-fixed.cpp:164-215 | with equal lifetimes onTimeout fails one request at its limit, finds the pipeline closed, or leaves no expired PIT entry |
| PipelineLaws.SilenceRanksDown | NDNc/congestion-control/pipeline-interests-aimd.cpp:172-225 | in a silent network every effective worker step lowers a rank over the unanswered requests |
| PipelineLaws.SilenceEnds | NDNc/congestion-control/pipeline-interests-aimd.cpp:42-92 | so the worker takes at most rank many effective steps |
| PipelineLaws.SilenceMakesProgress | NDNc/congestion-control/pipeline-interests-aimd.cpp:42-92 | and as long as a request is unanswered and the PIT has expired there is one to take |
| PipelineOutcomes.DataOutcome | NDNc/congestion-control/pipeline-interests-aimd.cpp:94-122 | Data under a token of the PIT appends exactly the packet that has arrived, for the request and consumer of that entry, to the log and to that consumer's queue and erases that entry alone; a refusal closes; other Data only counts |
| PipelineOutcomes.NackOutcome | NDNc/congestion-control/pipeline-interests-aimd.cpp:124-170 | a Nack for a duplicate requeues the request unchanged under a new token, any other reason fails it, no reason only counts |
| PipelineOutcomes.ExpiresExactly | NDNc/congestion-control/pending-interest.hpp:77-88 | an entry has expired if and only if lifetime + 1 whole milliseconds have passed since it was expressed |
| PipelineOutcomes.TurnOutcome | NDNc/congestion-control/pipeline-interests-aimd.cpp:172-225 | one turn drops a dead front, stops at a live one, requeues an expired one with one more retry and a lowered window, and fails one that has been retried eight times; which of these is told by elapsed ticks |
| PipelineOutcomes.PushOutcome | NDNc/congestion-control/pipeline-interests.hpp:148-179 | a bulk push adds exactly its requests, numbered on, each under its token; by an unknown consumer it closes; into a closed pipeline it does nothing |
| PipelineOutcomes.PopOutcome | NDNc/congestion-control/pipeline-interests.hpp:200-220 | a pop takes min(max, waiting) answers off the front of the consumer's own queue |
| PipelineOutcomes.BatchOutcome | NDNc/congestion-control/pipeline-interests.hpp:241-252 | a batch is exactly what leaves the request queue, at most 64 and no more than the window has room for |
| PipelineOutcomes.SendOutcome | NDNc/congestion-control/pipeline-interests-aimd.cpp:74-90 | a failed send closes and records nothing; one that gets n packets out puts exactly the first n of the batch into PIT and PIQ, in order, with their times |
| PipelineOutcomes.AdminOutcome | NDNc/congestion-control/pipeline-interests.hpp:89-120 | registration empties, removal drops the consumer's queue, closing only closes |
| PipelineOutcomes.AnswersHaveCauses | NDNc/congestion-control/pipeline-interests-aimd.cpp:94-225 | in every run each answer was caused by an event of its own: a packet by its arrival under the token its request had then, a failure by a Nack or the ninth timeout |
| PipelineOutcomes.PoppedHasArrived | NDNc/congestion-control/pipeline-interests.hpp:200-220 | every packet a consumer can pop arrived earlier, under the token its request had then |
| PipelineInterests.PipelineInterests.constructor | NDNc/congestion-control/pipeline-interests-aimd.cpp:32-36 | a new pipeline is in the initial state |
| PipelineInterests.PipelineInterests.Close | NDNc/congestion-control/pipeline-interests.hpp:89-93 | closes; keeps the invariant |
| PipelineInterests.PipelineInterests.RegisterConsumer | NDNc/congestion-control/pipeline-interests.hpp:111-115 | an empty response queue for the consumer, all else unchanged |
| PipelineInterests.PipelineInterests.UnregisterConsumer | NDNc/congestion-control/pipeline-interests.hpp:117-120 | removes the consumer's queue alone |
| PipelineInterests.PipelineInterests.PushInterestBulk | NDNc/congestion-control/pipeline-interests.hpp:148-179 | admits one request per packet under distinct fresh tokens, or refuses when closed, or closes for an unknown consumer |
| PipelineInterests.PipelineInterests.PopDataBulk | NDNc/congestion-control/pipeline-interests.hpp:200-220 | returns the first min(max, waiting) answers of the consumer's queue and removes exactly these |
| PipelineInterests.PipelineInterests.PushData | NDNc/congestion-control/pipeline-interests.hpp:223-239 | appends one answer to its consumer's queue; false when closed, false and closed when unregistered |
| PipelineInterests.PipelineInterests.RefreshPITEntry | NDNc/congestion-control/pipeline-interests.hpp:254-273 | requeues the request under a fresh token unless closed; closes for an unknown key |
| PipelineInterests.PipelineInterests.DecreaseWindow | NDNc/congestion-control/pipeline-interests-aimd.cpp:227-240 | the specified decrease at the current time |
| PipelineInterests.PipelineInterests.IncreaseWindow | NDNc/congestion-control/pipeline-interests-aimd.cpp:242-255 | the specified increase |
| PipelineInterests.PipelineInterests.OnData | NDNc/congestion-control/pipeline-interests-aimd.cpp:94-122 | does what the Data event says; for an entry of the PIT with a registered consumer it answers with the Data it was called with |
| PipelineInterests.PipelineInterests.OnNack | NDNc/congestion-control/pipeline-interests-aimd.cpp:124-170 | does what the Nack event says, for each reason |
| PipelineInterests.PipelineInterests.OnTimeout | NDNc/congestion-control/pipeline-interests-aimd.cpp:172-225 | the loop as a whole is the specified sequence of turns and terminates |
| PipelineInterests.PipelineInterests.Turn | NDNc/congestion-control/pipeline-interests-aimd.cpp:173-224 | one turn, and whether the loop goes on |
| PipelineInterests.PipelineInterests.GetNextPendingInterests | NDNc/congestion-control/pipeline-interests-fixed.cpp:45-52 | fetches at most min(window - PIT size, 64) requests, and undisturbed exactly that many if there are |
| PipelineInterests.PipelineInterests.SendBatch | NDNc/congestion-control/pipeline-interests-fixed.cpp:65-88 | records exactly the packets the face takes, in order, or closes on an error |
| PipelineInterests.PipelineInterests.Iterate | NDNc/congestion-control/pipeline-interests-fixed.cpp:54-89 | one pass of the worker loop is the timeout loop and then, exactly if the window has room, a batch if none is left and a send if there is one |
| SegmentedRead.FileHandler.GetReadData | xrootd-ndn-oss-plugin/src/xrdndn-producer/xrdndn-file-handler.cc:109-122 | a segment's package holds exactly its slice of the file, or a Nack from which the consumer recovers the error code |
| SegmentedRead.FileHandler.Pread | xrootd-ndn-oss-plugin/src/xrdndn-producer/xrdndn-file-handler.cc:124-134 | reads exactly the slice and touches nothing behind it, or returns the negated error number |
| SegmentedRead.AcceptedExactly | xrootd-ndn-oss-plugin/src/xrdndn-consumer/xrdndn-consumer.cc:93-120 | a reply is accepted exactly if it was fetched, is valid and is no Nack with an error; the first thing wrong is reported |
| SegmentedRead.RangeCovered | xrootd-ndn-oss-plugin/src/xrdndn-consumer/xrdndn-consumer.cc:221-223 | the requested segments cover the range; there are none exactly for an empty aligned range |
| SegmentedRead.SyncRequestDataFor | NDNc/lib/posix/consumer.cpp:107-141 | all replies in the order popped, or none at all if one is null or unnumbered |
| SegmentedRead.SortBySegment | NDNc/lib/posix/file.cpp:143-148 | sorted by segment and a permutation |
| SegmentedRead.OrderDoesNotMatter | NDNc/lib/posix/file.cpp:143-148 | being the replies to a request does not depend on arrival order |
| SegmentedRead.SortedReplies | NDNc/lib/posix/file.cpp:143-148 | the k-th sorted reply is segment first + k |
| SegmentedRead.CopyDataContent | NDNc/lib/posix/file.cpp:153-158 | in bounds exactly when it begins inside the segment or nothing is asked for; then it copies min(rest of block, rest of range) bytes and touches nothing else |
| SegmentedRead.CopyLengthExactly | NDNc/lib/posix/file.cpp:154 | the unsigned length computed makes the copy read behind the end of a block exactly when the copy begins behind it and is asked for bytes |
| SegmentedRead.NextSupply | NDNc/lib/posix/file.cpp:160-167 | each segment, the first trimmed, continues the range where the previous stopped |
| SegmentedRead.NextCopy | NDNc/lib/posix/file.cpp:153-167 | the same for the copy length as computed on words, and for an empty range that begins anywhere |
| SegmentedRead.AllSupplied | NDNc/lib/posix/file.cpp:118-175 | together they supply the whole range |
| SegmentedRead.TrimSafeExactly | NDNc/lib/posix/file.cpp:153-161 | the trim's unsigned subtraction is safe exactly for offsets inside the file, at its end, or on a segment boundary |
| SegmentedRead.Read | NDNc/lib/posix/file.cpp:118-175 | File::read yields file[offset .. min(offset + len, size)] for any arrival order; -1 exactly when nothing was asked for or something is missing; out of bounds exactly when bytes are asked for from behind the end and not on a segment boundary |
| SegmentedRead.Collect | xrootd-ndn-oss-plugin/src/xrdndn-consumer/xrdndn-consumer.cc:239-268 | the store holds every segment, or the first error in completion order is returned |
| SegmentedRead.ReturnData | xrootd-ndn-oss-plugin/src/xrdndn-consumer/xrdndn-consumer.cc:280-303 | contents in key order yield the range; out of bounds exactly when bytes are asked for from behind the end off a segment boundary |
| SegmentedRead.ReadMapped | xrootd-ndn-oss-plugin/src/xrdndn-consumer/xrdndn-consumer.cc:217-278 | Consumer::Read yields the range for any completion order, the first error otherwise, meets an empty store exactly for an empty aligned range, and is out of bounds exactly when bytes are asked for from behind the end off a segment boundary |
| StridedCopy.BlocksPartition | xrootd-ndn-oss-plugin/src/xrdndn-consumer/xrdndn-consumer-main.cc:59-90 | every byte belongs to exactly one block of exactly one thread |
| StridedCopy.ReadStrided | xrootd-ndn-oss-plugin/src/xrdndn-consumer/xrdndn-consumer-main.cc:59-83 | a thread's store holds exactly its blocks up to its first failed read, each with its contents, the failed one with its negative code turned into a length |
| StridedCopy.SynchronizedWrite.WriteAt | xrootd-ndn-oss-plugin/src/xrdndn-consumer/xrdndn-consumer-main.cc:42-46 | seeking and writing byte by byte puts exactly the bytes into their range, keeps the others and fills a gap with zeros |
| StridedCopy.CopyIsFaithful | xrootd-ndn-oss-plugin/src/xrdndn-consumer/xrdndn-consumer-main.cc:85-121 | in whatever order all blocks are written, the output is the source |
| StridedCopy.StoresCopyTheSource | xrootd-ndn-oss-plugin/src/xrdndn-consumer/xrdndn-consumer-main.cc:59-121 | the stores the threads fill when no read fails, written out in any order, make the output the source |
| Tlv.VarNumRoundTrip | xrootd-ndn-dpdk-oss-plugin/xrdndndpdk-common/xrdndndpdk-tlv.c:32-80 | numbers up to 65535 read back exactly wherever they stand, larger ones never |
| Tlv.ShortestForm | xrootd-ndn-dpdk-oss-plugin/xrdndndpdk-common/xrdndndpdk-tlv.c:53-61 | the writer's form is the shortest that reads back |
| Tlv.BigEndianAt | xrootd-ndn-dpdk-oss-plugin/xrdndndpdk-common/xrdndndpdk-tlv.c:67-80 | byte i of n in w bytes is n / 256^(w - 1 - i) % 256 |
| Tlv.VarNumBytes | xrootd-ndn-dpdk-oss-plugin/xrdndndpdk-common/xrdndndpdk-tlv.c:67-80 | the bytes of a number in full, for each of its three forms |
| Tlv.ReadLengthExactly | xrootd-ndn-dpdk-oss-plugin/xrdndndpdk-common/xrdndndpdk-tlv.c:32-45 | which lengths are read and with what value, at every position of any bytes: one byte up to 252, two bytes behind 253, nothing else |
| Tlv.WriteVarNum | xrootd-ndn-dpdk-oss-plugin/xrdndndpdk-common/xrdndndpdk-tlv.c:67-80 | writes the number in place and nothing else |
| Tlv.Mbuf.AppendVarNum | xrootd-ndn-dpdk-oss-plugin/xrdndndpdk-common/xrdndndpdk-tlv.c:89-93 | the packet gains the number at its end |
| Tlv.Mbuf.PrependTL | xrootd-ndn-dpdk-oss-plugin/xrdndndpdk-common/xrdndndpdk-tlv.c:95-101 | the packet gains type and length in front |
| DataPacket.Encode | xrootd-ndn-dpdk-oss-plugin/xrdndndpdk-common/xrdndndpdk-data.c:38-94 | the buffer holds the specified packet |
| DataPacket.PacketBytes | xrootd-ndn-dpdk-oss-plugin/xrdndndpdk-common/xrdndndpdk-data.c:38-94 | the bytes of the packet at their places: name, content type, freshness period as a 32-bit number in network order, content, and the fixed 39-byte signature |
| DataPacket.PContent.Decode | xrootd-ndn-dpdk-oss-plugin/xrdndndpdk-common/xrdndndpdk-data.c:96-127 | the loop fills in the fields with what the walk over fields says, the type noted at the meta information and overwritten at the content; afterwards a packet never looks like an application-level Nack |
| DataPacket.ReachesContent | xrootd-ndn-dpdk-oss-plugin/xrdndndpdk-common/xrdndndpdk-data.c:100-123 | decoding an encoded packet skips outer header, name and meta information exactly and has by then noted the encoded content type |
| DataPacket.ContentFoundExactly | xrootd-ndn-dpdk-oss-plugin/xrdndndpdk-common/xrdndndpdk-data.c:96-127 | the content of an encoded packet is located exactly, byte for byte, if and only if it is not empty |
| DataPacket.DecodesExactly | xrootd-ndn-dpdk-oss-plugin/xrdndndpdk-common/xrdndndpdk-data.c:96-127 | of any packet whatever, the content is found exactly if only Data headers, names and well-formed meta information come before it, and exactly there |
| DataPacket.ContentTypeIsLost | xrootd-ndn-dpdk-oss-plugin/xrdndndpdk-common/xrdndndpdk-data.c:114-119 | whatever the packet, a found content has type 0 |
| DataPacket.TypeSurvivesExactly | xrootd-ndn-dpdk-oss-plugin/xrdndndpdk-common/xrdndndpdk-data.c:109-119 | for non-empty content the decoded type is the encoded one if and only if that is 0; it is never 3, the type of an error packet |
| Names.PacketTypeExactly | xrootd-ndn-dpdk-oss-plugin/xrdndndpdk-common/xrdndndpdk-name.c:56-70 | READ and FILEINFO are recognised exactly by their prefixes |
| Names.PrefixesSpelled | xrootd-ndn-dpdk-oss-plugin/xrdndndpdk-common/xrdndndpdk-name.c:56-70 | the two prefixes are the encoded names /ndn/xrootd/read and /ndn/xrootd/fileinfo |
| Names.DecodeFilePath | xrootd-ndn-dpdk-oss-plugin/xrdndndpdk-common/xrdndndpdk-name.c:27-41 | the loop is the walk over components |
| Names.DecodeFilePathLength | xrootd-ndn-dpdk-oss-plugin/xrdndndpdk-common/xrdndndpdk-name.c:43-54 | it stops where DecodeFilePath stops, for every name |
| Names.WalkOverComponents | xrootd-ndn-dpdk-oss-plugin/xrdndndpdk-common/xrdndndpdk-name.c:27-41 | the walk over encoded components comes out behind them with their path |
| Names.WalksExactly | xrootd-ndn-dpdk-oss-plugin/xrdndndpdk-common/xrdndndpdk-name.c:27-41 | of any name whatever, the path is decoded exactly if whole generic components stand one behind the other from the start on, and then it is made of their values |
| Names.JoinedExactly | xrootd-ndn-dpdk-oss-plugin/xrdndndpdk-common/xrdndndpdk-name.c:34-37 | the path reads back as given if and only if no element contains a zero byte |
| Names.UpToZeroExactly | xrootd-ndn-dpdk-oss-plugin/xrdndndpdk-common/xrdndndpdk-name.c:34-37 | of each element all bytes before its first zero byte are copied |
| Names.NniRoundTrip | xrootd-ndn-dpdk-oss-plugin/xrdndndpdkconsumer/xrdndndpdk-consumer-tx.c:56-58 | 64-bit offsets read back from their NonNegativeInteger |
| Names.NniBytes | xrootd-ndn-dpdk-oss-plugin/xrdndndpdkconsumer/xrdndndpdk-consumer-tx.c:56-58 | a NonNegativeInteger takes the fewest of 1, 2, 4 and 8 bytes, in network order |
| Names.ReadNameRoundTrip | xrootd-ndn-dpdk-oss-plugin/xrdndndpdkconsumer/xrdndndpdk-consumer-tx.c:53-68 | a READ name of up to 65535 bytes is recognised, its path decoded, and its byte offset found and decoded exactly |
| ReadBurst.ConsumerTx.ExpressReadInterests | xrootd-ndn-dpdk-oss-plugin/xrdndndpdkconsumer/xrdndndpdk-consumer-tx.c:70-101 | a burst sends the next min(32, left) offsets, each once and in order, and requeues the request exactly if some are left; without buffers it is dropped |
| ReadBurst.ConsumerTx.Run | xrootd-ndn-dpdk-oss-plugin/xrdndndpdkconsumer/xrdndndpdk-consumer-tx.c:110-130 | one turn serves the oldest request and leaves the others alone; without buffers the oldest is gone, unsent, and an error is reported |
| ReadBurst.OneBurstLess | xrootd-ndn-dpdk-oss-plugin/xrdndndpdkconsumer/xrdndndpdk-consumer-tx.c:72-75 | a request takes ceiling(count / 32) bursts |
| ReadBurst.OffsetsCoverOnce | xrootd-ndn-dpdk-oss-plugin/xrdndndpdkconsumer/xrdndndpdk-consumer-tx.c:89-96 | the offsets sent cover the range, each byte once |
| TimeCache.EnterKeepsInv | NDNc/logger/zf_log.c:778-786 | a writer gets in only when nobody is counted in |
| TimeCache.StepKeepsInv | NDNc/logger/zf_log.c:756-789 | every step of any number of readers and writers keeps the cache invariant |
| TimeCache.NeverStuck | NDNc/logger/zf_log.c:756-776 | the count never runs below zero nor out of its 30 bits |
| TimeCache.CacheAgrees | NDNc/logger/zf_log.c:791-819 | at most one writer, no reader copies meanwhile, and every call delivers the local time of its second |
| TimeCache.LoneCallFills | NDNc/logger/zf_log.c:756-819 | after an undisturbed call the cache is valid and holds the local time of its second, whatever it held before |
| TimeCache.LoneHit | NDNc/logger/zf_log.c:756-771 | a call that finds the cache valid for its second copies it and leaves it as it was |
| TimeCache.MasksOnWords | NDNc/logger/zf_log.c:749-750 | the bit masks on 32-bit words are the arithmetic the model uses |
| DataFetcher.DataFetcher.ExpressInterest | xrootd-ndn-oss-plugin/src/xrdndn-consumer/xrdndn-data-fetcher.cc:152-165 | resets the congestion count; an exception leaves nothing in flight |
| DataFetcher.DataFetcher.Fetch | xrootd-ndn-oss-plugin/src/xrdndn-consumer/xrdndn-data-fetcher.cc:54 | the first expression |
| DataFetcher.DataFetcher.Fire | xrootd-ndn-oss-plugin/src/xrdndn-consumer/xrdndn-data-fetcher.cc:145-149 | a scheduled retry expresses the Interest |
| DataFetcher.DataFetcher.Stop | xrootd-ndn-oss-plugin/src/xrdndn-consumer/xrdndn-data-fetcher.cc:45-52 | cancels everything and fulfils the task once |
| DataFetcher.DataFetcher.HandleData | xrootd-ndn-oss-plugin/src/xrdndn-consumer/xrdndn-data-fetcher.cc:68-77 | fulfils the task with success exactly once |
| DataFetcher.DataFetcher.HandleNack | xrootd-ndn-oss-plugin/src/xrdndn-consumer/xrdndn-data-fetcher.cc:79-129 | retries at once, after a back-off of 2 s or 1 ms, or fails at the 17th Nack or an unsupported reason |
| DataFetcher.DataFetcher.HandleTimeout | xrootd-ndn-oss-plugin/src/xrdndn-consumer/xrdndn-data-fetcher.cc:131-150 | schedules a retry after 500 ms or fails at the 33rd timeout |
| DataFetcher.DataFetcher.Process | xrootd-ndn-oss-plugin/src/xrdndn-consumer/xrdndn-data-fetcher.cc:45-165 | whatever sequence of Data, Nacks, timeouts, retries and stops arrives: at most 1 + 16 + 32 expressions, at most one result, which stays, and one of pending and scheduled until then unless expressing failed; after a stop there is a result |
| FetchPipeline.StepKeepsInv | xrootd-ndn-oss-plugin/src/xrdndn-consumer/xrdndn-pipeline.cc:38-65 | every step of inserters and callbacks, fulfilling a failed task and stopping the pipeline being two, keeps the window invariant |
| FetchPipeline.WindowNeverOverrun | xrootd-ndn-oss-plugin/src/xrdndn-consumer/xrdndn-pipeline.cc:38-86 | in every run at most size Interests are unfinished although counting follows fetching |
| FetchPipeline.CountIsExact | xrootd-ndn-oss-plugin/src/xrdndn-consumer/xrdndn-pipeline.cc:58-76 | outside insert the count is exact; it wraps around exactly while an uncounted fetcher has already given its slot back |
| FetchPipeline.InsertOutcome | xrootd-ndn-oss-plugin/src/xrdndn-consumer/xrdndn-pipeline.cc:38-65 | an insert lets its fetcher go exactly if a slot is free and nobody has stopped the pipeline, and otherwise changes nothing |
| FetchPipeline.CompletionOutcome | xrootd-ndn-oss-plugin/src/xrdndn-consumer/xrdndn-pipeline.cc:67-76 | a fetcher that completes frees its slot |
| FetchPipeline.FailureOutcome | xrootd-ndn-oss-plugin/src/xrdndn-consumer/xrdndn-pipeline.cc:78-86 | one that fails keeps its slot and stops the pipeline for all |

## Left out

- Weak memory orderings, exception paths, tokens, explicit producers, the implicit-producer hash table, move and swap of the queue: the steps are sequentially consistent and on the path the pipeline uses.
- ImplicitQueue.StepKeepsInv: a single enqueue is a batch of one, which may construct its element early, and a single dequeue a bulk dequeue of at most one; the single enqueue leaves its new block's link unset, which is then never followed.
- The limit on the size of a sub-queue: it is unlimited in the default traits.
- Head of the block index list: memory of replaced headers is kept until destruction and is not modelled.
- Semaphore.StepKeepsInv: the kernel semaphore is a counter, and the signed 64-bit count does not overflow.
- BlockingQueue.StepKeepsInv: the inner queue appears through its promise, elements enqueued and not claimed, which BlockingSubQueue proves of one sub-queue; the choice among the sub-queues of several producers is not modelled.
- BlockPool.BlockInOnePlace: the initial pool's index and the allocator appear through what they hand out, blocks that nobody has.
- FreeList.StepKeepsInv: nodes live as long as the list, since destroyed blocks never come near it (BlockPool.BlockInOnePlace); fewer than 2^31 - 1 threads.
- FreeList.LastOneOutLinks: that some thread eventually counts itself out is scheduling and is not proved.
- PendingInterest is a value: the program copies it between its containers and never shares one.
- PipelineInterests.PipelineInterests.PushInterestBulk: also stands for the push of a single Interest, and PopDataBulk for the pop of a single answer.
- PipelineInterests.PipelineInterests.GetNextPendingInterests: the batch is a sequence of its own instead of a raw vector, and enqueues into the request and response queues succeed; whether others disturb its dequeue from the request queue is an input.
- PipelineInterests.PipelineInterests.SendBatch: what the face takes of a batch is an input.
- QueueOutcomes.LoneDequeueDelivers: among others, how many indices a dequeue wins depends on the interleaving; what it has won it delivers (QueueOutcomes.ConsumerTakes).
- PipelineInterests.PipelineInterests.OnData: runs by itself here; how other threads interleave with handlers is what the events of Pipeline say.
- Random tokens are fresh by assumption; the delay statistics, logging, names, nonces and wire encodings of Interests are left out.
- The reason of a Nack is an input: how the face builds Nacks is not part of this model.
- PipelineLaws.SilenceEnds: fairness of the worker thread is not modelled; the lemmas bound its effective steps and show that one is possible.
- SegmentedRead.Read: the response queue is empty when a read begins; the offsets and lengths stay below 2^53, where rounding up a double is exact.
- SegmentedRead.ReadMapped: futures are taken in the order they complete; the polling in between is left out.
- SegmentedRead.FileHandler.GetReadData: signing and validating packets; whether validation succeeds is an input.
- StridedCopy.StoresCopyTheSource: after a failed read the program stores the negative result as an unsigned length and then writes with it, which the output stream takes as a negative length; what a stream does with that is not modelled.
- DataPacket.PContent.Decode: stops with a failure where the program would fail an assertion, read past the packet or wrap its 16-bit offset.
- Names.DecodeFilePath: likewise; the program also looks at the byte behind the name before it compares the length.
- Names.NniRoundTrip: the encoder and decoder of NonNegativeInteger come from a library and follow the specification.
- DataFetcher.DataFetcher.Fetch: called once, on a fetcher that has not been stopped; the pipeline fetches right after it has made one.
- FetchPipeline.WindowNeverOverrun: that a waiting inserter is woken up is not proved, since the count changes outside the mutex.
- memif transport, GraphQL management, InfluxDB, the XRootD glue, command lines, the Go code and DPDK thread setup: plumbing over libraries.

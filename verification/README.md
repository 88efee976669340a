# AsyncFlow, modelled and verified in Dafny

AsyncFlow is a lock-free task runtime in C++20. Its correctness rests on protocols of a few
atomics each: the scheduling word of a task, the sleep handshake of an executor, ring queues,
a tagged free list, counters around logging and shutdown. This project models those protocols
and the data structures beside them, and proves what they promise.

Two forms are used, following the source.

- A protocol between threads is a step machine: a `State`, one step predicate per kind of
  thread with one atomic load, store or exchange per step, and `IsRun`. Results are stated for
  every run, every index of it, and any number of threads. A weak compare-exchange may fail
  without reason.
- Code that updates an object in place is a class with the same fields and loops. Its methods
  are proved against ghost sequences, sets and histories.

Three kinds of results are stated about a step machine: what every state of every run satisfies,
what a step that ends an operation tells its caller and exactly when, and, in the modules named
`...Progress`, that every run can be continued to the end that it should have. The last kind says
that nothing is ever stuck; it does not say that a scheduler lets every thread go on.

| module | what it models |
|---|---|
| `TaskProtocol`, `TaskExclusivity`, `TaskAnswers`, `TaskNoLostWake`, `TaskRequests`, `TaskProgress`, `TaskLostWake`, `TaskLostWakeRun`, `TaskPromptWake` | scheduling of one task: wakers, executors, run epochs and deferred wake requests |
| `ExecutorSleep`, `ExecutorLoop`, `ExecutorProgress` | run loop of an executor: search, sleep and wake-up, end |
| `Shutdown`, `ShutdownProgress` | gate for external posts, quiescence, and that a shutdown can complete |
| `QueueCapacity`, `RingQueue`, `RingProperties`, `RingProgress` | capacities; MPSC and MPMC ring queues |
| `SpscWords`, `SpscQueue`, `SpscProtocol`, `SpscProgress` | SPSC ring queue with 64-bit wrap-around and cached positions |
| `FreeStack`, `FreeStackProgress`, `PoolCache`, `PoolCacheSet`, `PoolConservation`, `PoolSteps` | object pool: tagged free list, thread caches, the pool as a whole, and that the caches only do what the whole allows |
| `LogAccounting`, `LogProgress`, `LogCollect`, `LogConsumer`, `LogConsumerProgress`, `LogConsumerTask` | asynchronous logging: counters, batches, consumer parking, and parking on top of task scheduling |
| `ForkJoin`, `ForkJoinProgress`, `BatchSequencer` | parallel shards; ordering of numbered batches |
| `ConnectionSlots`, `BufferChain`, `ConnectionOutput`, `PacketStream` | TCP side: slot table, output stream, packet framing |
| `Bits`, `Options`, `Runs`, `WordCodec` | machine words, optional values, the end of a run, and the two packed words |

## Premises

- Memory is sequentially consistent: steps interleave, and no weaker ordering is considered.
- Run epochs, wake epochs, free-list versions and ring positions are unbounded, except where a
  row below says that wrap-around is included. `WordCodec` states what packing keeps.
- The kernel is an eventfd counter and an arbitrary answer to each send call.

## Where the code does less than one might expect

- Wakes can be lost. A waker finds the task Running, is delayed until the next run is Starting,
  leaves a request for that run, sees Starting, and is delayed again past the beginning of the
  run's body. It then clears its request, although a waker of the running body has meanwhile
  found the same request in place and was told that its wake is accepted.
  `TaskLostWakeRun.WakeCanBeLost` is such a run; `TaskLostWake.OnlyClobbersBreakSafe` and
  `TaskLostWake.ClobberLosesWake` show that this step is the only cause and always one. Callers
  whose wakes of a task do not overlap are safe (`TaskLostWake.SerialWakesAreNotLost`), and so are
  those for which no run starts while a waker has yet to load the run epoch
  (`TaskPromptWake.PromptWakesAreNotLost`); the log consumer is of the second kind
  (`LogConsumerTask.ConsumerWakesAreNotLost`).
- A parallel call that launches no shard resumes its owner without storing a failure count, so
  the owner reads the count of its previous call (`ForkJoin.ResumedWithExactCount`,
  `ForkJoin.StaleCountIsSeen`).
- A flush also stops when a send call takes nothing. A connection that was asked to close after
  flushing, or to half-close, then does so with bytes still queued
  (`ConnectionOutput.ClosesWithBytesLeft`, `ConnectionOutput.HalfClosesWithBytesLeft`).
  `ConnectionOutput.StopsExactly` says when a flush stops that way; without such an answer the
  connection closes exactly when it was asked to and everything was written
  (`ConnectionOutput.Connection.FlushOutput`).
- A payload sent from a view is torn if and only if the socket takes a part of it and there is no
  memory for the rest (`ConnectionOutput.Connection.SendView`, `ConnectionOutput.TornPayload`).

## Model

| member | source | states |
|---|---|---|
| TaskExclusivity.StepKeepsExclusive | include/af/detail/task/basic_task.hpp:158-289 | every step of a waker, a cancelling waker or an executor keeps the task in one place and in at most one run |
| TaskExclusivity.TaskIsInOnePlace | include/af/detail/runtime/runtime_executor_scheduler.hpp:50-91 | over every run: queue entries plus threads that hold the task on its way into or out of a queue total one exactly when it is Queued, none otherwise, and at most one executor is between Starting and its finishing store |
| TaskExclusivity.QueuedWhenHeld | include/af/detail/runtime/runtime_executor_scheduler.hpp:51-57 | the assertions that a popped or cancelled task is Queued never fire |
| TaskAnswers.AcceptedExactly | include/af/detail/runtime/runtime_public_api.hpp:136-155 | over every run, with any number of executors and rejected inserts: the caller of a wake is told "accepted" if and only if the wake came to hold the task or left its request, and its insert was not rejected; such a wake is one of those that must not be lost |
| TaskAnswers.RefusedExactly | include/af/detail/task/basic_task.hpp:158-239 | the caller is told "refused" if and only if the wake found the task Queued or Done, or another request for the run whose epoch it loaded, or could not insert the task and put its state back |
| TaskNoLostWake.StepKeepsInv | include/af/detail/task/basic_task.hpp:211-295 | every step of wakers and the owning executor keeps the ownership of wake requests |
| TaskNoLostWake.NoWakeIsLost | include/af/detail/task/basic_task.hpp:158-295 | without a clobbering clear, after every accepted wake a run body begins, or one is forced, or the task is done |
| TaskNoLostWake.QuietMeansQueued | include/af/detail/task/basic_task.hpp:158-295 | when every thread is at rest, an accepted wake not yet followed by a run has its entry in the ready queue |
| TaskRequests.NoRequestIsLeftBehind | include/af/detail/task/basic_task.hpp:242-295 | when every thread is at rest the request slot is empty |
| TaskRequests.QueuedAgainOnlyOnRequest | include/af/detail/runtime/runtime_executor_scheduler.hpp:243-254 | the executor queues a task whose run ended with "pending" only if some wake left a request for that very run while it was the current one |
| TaskProgress.ForcedRunBegins | include/af/detail/task/basic_task.hpp:158-295 | whenever a run body is forced, the run can be continued without any new wake until it begins or the task is done |
| TaskProgress.AcceptedWakeIsAnswered | include/af/detail/task/basic_task.hpp:158-295 | along every run without a clobbering clear, every accepted wake has been answered by a run body or can be so without any new wake |
| TaskLostWake.OnlyClobbersBreakSafe | include/af/detail/task/basic_task.hpp:254-295 | one step leaves the safe states if and only if it is a clobbering clear |
| TaskLostWake.ClobberLosesWake | include/af/detail/task/basic_task.hpp:254-289 | every run that ends in a clobbering clear continues by at most two steps to a lost wake |
| TaskLostWake.SerialWakesAreNotLost | include/af/detail/task/basic_task.hpp:158-295 | with at most one wake in progress at a time, no wake is lost |
| TaskPromptWake.PromptWakesAreNotLost | include/af/detail/task/basic_task.hpp:158-295 | no wake is lost if no run is Starting while a waker that found the task running has yet to load the run epoch |
| TaskLostWakeRun.WakeCanBeLost | include/af/detail/task/basic_task.hpp:254-289 | a concrete run ends at rest, Pending, in no queue, with an accepted wake that no run body followed |
| WordCodec.RequestRoundTrip | include/af/detail/task/basic_task.hpp:297-315 | target and mode are recovered from a request word; the epoch is, exactly when it fits 46 bits |
| WordCodec.RequestWordsDiffer | include/af/detail/task/basic_task.hpp:297-315 | equal request words are equal requests, and no request is the empty word |
| WordCodec.HeadRoundTrip | include/af/detail/memory/object_pool.hpp:245-258 | the slot index is recovered from a free-list head; the version is, exactly when it fits 48 bits |
| ExecutorSleep.StepKeepsInv | include/af/detail/runtime/runtime_executor_scheduler.hpp:103-151 | every step of the executor and of any producer keeps the sleep handshake |
| ExecutorSleep.NeverSleepsOnWork | include/af/detail/runtime/runtime_executor_scheduler.hpp:103-151 | a blocked worker or IO thread never has work or a stop request that nobody is going to tell it about |
| ExecutorSleep.NoMissedWakeup | include/af/detail/runtime/runtime_executor_epoll_backend.hpp:244-268 | once all producers returned, a worker with work is not blocked and a blocked IO thread has a readable eventfd |
| ExecutorLoop.NoEntryIsDropped | include/af/detail/runtime/runtime_executor_scheduler.hpp:102-151 | over every run: entries put into any queue of the executor are those executed, the one in its hands, and those still waiting |
| ExecutorLoop.EndsOnlyWhenAskedAndDry | include/af/detail/runtime/runtime_executor_scheduler.hpp:107-119 | the loop has ended only if a stop was requested, and right after a whole search that executed nothing and found its own ring, every source and the external queue without an entry to pop |
| ExecutorLoop.EndsWhenAskedAndDry | include/af/detail/runtime/runtime_executor_scheduler.hpp:114-119 | after a search that executed nothing it ends if and only if a stop was requested |
| ExecutorProgress.WorksThenSleeps | include/af/detail/runtime/runtime_executor_scheduler.hpp:102-151 | as long as no stop is requested, every run can be continued with nothing new put in until the producers have returned, every entry was executed and the executor sleeps |
| Shutdown.StepKeepsInv | include/af/detail/runtime/runtime_dispatch.hpp:232-284 | post counters count exactly the threads inside, and the unfinished count exactly the accepted unfinished tasks |
| Shutdown.GateIsClosed | include/af/detail/runtime/runtime_dispatch.hpp:232-284 | after wait_for_external_posts returned and until a later init, no external thread is or gets between entering and leaving a post |
| Shutdown.RestLasts | include/af/detail/runtime/runtime_public_api.hpp:31-77 | from then on a zero unfinished count means every task is finished or was never accepted, no executor runs one, and it stays so |
| Shutdown.JoinedAtZero | include/af/detail/runtime/runtime_public_api.hpp:31-77 | shutdown gets past its wait only with no unfinished task, and none appears afterwards |
| Shutdown.ShutdownQuiesces | include/af/detail/runtime/runtime_public_api.hpp:9-77 | whenever the runtime is Stopped or being started again, it is at rest |
| Shutdown.StatusGoesRound | include/af/detail/runtime/runtime_public_api.hpp:9-67 | the status only turns from Running to Stopping to Stopped to Starting to Running |
| Shutdown.FinishedAfterRun | include/af/detail/runtime/runtime_executor_scheduler.hpp:235-241 | a task is finished only after an executor has run it |
| Shutdown.TurnedAwayOnlyWhenNotRunning | include/af/detail/runtime/runtime_dispatch.hpp:247-260 | a post is turned away at the gate only if the runtime was not Running at some moment since it began |
| Shutdown.LetInWithoutRestart | include/af/detail/runtime/runtime_dispatch.hpp:247-254 | between loading the generation and being let in, no init began a new one |
| Shutdown.LetInTakesTask | include/af/detail/runtime/runtime_public_api.hpp:136-155 | a post that was let in takes the task if and only if the task is new or waiting |
| ShutdownProgress.ShutdownCompletes | include/af/detail/runtime/runtime_public_api.hpp:31-77 | every run can be continued, without new posts from outside, until the runtime is Stopped and at rest |
| QueueCapacity.NextPowerOfTwo | include/af/detail/queue/bounded_queue_common.hpp:20-33 | the bit-smearing loop yields the least power of two at or above its argument, or zero exactly when there is none below 2^64 |
| QueueCapacity.NormalizeCapacity | include/af/detail/queue/bounded_queue_common.hpp:43-51 | the capacity is the least power of two at or above max(2, requested), and an error exactly above 2^62 |
| QueueCapacity.MaskedPosition | include/af/detail/queue/bounded_queue_common.hpp:43-51 | masking a wrapped position is taking it modulo the capacity |
| QueueCapacity.SequenceOrder | include/af/detail/queue/bounded_queue_common.hpp:15-18 | the wrapped comparison of a sequence with a position is the true one while they are less than 2^63 apart |
| RingQueue.StepKeepsInv | include/af/detail/queue/bounded_mpsc_queue.hpp:27-128 | every step of any producer and consumer keeps the agreement of cells, reservations and deliveries |
| RingProperties.PopsInReservationOrder | include/af/detail/queue/bounded_mpsc_queue.hpp:97-128 | MPSC: popped values are always the first values in reservation order, each once, and only grow |
| RingProperties.BatchIsContiguous | include/af/detail/queue/bounded_mpsc_queue.hpp:51-95 | from its reservation on, the values of one batch push stand next to each other in reservation order |
| RingProperties.BatchIsPoppedInOrder | include/af/detail/queue/bounded_mpsc_queue.hpp:51-128 | the only consumer pops them one after the other |
| RingProperties.FullMeansFull | include/af/detail/queue/bounded_mpsc_queue.hpp:27-95 | a push of the MPSC queue gives up if and only if exactly capacity positions are reserved and unreleased when it looks at the current position |
| RingProperties.EmptyMeansNotReady | include/af/detail/queue/bounded_mpsc_queue.hpp:97-109 | a pop of the MPSC queue gives up if and only if nothing is reserved or the next value is not published yet |
| RingProperties.RefusedPush | include/af/detail/queue/bounded_mpmc_queue.hpp:26-48 | a push of either queue gives up, changes nothing and says so, if and only if the position one lap before the current one is unreleased |
| RingProperties.TakesWhatFits | include/af/detail/queue/bounded_mpsc_queue.hpp:62-86 | a batch push that stops scanning at the current position reserves all its values, or exactly the free cells in a row |
| RingProperties.PushTells | include/af/detail/queue/bounded_mpsc_queue.hpp:84-93 | a finished push answers with the number of values it put in, which are those of its batch |
| RingProperties.RefusedPop | include/af/detail/queue/bounded_mpmc_queue.hpp:50-72 | an MPMC pop gives up if and only if it is at the current position and that one is not reserved or not published yet |
| RingProperties.DeliveredOnce | include/af/detail/queue/bounded_mpmc_queue.hpp:26-72 | MPMC: each claimed position goes to the one consumer that claimed it, with the value its producer stored |
| RingProperties.NoOverwrite | include/af/detail/queue/bounded_mpmc_queue.hpp:26-72 | no cell is overwritten while a consumer holds it |
| RingProperties.NothingIsLost | include/af/detail/queue/bounded_mpmc_queue.hpp:26-72 | with no thread inside a cell, everything below the head was delivered and everything above sits in its cell |
| RingProgress.PushAlone | include/af/detail/queue/bounded_mpsc_queue.hpp:51-95 | from every reachable state a push that goes on alone returns, having put in the longest prefix for which there are free cells in a row |
| RingProgress.PopAlone | include/af/detail/queue/bounded_mpmc_queue.hpp:50-72 | from every reachable state an MPMC pop that goes on alone returns, with the next value if it is published and with nothing otherwise |
| RingProgress.SolePopAlone | include/af/detail/queue/bounded_mpsc_queue.hpp:97-109 | so does a pop of the only consumer |
| SpscWords.Distance | include/af/detail/queue/bounded_spsc_queue.hpp:22-32 | wrapped positions subtract to their true distance |
| SpscWords.SlotIsCell | include/af/detail/queue/bounded_spsc_queue.hpp:32-33 | the masked wrapped index is the position modulo the capacity |
| SpscWords.CopySlotIsCell | include/af/detail/queue/bounded_spsc_queue.hpp:55-62 | the two copy loops of a batch store each value at its position modulo the capacity |
| SpscQueue.Queue.TryPush | include/af/detail/queue/bounded_spsc_queue.hpp:22-35 | appends exactly when not full, whatever the cached head is |
| SpscQueue.Queue.TryPushMany | include/af/detail/queue/bounded_spsc_queue.hpp:37-66 | appends the longest prefix that fits |
| SpscQueue.Queue.TryPop | include/af/detail/queue/bounded_spsc_queue.hpp:68-80 | removes the oldest value exactly when there is one |
| SpscQueue.Queue.TryPopMany | include/af/detail/queue/bounded_spsc_queue.hpp:82-104 | removes the oldest values in order, all of them up to the limit |
| SpscProtocol.StepKeepsInv | include/af/detail/queue/bounded_spsc_queue.hpp:22-104 | every step of the two threads keeps buffer, positions and stale copies consistent |
| SpscProtocol.FirstInFirstOut | include/af/detail/queue/bounded_spsc_queue.hpp:22-104 | popped values are a prefix of pushed values and at most capacity are inside, also after the 64-bit words wrap |
| SpscProtocol.NoValueOverwritten | include/af/detail/queue/bounded_spsc_queue.hpp:55-62 | a store never hits a value that is not yet popped |
| SpscProtocol.RefusedOnlyWhenFull | include/af/detail/queue/bounded_spsc_queue.hpp:44-53 | a push gives up exactly when the queue is full at its load, and otherwise takes what fits then |
| SpscProtocol.StaleHeadIsSafe | include/af/detail/queue/bounded_spsc_queue.hpp:22-47 | a push that trusts its cached head has room |
| SpscProtocol.EmptyOnlyWhenEmpty | include/af/detail/queue/bounded_spsc_queue.hpp:82-99 | a pop gives up exactly when the queue is empty at its load, and otherwise takes all up to its limit |
| SpscProtocol.PublishedWhole | include/af/detail/queue/bounded_spsc_queue.hpp:37-66 | a batch becomes visible whole and after its values are stored |
| SpscProgress.PushAlone | include/af/detail/queue/bounded_spsc_queue.hpp:37-66 | from every reachable state a push that goes on alone returns, having put in as many values as there is room for, whatever its cached position |
| SpscProgress.PopAlone | include/af/detail/queue/bounded_spsc_queue.hpp:82-104 | and a pop returns with all the values that are there, up to its limit |
| FreeStack.StepKeepsInv | include/af/detail/memory/object_pool.hpp:169-237 | every step of any thread, and every hand-over of a popped slot to another thread, keeps chain, links, owners and each walk or half-linked batch consistent |
| FreeStack.SlotsArePartitioned | include/af/detail/memory/object_pool.hpp:169-237 | each slot is on the acyclic free chain exactly once or owned by exactly one thread |
| FreeStack.PopTakesTheTop | include/af/detail/memory/object_pool.hpp:169-204 | a pop whose exchange succeeds takes exactly the current top of the chain, although it walked unprotected links |
| FreeStack.PushIsLinked | include/af/detail/memory/object_pool.hpp:206-237 | a push whose exchange succeeds puts slots its thread owns, whoever popped them, in order on the current top |
| FreeStack.PopReturns | include/af/detail/memory/object_pool.hpp:169-204 | a pop returns with as many slots from the top of the current chain as it asked for or all there are, and so with none if and only if no slot is free |
| FreeStack.PushReturns | include/af/detail/memory/object_pool.hpp:206-237 | a push returns with all its slots free, in order, on top of a well-linked chain |
| FreeStackProgress.PopAlone | include/af/detail/memory/object_pool.hpp:169-204 | from every point of a pop in every reachable state, a thread that goes on alone returns with those slots |
| FreeStackProgress.PushAlone | include/af/detail/memory/object_pool.hpp:206-237 | and from every point of a push |
| PoolCache.LocalCache.FlushSome | include/af/detail/memory/object_pool.hpp:308-318 | the last slots leave the cache and each goes back to its own block; runs of slots of one block leave in one batch |
| PoolCache.LocalCache.Flush | include/af/detail/memory/object_pool.hpp:302-306 | everything goes back |
| PoolCache.LocalCache.Pop | include/af/detail/memory/object_pool.hpp:320-325 | the slot cached last, or none exactly when the cache is empty |
| PoolCache.LocalCache.Refill | include/af/detail/memory/object_pool.hpp:704-707 | as many slots as are there and fit |
| PoolCache.LocalCache.ReleaseLocal | include/af/detail/memory/object_pool.hpp:655-678 | the slot is kept; a full cache first gives back its last half, so it never runs over |
| PoolCache.LocalCache.ReleaseRemote | include/af/detail/memory/object_pool.hpp:331-336 | the slot is kept until a batch is complete, which then goes back whole |
| PoolCacheSet.CacheSet.Get | include/af/detail/memory/object_pool.hpp:398-533 | the pool's own cache, or one more that becomes its own; a cache is taken away only when all have owners; at most one cache per pool; for one cache or several |
| PoolCacheSet.CacheSet.FindReleaseCache | include/af/detail/memory/object_pool.hpp:477-545 | finds the pool's cache exactly when it has one |
| PoolCacheSet.CacheSet.DirectInsert | include/af/detail/memory/object_pool.hpp:367-387 | the pool is in the set afterwards, and no pool with a cache is; another pool loses its entry only if none was free |
| PoolCacheSet.CacheSet.DirectErase | include/af/detail/memory/object_pool.hpp:389-395 | the pool and only the pool is gone |
| PoolCacheSet.CacheSet.Discard | include/af/detail/memory/object_pool.hpp:493-499 | no cache and no entry of the pool is left |
| PoolConservation.StepKeepsInv | include/af/detail/memory/object_pool.hpp:593-723 | acquire, release, refill, flush, eviction and new blocks keep every slot in one place |
| PoolConservation.SlotsAreConserved | include/af/detail/memory/object_pool.hpp:276-349 | over any history each slot is in exactly one place once: its own block's free list, one cache, or in use |
| PoolConservation.CachesStayBounded | include/af/detail/memory/object_pool.hpp:276-349 | no cache exceeds its capacity or holds a slot of another pool |
| PoolSteps.FlushTakesSteps | include/af/detail/memory/object_pool.hpp:308-318 | the pushes of a flush are steps of the whole-pool machine and leave the cache with what it kept |
| PoolSteps.PopTakesStep | include/af/detail/memory/object_pool.hpp:593-602 | what a pop of a cache does is a step of that machine |
| PoolSteps.RefillTakesStep | include/af/detail/memory/object_pool.hpp:704-707 | so is a refill, which never overfills the cache |
| PoolSteps.ReleaseLocalTakesSteps | include/af/detail/memory/object_pool.hpp:655-678 | a release into the cache of an acquiring thread is a flush of half a full cache, if need be, and then a step that finds room |
| PoolSteps.ReleaseRemoteTakesSteps | include/af/detail/memory/object_pool.hpp:331-336 | a release into the cache of a releasing thread finds room, and a complete batch is flushed |
| PoolSteps.EvictionTakesSteps | include/af/detail/memory/object_pool.hpp:286-306 | a cache that changes its pool is flushed and then reassigned |
| LogAccounting.StepKeepsInv | include/af/detail/log/async_logger.hpp:611-652 | every step of any producer and the consumer keeps counters, lanes and backends consistent |
| LogAccounting.PendingIsExact | include/af/detail/log/async_logger.hpp:487-514 | pending is the records held by producers, queued, or in the consumer's hands |
| LogAccounting.CountersNeverUnderflow | include/af/detail/log/async_logger.hpp:602-652 | neither counter is lowered below zero, although the consumer may pop records not yet counted ready |
| LogAccounting.FlushIsSound | include/af/detail/log/async_logger.hpp:611-652 | when a flush sees pending at zero, every record accepted so far was given to every backend, once and in lane order |
| LogAccounting.LaneOrderIsKept | include/af/detail/log/async_logger.hpp:654-732 | each backend has always received a prefix of what each lane accepted |
| LogProgress.FlushCompletes | include/af/detail/log/async_logger.hpp:611-652 | every run can be continued with nothing new being logged until pending is zero, and then every accepted record has reached every backend |
| LogCollect.Lanes.Collect | include/af/detail/log/async_logger.hpp:685-732 | the round-robin takes records from lane fronts, and stops short of the limit only when every lane is empty |
| LogConsumer.StepKeepsInv | include/af/detail/log/runtime_async_log_consumer.hpp:102-129 | every step keeps exactly one of: idle, about to be scheduled, run owed, running |
| LogConsumer.NeverParkedOnRecords | include/af/detail/log/runtime_async_log_consumer.hpp:189-202 | Idle with ready records only while a thread that raised the count from zero has yet to exchange the wake state |
| LogConsumer.RecordsAreSeenTo | include/af/detail/log/runtime_async_log_consumer.hpp:46-66 | until the consumer has finished, ready records always have a run, an owed run, or a thread about to cause one |
| LogConsumer.OneWakePerIdlePeriod | include/af/detail/log/runtime_async_log_consumer.hpp:102-129 | each Idle period causes at most one wake of the consumer task |
| LogConsumer.OneTurn | include/af/detail/log/runtime_async_log_consumer.hpp:102-129 | also after refused scheduling: always exactly one of idle, about to be scheduled or undone, run owed, running; and the started flag is true exactly when the task was ever scheduled |
| LogConsumerProgress.ReadyRecordsAreDrained | include/af/detail/log/runtime_async_log_consumer.hpp:46-66 | as long as no scheduling was refused, every run can be continued with nothing new until no record is ready or the consumer has finished |
| LogConsumerProgress.DrainsThenParks | include/af/detail/log/runtime_async_log_consumer.hpp:189-202 | and then until it is parked Idle with no run owed, or has finished |
| LogConsumerTask.StepKeepsInv | include/af/detail/log/runtime_async_log_consumer.hpp:46-66 | parking and task scheduling together: a run is owed exactly when one thread is about to start one |
| LogConsumerTask.FreshNeverRefused | include/af/detail/log/runtime_async_log_consumer.hpp:102-129 | every step of a consumer wake goes on or takes effect; the protocol never refuses it |
| LogConsumerTask.ConsumerWakesAreNotLost | include/af/detail/log/runtime_async_log_consumer.hpp:102-129 | no wake of the consumer task is refused or lost, in any run |
| LogConsumerTask.OwedIsReal | include/af/detail/log/runtime_async_log_consumer.hpp:30-38 | the bit that stands for a scheduled run is true exactly when the protocol has a run under way |
| LogConsumerTask.RecordsAreSeenTo | include/af/detail/log/runtime_async_log_consumer.hpp:46-66 | until the consumer has finished, ready records have a run, a run under way in the protocol, or a thread about to cause one |
| ForkJoin.CountTargets | include/af/detail/runtime/runtime_parallel.hpp:23-31 | the loop counts the shards that will be launched |
| ForkJoin.StepKeepsInv | include/af/detail/runtime/runtime_common_state.hpp:98-109 | every step of the launcher and of any completing shard keeps pending, failed and the owner consistent |
| ForkJoin.ResumedOnceAfterAll | include/af/detail/runtime/runtime_parallel.hpp:19-68 | the owner is resumed at most once, only after all launched shards completed, and exactly once in the end |
| ForkJoin.GroupOutlivesUsers | include/af/detail/runtime/runtime_common_state.hpp:98-109 | the group is alive whenever it is used, and destroyed only with nothing left to launch |
| ForkJoin.RunsWhereItBelongs | include/af/detail/runtime/runtime_parallel.hpp:45-68 | a launched shard was posted, to the thread that is the first one plus its number, if and only if that is not the launching thread; the launcher runs in place only a shard of its own thread |
| ForkJoinProgress.Completes | include/af/detail/runtime/runtime_parallel.hpp:19-68 | every run can be continued until the launcher returned, every target finished and the owner was resumed once |
| ForkJoin.ResumedWithExactCount | include/af/detail/runtime/runtime_parallel.hpp:33-36 | the count the owner finds is the number of failed shards if and only if a shard was launched or its old count was zero |
| ForkJoin.StaleCountIsSeen | include/af/detail/runtime/runtime_parallel.hpp:33-36 | a concrete call with nothing to launch after a failed one |
| BatchSequencer.Sequencer.Submit | include/af/batch_sequencer.hpp:90-107 | what was handed over is again the first copy of each number from the first to the least never submitted; duplicates are exactly the numbers seen or below the first |
| BatchSequencer.Sequencer.DrainReady | include/af/batch_sequencer.hpp:115-126 | hands over buffered batches until the next number is missing |
| BatchSequencer.SameState | include/af/batch_sequencer.hpp:82-130 | two sequencers whose histories agree on the first copy of each number from the first on have the same next number, buffered batches and output |
| BatchSequencer.OrderDoesNotMatter | include/af/batch_sequencer.hpp:82-130 | histories agree in this sense whenever the batches submitted under each number begin alike, in any interleaving and with any repetition |
| ConnectionSlots.Table.Acquire | include/af/net/tcp_server.hpp:1485-1522 | an empty slot, reserved, under a generation no issued handle of its last uses has |
| ConnectionSlots.Table.ReleaseUnused | include/af/net/tcp_server.hpp:1524-1536 | a reserved slot goes back and the table is exact again |
| ConnectionSlots.Table.Create | include/af/net/tcp_server.hpp:1174-1217 | a new connection gets a new name and is found through its handle; earlier names and all other live connections stay as they are; it fails, and then changes no live connection, exactly without a slot, without memory for the connection, or when registering fails |
| ConnectionSlots.Table.Close | include/af/net/tcp_server.hpp:1538-1543 | only this connection stops being alive, and it waits to be reaped |
| ConnectionSlots.Table.CloseBy | include/af/net/tcp_server.hpp:1031-1039 | the connection the handle leads to, if any, stops being alive, and no other; the answer says whether there was one |
| ConnectionSlots.Table.ReapRetired | include/af/net/tcp_server.hpp:1545-1569 | afterwards exactly the live connections are in the table, in their slots |
| ConnectionSlots.Table.TrimEmptyTail | include/af/net/tcp_server.hpp:1587-1593 | no empty slot is last, and nothing else changes |
| ConnectionSlots.Table.EraseFree | include/af/net/tcp_server.hpp:1595-1602 | removes the slot from the free list and keeps the others distinct |
| ConnectionSlots.Table.Find | include/af/net/tcp_server.hpp:1473-1483 | the live connection under exactly this slot and generation |
| ConnectionSlots.HandleResolves | include/af/net/tcp_server.hpp:1473-1522 | a handle resolves if and only if its slot's latest connection lives and its use is the same modulo 2^32 - 1, and to its own connection only if it is the same use |
| ConnectionSlots.Replay | include/af/net/tcp_server.hpp:1174-1217 | any sequence of creations, closes and reaps takes the table through a history in which each operation does to the live connections what it should, and each handle returned is that of the connection made in that step |
| ConnectionSlots.HandlesNeverAlias | include/af/net/tcp_server.hpp:1473-1602 | over every history, a handle returned by one step resolves at any later one only to the connection of that step, with fewer than 2^32 - 1 reuses of its slot |
| ConnectionSlots.LiveIsFound | include/af/net/tcp_server.hpp:1473-1483 | a live connection is found through its own handle |
| ConnectionSlots.Table.FreeListIsExact | include/af/net/tcp_server.hpp:1587-1602 | the free list names each empty slot once and nothing else |
| BufferChain.Chain.PushBack | include/af/buffer/buffer.hpp:186-193 | appends the bytes |
| BufferChain.Chain.PopFront | include/af/buffer/buffer.hpp:211-219 | removes the bytes of the first buffer |
| BufferChain.Chain.RemovePrefix | include/af/buffer/buffer.hpp:221-234 | removes exactly the first bytes, across buffers and compaction, and keeps the byte count |
| BufferChain.Chain.FillViews | include/af/buffer/buffer.hpp:247-257 | views of a prefix of the bytes, not empty when there are any |
| BufferChain.Chain.EnsureTotalClean | include/af/buffer/buffer.hpp:260-271 | the byte count is exact again |
| BufferChain.Chain.CompactFrontIfNeeded | include/af/buffer/buffer.hpp:273-295 | forgets consumed buffers and nothing else, so that they stay fewer than 32 or than the others |
| ConnectionOutput.Connection.SendBuffer | include/af/net/tcp_server.hpp:434-454 | accepts the whole payload or nothing: Closed if and only if it refuses payloads or the flush closes it, Backpressure if and only if there is no room or memory, and Accepted means that every byte is sent or queued; wire plus queue stays the accepted bytes, within the watermark |
| ConnectionOutput.Connection.SendView | include/af/net/tcp_server.hpp:456-501 | the same through the direct send, and closed exactly by a failed direct send or the flush; torn if and only if the socket takes a part and there is no memory for the rest |
| ConnectionOutput.Connection.FlushOutput | include/af/net/tcp_server.hpp:636-669 | any pattern of partial sends keeps wire plus queue; what is closed or half-closed, and whether all was written, is decided by the queued lengths and the kernel's answers; leftover output stays armed for writing |
| ConnectionOutput.StopsExactly | include/af/net/tcp_server.hpp:636-669 | a flush stops with bytes queued because a send took nothing, would block or failed, if and only if some answer says so while bytes are queued and all before it let the flush go on |
| ConnectionOutput.DirectIsDecidedBy | include/af/net/tcp_server.hpp:467-494 | the first answer that is not an interruption decides how much the direct send takes and whether it fails |
| ConnectionOutput.FlushStops | include/af/net/tcp_server.hpp:636-669 | it runs out of bytes exactly when nothing is left |
| ConnectionOutput.ClosesWithBytesLeft | include/af/net/tcp_server.hpp:646-661 | a concrete connection closes locally with a byte unwritten |
| ConnectionOutput.HalfClosesWithBytesLeft | include/af/net/tcp_server.hpp:646-667 | a concrete connection half-closes with a byte unwritten |
| ConnectionOutput.TornPayload | include/af/net/tcp_server.hpp:467-501 | a concrete payload is refused after a part of it went out |
| ConnectionOutput.Connection.SendOnce | include/af/net/tcp_server.hpp:671-696 | what the kernel took moves from the queue to the wire, in order |
| ConnectionOutput.Connection.CloseAfterFlush | include/af/net/tcp_server.hpp:503-514 | closes at once exactly when everything accepted was written |
| ConnectionOutput.Connection.ShutdownWrite | include/af/net/tcp_server.hpp:516-526 | half-closes at once if and only if everything accepted was written and the call succeeds, and returns whether it was or will be done |
| PacketStream.StreamParser.Feed | examples/net_tcp_login_server.cpp:100-146 | delivers, buffers and fails exactly as the meaning of the bytes says; without memory nothing changes |
| PacketStream.Scan | examples/net_tcp_login_server.cpp:113-140 | the loop finds the packets of the buffered bytes and where they end |
| PacketStream.ChunkingDoesNotMatter | examples/net_tcp_login_server.cpp:100-146 | for every stream and every split into reads, packets, error and unfinished tail depend only on the stream |
| PacketStream.RejectedExactly | examples/net_tcp_login_server.cpp:113-127 | bytes that begin with a header are an error at once if and only if the header's bytes declare a length below two or above 65538; fewer than six bytes never are |
| PacketStream.PrintedPacketsAreRecovered | examples/net_tcp_login_server.cpp:77-146 | printed packets of at most 64 KiB, cut in any way, are recovered exactly, and a partial packet that follows stays buffered |
| PacketStream.RecoveredExactlyUpToLimit | examples/net_tcp_login_server.cpp:77-92 | a printed packet is recovered if and only if its payload is at most 64 KiB |

## Left out

- TaskNoLostWake.NoWakeIsLost: one executor runs the task and inserts into its queue wait for room; for several executors and rejected inserts only exclusivity is stated.
- Shutdown.RestLasts: work comes from external posts, running tasks and IO completions of waiting tasks, under the policy that waits for tasks.
- LogConsumer.NeverParkedOnRecords: holds up to the first refused scheduling of the consumer task, as do the other results of that module; `LogConsumerTask` shows that none is refused while inserts wait for room.
- LogConsumerTask.ConsumerWakesAreNotLost: the runtime is running, so that posts are admitted, and inserts into the consumer's queue wait for room.
- Weak memory orders, and wrap-around of run epochs, wake epochs, versions and ring sequence numbers beyond what `WordCodec`, `QueueCapacity` and `SpscProtocol` state.
- TaskProgress.ForcedRunBegins: a body that is running is taken to end with "pending", the one result that does not queue the task by itself; its conclusion is that a continuation exists, as in all results on progress.
- RingProgress.PushAlone: the push is taken from its beginning; one that goes on from the middle may find cells released since it scanned them.
- ExecutorProgress.WorksThenSleeps: tasks that run meanwhile are taken to post nothing.
- Ready bits of an executor: they only steer the order in which queues are looked at.
- Routing of entries between the queues of different executors: an entry counts the same wherever it is.
- Rejection of a blocking insert at shutdown, and cancellation of tasks by an immediate shutdown.
- The pool variant that caches the slot index in the slot.
- The single-producer record pool of the logger and its spare slot; the shared record pool is `FreeStack` with pops of one slot.
- Stopping the log consumer from outside.
- Shard cancellation in `ForkJoin`, and the order guard and ordered start of batches.
- Re-entrant calls from user callbacks: submitting from within a submit callback, sending from within a close callback, reaping inside a callback.
- Sharing of buffer storage between buffers, and appending to or slicing a buffer.
- Allocation failure in the bookkeeping vectors of the slot table; more than 2^32 slots.
- Batch numbers of the sequencer that wrap around 2^64.
- Timers, sockets, listeners, file descriptors, signals, log backends and configuration: thin layers over the operating system.

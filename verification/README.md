# Verified models of the tmc-examples pipelines, pool, batch processor and benchmarks

The repository's examples are protocols built on a coroutine runtime: two data pipelines with backpressure, a
thread pool driven from outside, a batch processor that races a queue against a timer, and two benchmarks whose
result is a closed form.  This project models those protocols and proves what they promise, for every input,
every size and every interleaving.  Verify it with `dafny verify dfyconfig.toml`.

The runtime's own primitives are used only through the behaviour their tests fix: an exact-capacity bounded queue
whose push waits when full and whose pull drains after close, one live pulled scope per queue, an unbounded channel
whose post fails after close, a counting semaphore, forked tasks that finish at some later step, and a two-slot mux
whose slots may be forked only when idle.

## The models

* FIFO pipeline (`examples/pipeline_fifo.hpp`).  `FifoPipeline` is a transition system: N stages, N+1 bounded
  queues, the driver, the forked tasks, and the end stage in both its variants.  Each `Action` names the source
  lines it stands for.  A queue keeps everything ever pushed and a `released` mark, so "the window
  [released, pushed)" is literal; a slot is occupied until the scope on it is destroyed.  `FifoInvariant`,
  `FifoLiveness`, `FifoTheorems`, `FifoWaiting`, `FifoLoops`, `FifoOvertaking` and `FifoInlineEnd` hold the proofs;
  `FifoWorkers` has the three worker loops as loops over a queue object whose other end moves at any pace of its own.
* Unordered pipeline (`examples/pipeline.hpp`).  `UnorderedPipeline` is a transition system in which construction
  is itself a step, so workers of early stages and the driver may run before later stages exist.  A post to a
  closed channel drops its item in the model, as ignoring its result does in the program.  `UnorderedWorkers` has
  the worker and driver loops over channel and semaphore objects.  `UnorderedAccounting` states once how every step
  changes any weighted total; permits, copies of a value, items in flight and steps to come are instances of it.
  `UnorderedWaiting` says what each party waits for, `UnorderedLoops` that its steps are those of its loop.
* External executor (`examples/external/external_executor.hpp`, `.cpp`).  `ExternalExecutor` is the object with its
  loops: one thread in `run` while others post and request stop whenever it does not hold the mutex.  `PoolProtocol`
  is the same code under any number of threads, with the mutex, the condition variable, spurious wakeups,
  notifications sent after the mutex is released, and work that posts work; `PoolDrain` proves the drain after stop,
  `PoolProgress` that a pool makes progress before it, `PoolLatePosts` when exactly a late post is served, and
  `PoolWaiting` what threads wait for and how many notifications there are.
* Timed batch processor (`examples/asio/batch_processor.cpp`).  `BatchProcessor` is the loop over a mux object;
  `BatchProtocol` puts it among posters, the close and the timer.
* `Skynet` (`examples/skynet.cpp`) and `ChanBench` (`examples/chan_bench.cpp`), over machine words of any size.
* `ExamplePipelines` instantiates both pipelines with the example programs' steps.

A run is a sequence of enabled steps from the initial state.  "Stuck" means that no step is enabled.  A theorem
about every run therefore covers every schedule; termination is a measure that every step reduces.

Where a stage is given no semaphore for its input (`inSem` null) the permit statements do not apply to its input
channel, and the bound on items in flight, which depends on them, requires it; everything else holds either way.

Four comments of the FIFO pipeline (`examples/pipeline_fifo.hpp:25-26`, `141-143`, `158-159` and
`examples/pipeline_fifo.cpp:54`) call the start stage's input member `in`; the code names it `input_queue`.

## Model

| member | source | states |
|---|---|---|
| FifoTheorems.EveryRunHandsOverInOrder | examples/pipeline_fifo.hpp:80-128 | In every run, for any number of stages, any parallelism and any order of task completion, the values handed to consume tasks or inline calls so far are a prefix of the inputs mapped through all stages in order; only handed-over values are consumed, and at most once; when everything has returned every mapped input has been consumed exactly once |
| FifoTheorems.EveryRunFinishes | examples/pipeline_fifo.hpp:80-128 | No run has more than (N+1)(8n+3)+3n steps, and the runs that cannot be extended are exactly those in which the driver has closed and every worker has returned |
| FifoTheorems.SerialRunConsumesInOrder | examples/pipeline_fifo.hpp:197-223 | With end parallelism 1, inline or general worker, the consume calls begin in input order and each finishes before the next begins; what is consumed is always a prefix of the mapped inputs and all of them at the end |
| FifoOvertaking.OvertakingBounded | examples/pipeline_fifo.hpp:225-291 | With any end parallelism P the consume calls, which run in parallel, overtake one another by fewer than P places: of the values handed over in input order, all but the last P have been consumed |
| FifoOvertaking.CallsCanOvertake | examples/pipeline_fifo.hpp:303-309 | A run with end parallelism 2 in which the second input's call begins and ends before the first's has begun: input order of the calls themselves holds at parallelism 1 only |
| FifoLiveness.NeverDeadlocked | examples/pipeline_fifo.hpp:80-128 | A state in which no step is possible is one in which the driver has closed and every worker has returned, although workers keep their input slot while their push blocks |
| FifoLiveness.UpstreamCanMove | examples/pipeline_fifo.hpp:84-102 | Below an open empty queue somebody upstream can always move |
| FifoLiveness.MeasureFalls | examples/pipeline_fifo.hpp:80-128 | Every step of any party reduces one measure, so every schedule terminates |
| FifoInvariant.StepKeepsInv | examples/pipeline_fifo.hpp:80-128 | Every step keeps the inductive invariant: queue windows, slot values, one forked task per item taken, closure, the end stage's counter, and where every value handed over is: with a task not begun, in a call, or consumed |
| FifoTheorems.UnfinishedTasksBounded | examples/pipeline_fifo.hpp:73-77 | A stage never has more unfinished forked tasks than its parallelism |
| FifoTheorems.HandlesAwaitedInOrder | examples/pipeline_fifo.hpp:84-102 | The awaited handles of a queue are exactly those released and the one in hand: each awaited once, in queue order, before its slot is released |
| FifoTheorems.OnlyAwaitAwaits | examples/pipeline_fifo.hpp:84-86 | The number of awaited handles grows by one on an await and on no other step |
| FifoTheorems.ItemsInFlightBounded | examples/pipeline_fifo.hpp:21-26 | Items pushed by the driver and not yet handed to a consume task or inline call never exceed the start stage's parallelism plus the sum of all stages' parallelism; at most the end parallelism are handed over and not consumed; and items whose consume call has not begun, or not ended, never exceed that sum plus the end parallelism less one |
| FifoWaiting.QueuesHoldTheirParallelism | examples/pipeline_fifo.hpp:169-171 | The input queue never holds more than the start stage's parallelism, and a stage's output queue never more than that stage's; and a push or fork goes through at once exactly while there are fewer |
| FifoWaiting.WorkerWaits | examples/pipeline_fifo.hpp:80-128 | In every reachable state a transform worker that has not returned waits for an element of an empty open queue, for the task of the element it has, or for room for its own parallelism of tasks; and for nothing else |
| FifoWaiting.EndStageWaits | examples/pipeline_fifo.hpp:225-291 | The end worker waits for an element, for its task, or, with its parallelism of consume tasks in flight or no more input, for the oldest of them; and for nothing else |
| FifoWaiting.DriverWaits | examples/pipeline_fifo.cpp:78-90 | The driver waits only while the input queue holds as many elements as the start stage's parallelism |
| FifoWaiting.OnlyNext | examples/pipeline_fifo.hpp:80-128 | Each coroutine is sequential: in every state at most one step is its own |
| FifoWaiting.TasksFinishInAnyOrder | examples/pipeline_fifo.hpp:7-12 | Whatever tasks a stage has running may finish in any order, each leaving its value in its own slot |
| FifoWaiting.CallsBeginInAnyOrder | examples/pipeline_fifo.hpp:303-309 | The consume tasks forked may make their calls in any order |
| FifoWaiting.CallsEndInAnyOrder | examples/pipeline_fifo.hpp:303-309 | The consume calls in progress may end in any order |
| FifoWaiting.ConstructedWorker | examples/pipeline_fifo.hpp:293-302 | The end stage's constructor runs the inline worker at parallelism 1 and the general one otherwise, and is defined for any stages and parallelism that are not zero |
| FifoLoops.WorkerFollowsLoop | examples/pipeline_fifo.hpp:84-127 | In every run a transform worker's steps are its loop's: pull, await, fork, free the slot, round after round, until it sees its input closed and closes its output |
| FifoLoops.InlineWorkerFollowsLoop | examples/pipeline_fifo.hpp:201-223 | In every run the inline end worker's steps are its loop's: pull, await, call, return, free the slot |
| FifoTheorems.ClosedQueuesAreFrozen | examples/pipeline_fifo.hpp:125-127 | A closed queue stays closed, is not closed again, receives nothing more, and every queue upstream of it is closed and drained with its consumer returned |
| FifoTheorems.ClosesOnlyAfterDrain | examples/pipeline_fifo.hpp:84-127 | A worker closes its output only when its input is closed and drained, and the output then holds one task per input |
| FifoTheorems.EndStageNeverBlocksOnItself | examples/pipeline_fifo.hpp:229-291 | The end stage's counter equals the occupied slots of its internal queue and is below the parallelism at the loop head; its push always finds room and its pull an element; handles are awaited in fork order and none is left at return |
| FifoInlineEnd.GeneralRunIsInlineRun | examples/pipeline_fifo.hpp:225-291 | Every run of the general end worker at parallelism 1 is, step for step and with the same upstream steps, a run of the inline worker with the same consume calls begun and ended |
| FifoInlineEnd.InlineRunIsGeneralRun | examples/pipeline_fifo.hpp:198-223 | Every run of the inline fast path is, with the same upstream steps in the same order, a run of the general end worker at parallelism 1 |
| FifoInlineEnd.InitialStatesMatch | examples/pipeline_fifo.hpp:293-302 | The two end workers' initial states correspond, so both simulations cover every run from the start |
| FifoWorkers.Driver | examples/pipeline_fifo.cpp:78-90 | The driver loop pushes every input in order, waiting while the queue is full, and then closes it; these are all its calls, in this order |
| FifoWorkers.StageWorker | examples/pipeline_fifo.hpp:80-128 | The worker loop, whatever its producer pushes and its consumer releases meanwhile, and whenever: it forks one task per input, in input order, and closes its output only when its input is closed and drained; an input's slot is freed after its task has been pushed |
| FifoWorkers.WorkersCompose | examples/pipeline_fifo.hpp:179-195 | Worker loops chained through N stages produce every input mapped through all stages, in input order |
| FifoWorkers.InlineWorker | examples/pipeline_fifo.hpp:201-223 | The inline loop calls the consume function on every element of its input stream, in order, each before its element's slot is freed |
| FifoWorkers.EndWorker | examples/pipeline_fifo.hpp:226-291 | The general loop forks and awaits the whole stream in order, never pushes to a full internal queue, and runs as many tasks at once as its parallelism allows and no more; from the parallelism-th round on it awaits the oldest before it frees the slot of the input just forked |
| FifoWorkers.BoundedQueue.Pull | tests/test_qu_spsc_bounded.cpp:347-385 | The next element in order if there is or comes one, the producer having pushed as many as it is ready to and as there is room for; nothing once the queue is closed and drained |
| FifoWorkers.BoundedQueue.Push | tests/test_qu_spsc_bounded.cpp:742-787 | Appends the element, the consumer having released as many as it is ready to; on a full queue only after it has freed a slot |
| UnorderedTheorems.EveryRun | examples/pipeline.hpp:30-101 | In every run, for any worker counts, including workers that start before the stages after them are built: at most n(4N+6) + all worker counts + 3N+3 steps; it stops exactly when everything is closed, drained and joined; then the multiset consumed is the multiset of mapped inputs |
| UnorderedTheorems.ReachableConserves | examples/pipeline.hpp:34-50 | In every state of every run, for each value, the mapped inputs sent are those consumed plus those on their way: nothing lost, nothing duplicated |
| UnorderedOrder.SingleFileConsumesInOrder | examples/pipeline.hpp:34-50 | With one worker at every level, whatever the schedule, the items consumed are at every moment a prefix of the mapped inputs, and all of them at the end |
| UnorderedOrder.LineMoves | examples/pipeline.hpp:34-50 | With one worker at every level each step takes an item from the front of a level's line and puts what it has become at the back of the next one's |
| UnorderedTheorems.PostsSucceed | examples/pipeline.hpp:43-50 | No post, of a worker or the driver, finds its channel closed, so the ignored result is always success |
| UnorderedTheorems.PermitsAlwaysConserved | examples/pipeline.hpp:35-41 | Available permits, permits held by producers, items in the channel and items whose permit is not yet given back add up, once the consumer is built, to twice its stage's worker count, or the end stage's, and to zero before; so a channel never holds more than that |
| UnorderedTheorems.WorkersAsGiven | examples/pipeline.hpp:69-73 | In every reachable state each stage has exactly its worker count of workers, and the end stage its own; so no stage works on more items than that at once |
| UnorderedWaiting.WorkerWaits | examples/pipeline.hpp:34-50 | In every reachable state a worker that has been started and has not left waits for an item of an empty open channel, or for a permit to post the one it has; for nothing else, whichever worker it is |
| UnorderedWaiting.DriverWaits | examples/pipeline.cpp:80-85 | The driver waits only for a permit, if the input is gated, and at the end for its channel to be drained; not for stages to be built |
| UnorderedWaiting.CloserWaits | examples/pipeline.hpp:75-80 | The task that closes a stage's output waits for all the stage's workers, then for the output to be drained, and for nothing else |
| UnorderedWaiting.OnlyNext | examples/pipeline.hpp:34-50 | Each worker is sequential: in every state at most one step is its own |
| UnorderedLoops.WorkerFollowsLoop | examples/pipeline.hpp:34-50 | In every run a worker's steps are its loop's: pull, give the input permit back, acquire an output permit, post, round after round, until it leaves |
| UnorderedLoops.EndWorkerFollowsLoop | examples/pipeline.hpp:89-101 | In every run an end worker's steps are its loop's: pull, give the permit back, consume |
| UnorderedTheorems.ItemsInFlightBounded | examples/pipeline.cpp:80-84 | Items posted and not yet consumed never exceed three times the sum of all stages' worker counts and the end stage's |
| UnorderedLiveness.NeverDeadlocked | examples/pipeline.hpp:62-80 | A state in which no step is possible is one in which every stage is built, every worker has left, every closer has finished and every channel is empty |
| UnorderedLiveness.PermitsAvailable | examples/pipeline.hpp:62-67 | When everything from a channel on is at rest, its producers can get a permit |
| UnorderedLiveness.StuckIsQuiet | examples/pipeline.hpp:34-50 | When nothing can move, no worker holds an item and no channel has one |
| UnorderedLiveness.StuckIsClosed | examples/pipeline.hpp:77-80 | When nothing can move, every channel has been closed and every worker has left |
| UnorderedLiveness.MeasureFalls | examples/pipeline.hpp:34-51 | Every step of any party reduces one measure, so every schedule terminates |
| UnorderedAccounting.StepBalances | examples/pipeline.hpp:34-50 | For any numbers given to channel items and worker states, each step changes each level's total by exactly the stated amount |
| UnorderedInvariant.PermitsOnlyMove | examples/pipeline.hpp:35-41 | A step that takes a permit from one place puts it in another, and only a consumer's construction creates any |
| UnorderedInvariant.StepKeepsInv | examples/pipeline.hpp:30-101 | Every step keeps the inductive invariant: who may still post where, closure, and permit conservation |
| UnorderedWorkers.StageWorker | examples/pipeline.hpp:30-52 | The worker loop's own bookkeeping, as the calls it makes in order: of each item that falls to it, it gives the input permit back if there is an input semaphore, then acquires one output permit, then posts the result; the posts made before somebody closes the output are its share mapped, in order, and the later ones fail |
| UnorderedWorkers.EndWorker | examples/pipeline.hpp:87-101 | The end worker's loop consumes its share in order, each item after giving back one permit |
| UnorderedWorkers.Driver | examples/pipeline.cpp:80-85 | The driver loop acquires one permit before each post, posts every input in order, and closes |
| UnorderedWorkers.GrantCapacity | examples/pipeline.hpp:64-67 | A consumer's constructor grants twice its worker count, if there is a semaphore |
| UnorderedWorkers.Channel.Pull | tests/test_channel.cpp:353-358 | The next of the items that fall to this consumer; nothing once the channel is closed and drained |
| UnorderedWorkers.Channel.Post | tests/test_channel.cpp:204-219 | Appends on an open channel; fails and drops the item on a closed one |
| UnorderedWorkers.Semaphore.Acquire | tests/test_semaphore.cpp:48-75 | Takes one permit, after one has been released if there was none |
| UnorderedWorkers.Semaphore.Release | tests/test_semaphore.cpp:48-75 | Adds n permits |
| PoolDrain.QueuedWorkIsNotStranded | examples/external/external_executor.hpp:28-44 | No lost wakeup, for any number of threads and posters: with work queued and a thread inside run, a thread there is awake or a notify is still owed, and some step other than a spurious wakeup is possible |
| PoolWaiting.ThreadWaits | examples/external/external_executor.hpp:39-58 | In every reachable state a thread that has not returned sleeps on the condition variable or waits for the mutex, which its holder is then about to release or to test the queue under; and for nothing else |
| PoolWaiting.OutsidersWait | examples/external/external_executor.hpp:28-34 | Whoever posts or requests stop from outside waits for the mutex only, and can always send the notify it then owes |
| PoolWaiting.AnySleeperMayWake | examples/external/external_executor.hpp:33 | Any of the threads asleep may be the one that a notify, or chance, wakes, and the others sleep on |
| PoolWaiting.OneNotifyPerPost | examples/external/external_executor.hpp:28-34 | In every reachable state the notifies sent and still owed are exactly one for each post, from outside or by an item, and one to all for the request to stop |
| PoolProgress.PoolAtRestHasRunAll | examples/external/external_executor.hpp:36-53 | Stopped or not, when no thread inside run has a step left and no notify is owed, everything posted, nested items included, has been run exactly once, the threads inside all sleep, and stop has not been requested |
| PoolProgress.PoolComesToRest | examples/external/external_executor.hpp:39-58 | From every reachable state, stopped or not, a pool left to itself takes only a bounded number of steps and four more for each spurious wakeup, whatever the schedule |
| PoolProgress.LiveMeasureFalls | examples/external/external_executor.hpp:39-58 | Stopped or not, every step inside run and every owed notify reduces one measure: no thread can wake, test and sleep for nothing forever |
| PoolDrain.LastReturnMeansDrained | examples/external/external_executor.hpp:39-67 | If after stop only running items post, then when the last run has returned every item posted, nested ones included, has been started and finished exactly once, in posting order off the queue, each under its own priority |
| PoolLatePosts.DrainedIffEveryPostHeard | examples/external/external_executor.hpp:36-56 | Whoever posts when: with nobody left inside run, everything posted, nested items included, has been run exactly once if and only if every post from outside found a thread inside run or was followed by one entering |
| PoolLatePosts.StepInRun | examples/external/external_executor.hpp:39-57 | A thread leaves run only by finding stop requested and the queue empty, and comes in only by calling it |
| PoolLatePosts.LatePostIsStranded | examples/external/external_executor.hpp:54-56 | A run in which a post from outside, after the last run has returned, stays in the queue: without a condition on late posts the drain can fail |
| PoolDrain.StoppedPoolIsBounded | examples/external/external_executor.hpp:54-67 | From the moment stop is requested every schedule in which only running items post, spurious wakeups included, is bounded by a measure |
| PoolDrain.StoppedPoolComesToRest | examples/external/external_executor.cpp:56-59 | When a stopped pool has nothing left to do but wake spuriously, every thread has returned and everything posted has been run exactly once |
| PoolDrain.ReachableAccounts | examples/external/external_executor.hpp:45-53 | In every state of every run each item posted, at whatever depth, is finished, in a thread's hands, or still to be served |
| PoolDrain.MeasureFalls | examples/external/external_executor.hpp:54-56 | After stop every step brings the pool closer to rest |
| PoolDrain.StepKeepsGraceful | examples/external/external_executor.hpp:54-56 | A thread returns only after stop with the queue empty; work queued after that has its poster still inside run |
| PoolProtocol.StepKeepsWakeup | examples/external/external_executor.hpp:28-53 | Every step keeps the no-lost-wakeup invariant, given that threads sleep only after testing the predicate under the mutex |
| PoolProtocol.StepKeepsStop | examples/external/external_executor.hpp:61-67 | After stop nobody is asleep once the notify-all has fired |
| PoolProtocol.StepKeepsLock | examples/external/external_executor.hpp:40-53 | At most one thread holds the mutex, and it is the one testing the predicate or the queue |
| PoolProtocol.StepKeepsOrder | examples/external/external_executor.hpp:45-47 | Items leave the queue in posting order; each is entered under the priority it was posted with |
| ExternalExecutor.Executor.Run | examples/external/external_executor.hpp:39-58 | run as its nested loops, whatever other threads post, and whenever they request stop, while it waits or runs an item: it returns only with stop requested and the queue empty, and by then has started everything posted, nested items included, in posting order, each item under its own priority; and it returns as soon as it finds that, letting others in only while an item runs or while it sleeps with neither stop requested nor work queued |
| ExternalExecutor.Executor.Wait | examples/external/external_executor.hpp:42-44 | The wait returns with its predicate true, re-checked after every wakeup, and loses nothing |
| ExternalExecutor.Executor.Work | examples/external/external_executor.cpp:68-71 | The wrapper installs the item's priority before entering it; what the item posts is queued in order, among what other threads post meanwhile |
| ExternalExecutor.Executor.Post | examples/external/external_executor.hpp:28-34 | Appends one item and notifies once |
| ExternalExecutor.Executor.PostBulk | examples/external/external_executor.cpp:76-83 | Appends the items in order, all with the one given priority, and notifies once for each |
| ExternalExecutor.Executor.RequestStop | examples/external/external_executor.hpp:61-67 | Sets the flag and notifies all once |
| ExternalExecutor.ServiceServesAll | examples/external/external_executor.hpp:36-38 | Serving a queue in order while items and other threads post serves every item posted before the return exactly as often as it was posted |
| ExternalExecutor.LeftOnlyAfterStop | examples/external/external_executor.hpp:54-56 | What other threads do reaches run in their order, and run leaves some of it unseen only if stop had been requested by then |
| ExternalExecutor.ServiceAlone | examples/external/external_executor.hpp:45-53 | With nobody else about, run serves a queue breadth first |
| ExternalExecutor.BreadthFirstIsPostingOrder | examples/external/external_executor.hpp:45-53 | At every moment the queue so far, nested posts appended, is what has been served followed by what is still queued |
| BatchProtocol.EveryInterleaving | examples/asio/batch_processor.cpp:56-87 | In every state of every interleaving of posts, close, expiry and cancellation: processed batches, current batch and the item in the mux are the items pulled, in order; the timer slot is active exactly when the batch is non-empty; no empty batch; at most 2n+2 mux results; and whichever step comes next, a slot is forked only when idle or just taken, an active timer is left alone by a new item, and a result waiting in a slot stays until it is taken |
| BatchProtocol.ReturnMeansAllProcessed | examples/asio/batch_processor.cpp:70-86 | At return the queue is closed, both slots are idle, and the batches cut everything posted before the close into non-empty pieces, in order |
| BatchProtocol.ProcessorAdvances | examples/asio/batch_processor.cpp:56-87 | After the close something can always move until the processor has returned, and each such step reduces what is left; closed or not, while the batch has items the timer can complete or its expiry can be taken |
| BatchProtocol.ProcessorWaits | examples/asio/batch_processor.cpp:56-87 | Until it has returned the processor goes on exactly if an active slot has a result or none is active; with results in both either may come first; each slot completes for its own reason only; posters and whoever closes the queue wait for nothing |
| BatchProtocol.StepKeepsInv | examples/asio/batch_processor.cpp:56-87 | Every step keeps conservation, the slot protocol and the result count |
| BatchProcessor.TimedBatchProcessor | examples/asio/batch_processor.cpp:43-88 | The loop: the batches it processes are those of its specification, a slot is never forked while active, the timer is active exactly when the batch is non-empty, and n items in b batches take n + b + 2 mux results |
| BatchProcessor.OutcomesAreThePartitions | examples/asio/batch_processor.cpp:44-49 | The outcomes possible under some timing are exactly the ordered partitions of the items into non-empty batches |
| BatchProcessor.ServedPartitions | examples/asio/batch_processor.cpp:59-82 | Whatever the timing, every item is processed once, in order, in non-empty batches |
| BatchProcessor.Mux.ForkPull | tests/assert_mux_tuple.cpp:24-41 | Forks the pull slot, which must not be pending |
| BatchProcessor.Mux.ForkTimer | tests/assert_mux_tuple.cpp:24-41 | Forks the timer slot, which must not be pending |
| BatchProcessor.Mux.Next | examples/asio/batch_processor.cpp:57-58 | Delivers an active slot and clears its bit, or the end if none is active |
| Skynet.SkynetOne | examples/skynet.cpp:22-54 | For every base, depth and word size: the sum, modulo the word, of the 10^(depthMax-depth) consecutive numbers from the base |
| Skynet.Skynet | examples/skynet.cpp:55-60 | The count at the root equals 10^D(10^D-1)/2 modulo the word, for every depth D |
| Skynet.ExpectedResult | examples/skynet.cpp:13-18 | Both values of EXPECTED_RESULT, for 64-bit and 32-bit words, are that number for depth 6 |
| Skynet.ChildrenCover | examples/skynet.cpp:41-48 | The first k children of a task cover the first k times size of its leaves |
| Skynet.DepthOffset | examples/skynet.cpp:28-31 | The loop computes the number of leaves below a child, modulo the word |
| Skynet.AddResults | examples/skynet.cpp:50-53 | The loop adds the ten children's results with wrap-around |
| ChanBench.ProducerLoop | examples/chan_bench.cpp:22-29 | Pushes base, base+1, ..., count numbers in all, in order |
| ChanBench.ConsumerLoop | examples/chan_bench.cpp:36-45 | Returns the number and the sum of the elements that fall to it, modulo the word |
| ChanBench.SplitInto | examples/chan_bench.cpp:94-99 | The splitting loop: consecutive ranges from 0 on, the first rem of them one longer |
| ChanBench.Split | examples/chan_bench.cpp:91-99 | For every N and producer count at least 1 the ranges are consecutive, cover [0, N), and differ in size by at most one |
| ChanBench.TotalsAreExact | examples/chan_bench.cpp:22-45 | At the end of every interleaving the consumers' counts add up to N and their sums to N(N-1)/2, modulo the word, and every number below N was received exactly once |
| ChanBenchShares.ConsumerCountsItsShare | examples/chan_bench.cpp:31-45 | In every state of every run each consumer's count and sum are the number and the sum, modulo the word, of the elements that its own pulls took |
| ChanBenchShares.ConsumerInRun | examples/chan_bench.cpp:31-45 | The consumer's loop, run on that share, returns exactly those totals |
| ChanBenchShares.ReturnedConsumerIsFinal | examples/chan_bench.cpp:45 | A consumer that has returned takes nothing more and its totals never change |
| ChanBenchShares.ProducerPushesItsRange | examples/chan_bench.cpp:22-29 | In every run each producer pushes the numbers of its own range in order, all of them by the end |
| ChanBenchShares.TakenInOrderPushed | examples/chan_bench.cpp:36-39 | Elements are taken in the order in which they were pushed, whoever pushes and whoever takes |
| ChanBench.NeverDeadlocked | examples/chan_bench.cpp:105-112 | With at least one consumer no interleaving gets stuck before every producer and consumer has finished |
| ChanBench.RunsAreBounded | examples/chan_bench.cpp:22-45 | No interleaving has more than 2N + consumers + 1 steps |
| ChanBench.StepConserves | examples/chan_bench.cpp:22-45 | For any weight on numbers, what is unpushed, in the channel or received keeps the weight of [0, N) |
| ChanBench.Totals | examples/chan_bench.cpp:116-132 | The loops in main: totals and expected sum modulo the word |
| ChanBench.CheckResults | examples/chan_bench.cpp:114-137 | Of whatever results the check reports a wrong count exactly when the counts do not add up to N, and a wrong sum exactly when the sums do not add up to N(N-1)/2, modulo the word |
| ChanBench.Check | examples/chan_bench.cpp:122-137 | main's check passes after every interleaving, for every split, consumer count and word size |
| ExamplePipelines.PipelinesAgree | examples/pipeline_fifo.hpp:7-12 | For the same stage functions and inputs the two pipelines have consumed equal multisets when done, whatever their widths and schedules |
| ExamplePipelines.StepsCompute | examples/pipeline_fifo.cpp:36-41 | The four steps turn any input i into i + 1/2, 2i + 1, 2i, and true exactly when i >= 2 |
| ExamplePipelines.FifoMain | examples/pipeline_fifo.cpp:55-97 | Every completed run of the FIFO program consumes the results in input order and reports count n and sum n-2 (0 for n below 2) |
| ExamplePipelines.UnorderedMain | examples/pipeline.cpp:54-93 | Every completed run of the unordered program reports the same count and sum |
| ExamplePipelines.ReportOf | examples/pipeline_fifo.cpp:60-74 | The end stage's lambda counts the results and the true ones among them |
| Stages.FromThrough | examples/pipeline.hpp:43-50 | A value part-way through the stages ends where the input it came from ends |

## Left out

- The runtime's own queues, channel, semaphore, mux, executors and coroutine machinery: not part of this repository; only their tested behaviour is used.
- Update in place of the shared queues, channels and semaphores of the multi-party systems: where several parties interleave these are modelled on values, one state per step; the objects with fields are in FifoWorkers, UnorderedWorkers, ExternalExecutor and BatchProcessor, where a coroutine runs against objects whose other users act while it is suspended.
- Zero parallelism, zero workers, zero stages: the code does not define them; the models require at least one.
- Stage functions that throw or never return: a stage function is total and its task finishes at some later step; all stage types share one type of values.
- The template dispatch between plain and coroutine stage functions, and between value and handle inputs: a plain input value is a handle that is ready from the start.
- Weak memory ordering, executor choice, thread hints, timing, throughput printing and number formatting.
- UnorderedWorkers.Channel.Pull: one consumer's view, in which the items that fall to it are given; how the items posted are shared among consumers is in UnorderedPipeline.
- SkynetOne: the ten subtasks are computed one after the other instead of concurrently; each only fills its own slot of the results.
- A second call of request_stop in the many-threaded pool, which would only notify all once more: it is called once there.
- Floating-point rounding in the example steps: exact numbers are used.
- The network, HTTP, signal, topology and adapter examples, fib, braid, sync and the trait tests: input and output, foreign calls, or easy claims only.

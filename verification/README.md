# A verified model of the grid dispatcher and of the shared record ring

This project models the task scheduler in `ref/grid_dispatcher` (warps, the DAG dispatcher, the thread
pool, the kd-tree, the block allocator, the ring queues, the coroutine pipe) and the shared record ring
in `src/TraceSystem.cpp`, and proves what they are for. `dafny verify dfyconfig.toml` checks everything.

## How the parts are modelled

Code that many threads run at once is a state machine: one action is one atomic operation of the program
(or one operation under a mutex nobody else holds, or one on memory only the acting thread can reach),
actions of any number of threads interleave under sequential consistency, and `Next` relates a state to
all its successors. The theorems speak of every state of every run (`Runs.dfy`), or of every enabled
action in such a state. Variables that only record history are called auxiliary where they are declared;
no other component of a step reads them.

- `Warp.dfy`: `grid_warp_t`, with CAS ownership, the three-valued `queueing` flag and the stacked `suspend_count`.
- `WarpDrain.dfy`: a warp left alone drains.
- `Dag.dfy`: `grid_dispatcher_t`. Building the graph is a class (`Builder`); a flush, the tasks, suspensions,
  exceptions in `complete()` and `resurrect()`, and routines run inline are agents of a state machine. `DagEnds.dfy`:
  how a flush ends. `DagFaults.dfy`: what goes wrong around exceptions and suspensions, and that nothing else does.
- `Pool.dfy`: `grid_async_worker_t` at the level of `next` pointers, with sleeping, waking, terminating and cleaning up.
  `PoolSleep.dfy`: when all its threads can sleep beside a waiting task. `PoolDrain.dfy`: after `terminate()` they all leave.
  `PoolJoin.dfy`: `join()` returns.
  `PoolPriority.dfy`: tasks stay in the heads of their priority. `PoolCalls.dfy`: what `queue()` and `poll()` do undisturbed.
- `KdTree.dfy`, `KdForest.dfy`, `KdQuery.dfy`, `KdNode.dfy`: `grid_tree_t`. `KdNode.Node` is the class whose pointers
  are rearranged in place. Its methods are proved against trees as values; order, queries and culling are
  proved about those values.
- `Counter.dfy`, `Ring.dfy`, `QueueList.dfy`: the wrapping counters, `grid_queue_t` over an array, and the chained
  `grid_queue_list_t`, as classes that refine a sequence. `RingProtocol.dfy`: the same ring between one producing
  and one consuming thread. `RingCalls.dfy`: what a call has done when it returns.
- `Allocator.dfy`: `grid_allocator_t`, with its slots, recycled list, bitmaps and reference counts. `AllocatorChain.dfy`:
  the `next` pointers behind that list. `AllocatorLimit.dfy`: the limit r = 0. `AllocatorDrain.dfy`: all
  calls return. `AllocatorSearch.dfy`: which item an undisturbed call returns. `Bitmap.dfy`: the arithmetic on a bitmap word.
- `Pipe.dfy`: `grid_pipe_t`. `PipeDrain.dfy`: the calls under way come to an end.
- `RecordRing.dfy`: `PostRecord` and the loop of `MasterWorkerThread`. `RecordReads.dfy`: a reader that keeps up.
- `Counting.dfy`: sums over sequences, which all conservation laws are stated with.

## Where the code does less than one might expect

- An empty routine made by `queue_routine()` is a plain lambda and never calls `complete()`. A flush that has come to
  rest and missed no task (see below) has fired its callback if and only if the graph holds no such routine
  (`Dag.CompletesIffNoJunction`); on every graph that holds one there is a run that comes to rest with the callback not
  fired (`DagEnds.JunctionHangs`).
- `suspend()` asserts only that the lock count is not 0. On a task whose dispatch threw the count is the mark `~0` and wraps
  to 0: a `resurrect()` at that time passes over the task, `resume()` puts the mark back without dispatching, and the flush
  completes without the task (with assertions on, `finalize()` stops there). Run by run: once the callback has fired, every
  task has run once if and only if no marked task was passed over by a `resurrect()` while a suspension covered its mark, and
  found by none since; what has not run is such a task, or waits for one (`Dag.CompletionMeansDone`).
- The mark says "not handed over yet", which four more things can belie: a `suspend()` that adds to it while a `resurrect()`
  dispatches the task; an exception that leaves `dispatch()` through a routine run inline on its own warp; one out of the
  warp's `flush()`, after `push()` has stored the routine; and a `resurrect()` for one exception while that for another is
  under way, as nothing in `resurrect()` keeps two of them from finding the same mark. Then a task starts under suspension,
  or is handed over twice. The theorems of `Dag` and `DagEnds` are about the runs without these four (`ProperNext`). No task
  handed over twice, none while it is suspended, the callback after all tasks: that holds in every run if and only if all
  four and the covered mark are ruled out (`DagFaults.FaultsAreExact`).
- A pool of `size` threads in which tasks of priority up to p are queued can have all of them asleep beside a waiting task
  if and only if p + `limit_count` reaches `size` and some thread that is not of the pool queues (`PoolSleep.BoundIsExact`).
- The culling query leaves the target box narrowed when the queryer says no below a narrowed box. It comes back as it was
  exactly if no planned node is refused or the whole target is in force at the first one that is (`KdQuery.CullRestoresIff`);
  for an ordered tree inside the target that means that no node above that one has narrowed it
  (`KdQuery.CullRestoresInside`, with an example in `KdQuery.CullLeavesTarget`).
- `diff_counter` off a power of two is exact for distances up to the element count, and for exactly those pairs of
  counters whose sum does not lose its carry (`Counter.DiffExact`).
- The range push of the chained queue pushes nothing if the last ring is full on entry and everything otherwise
  (`QueueList.List.PushRange`). The range pop returns if and only if as many items are present as are asked
  for: otherwise it has not ended after any number of rounds (`QueueList.List.RangeRounds`).
- `pop(n)` of the chained queue returns the number of items missing if and only if the items it took end with a ring
  other than the last one, or none were taken (`QueueList.List.PopN`).
- With `r = 0`, documented as no limit, the allocator never recycles a block; some run recycles one if and only if r is
  not 0 (`AllocatorLimit.RecyclesIffLimited`).
- The record ring tells records apart by their 32-bit stamps in every run if and only if the reader never falls behind by
  more than the ring holds, or every post is stored before 2^31 tickets have been taken, its own included, and the reader
  never falls more than 2^32 tickets behind; a delay below 2^32 is not enough (`RecordRing.BoundIsExact`).

## Model

| member | source | states |
|---|---|---|
| Warp.RunInv | ref/grid_dispatcher/grid_dispatcher.h:222-286 | The whole invariant over ownership, the flag, the suspensions, the buffers and the threads' program counters holds in every reachable state. |
| Warp.StepExclusive | ref/grid_dispatcher/grid_dispatcher.h:222-267 | Every operation keeps `thread_warp` naming exactly the one thread that is inside the warp. |
| Warp.Exclusion | ref/grid_dispatcher/grid_dispatcher.h:453-472 | Two threads that are both inside normal tasks or guards of one warp are the same thread. |
| Warp.StartsInside | ref/grid_dispatcher/grid_dispatcher.h:293-306 | Whoever begins a normal task, from a buffer or inline, is the owner that `thread_warp` names, and no other thread is inside; an inline one begins only while the warp is not suspended. |
| Warp.RunsAtOnce | ref/grid_dispatcher/grid_dispatcher.h:293-302 | A routine for the caller's own warp, not suspended, runs at once and leaves everything as it is. |
| Warp.Stores | ref/grid_dispatcher/grid_dispatcher.h:299-314 | Every other routine, each posted one and each one from outside is put behind the others in the caller's buffer (the shared one of a strand), the thread goes on to flush, and nothing else changes. |
| Warp.CallsKept | ref/grid_dispatcher/grid_dispatcher.h:290-331 | Every task queued, by whichever call, was pushed as often or is on its way in from outside; every parallel task is in the pool, or with a thread, or has resumed the warp. |
| Warp.LastResumes | ref/grid_dispatcher/grid_dispatcher.h:269-286 | suspend() and resume() count up and down by one, and exactly the resumption that brings the count to 0 resets the flag and flushes. |
| Warp.Defers | ref/grid_dispatcher/grid_dispatcher.h:453-472 | An execution that finds the warp suspended starts nothing and leaves the flag pending and the warp about to be given up. |
| Warp.StepSuspensions | ref/grid_dispatcher/grid_dispatcher.h:269-286 | `suspend_count` is always the number of open suspend() calls plus the parallel tasks not yet resumed. |
| Warp.ParallelBlocksStarts | ref/grid_dispatcher/grid_dispatcher.h:322-330 | From queue_routine_parallel until every parallel task has resumed no normal task starts, queued or inline, and a resumption never takes the count below zero. |
| Warp.StepWorkNoticed | ref/grid_dispatcher/grid_dispatcher.h:423-451 | Every operation of an unsuspended warp keeps each non-empty buffer noticed: the flag is pending, or a thread will flush, or the holder has not yet passed that buffer. |
| Warp.StepPendingAnswered | ref/grid_dispatcher/grid_dispatcher.h:474-481 | Every operation keeps a pending flag answered: an execute_t is queued, or a thread is committed to one, or the holder will see the flag on yielding. |
| Warp.NoLostWork | ref/grid_dispatcher/grid_dispatcher.h:423-512 | A stored task of an unsuspended warp always has an execute_t queued, a thread committed to flush or execute, a holder that will still scan its buffer, a thread that gave the warp up inside a task and flushes on its return, or a pending flag that the holder will find. |
| Warp.RestMeansDone | ref/grid_dispatcher/grid_dispatcher.h:453-512 | When nothing is in flight and the warp is not suspended, every task ever pushed has been taken out, buffer by buffer in the order of the pushes. |
| WarpDrain.StepDrains | ref/grid_dispatcher/grid_dispatcher.h:423-512 | Every step that only ends what is under way lowers a lexicographic rank: the executions and flushes a warp causes by itself die out. |
| WarpDrain.MovesOn | ref/grid_dispatcher/grid_dispatcher.h:423-512 | As long as anything of the warp is in flight, some such step is possible. |
| WarpDrain.RunsDry | ref/grid_dispatcher/grid_dispatcher.h:423-512 | Whichever enabled step is picked each time, after finitely many none is left. |
| WarpDrain.Drains | ref/grid_dispatcher/grid_dispatcher.h:253-512 | From any reachable state with no user suspension open and no further calls, however the threads are scheduled, the path taken comes to an end with nothing in flight and the count at 0; every task ever queued, those still on their way in included, has then been taken out as often as it was queued, and every parallel task has resumed the warp. |
| Dag.Builder.constructor | ref/grid_dispatcher/grid_dispatcher.h:595-604 | A new graph is empty and well formed. |
| Dag.Builder.QueueRoutine | ref/grid_dispatcher/grid_dispatcher.h:606-623 | A routine gets the next id, no edges and lock count 0; the graph stays well formed. |
| Dag.Builder.Order | ref/grid_dispatcher/grid_dispatcher.h:625-633 | An edge is added and the total lock count of its target keeps counting its incoming edges. |
| Dag.StepAccounts | ref/grid_dispatcher/grid_dispatcher.h:636-709 | Every step, but for an exception after the hand-over, a suspend() that meets a resurrect() and a second resurrect() at once, keeps each lock count the number of decrements still owed to the task (edges, flush guard, suspensions), less one if it is marked, and the task in exactly one of: owed, being dispatched, marked, dispatched. |
| Dag.StepSettled | ref/grid_dispatcher/grid_dispatcher.h:800-828 | `pending_count` stays the number of dispatched but unfinished tasks plus active flush, suspensions, dispatches and resurrects under way. |
| Dag.StepInlineOK | ref/grid_dispatcher/grid_dispatcher.h:290-306 | What a dispatch runs inline stays under way or is finished, whatever else happens, until the dispatch goes on. |
| Dag.StepRescueOK | ref/grid_dispatcher/grid_dispatcher.h:694-709 | What the one resurrect() is about to dispatch is marked and asleep, whatever the other threads do meanwhile. |
| Dag.OnceAndInOrder | ref/grid_dispatcher/grid_dispatcher.h:784-828 | A task is handed over, to a queue or inline, at most once per flush, and only after every predecessor has finished its callback: in every run in which exceptions leave dispatch() only before the task is handed over, no suspend() adds to a mark that a resurrect() is at work on, and one resurrect() runs at a time. |
| Dag.SuspensionHolds | ref/grid_dispatcher/grid_dispatcher.h:635-660 | A task under suspension has not been dispatched. |
| Dag.WaitsFor | ref/grid_dispatcher/grid_dispatcher.h:800-812 | With `pending_count` at 0, a task that still sleeps was missed by a resurrect() or waits for an earlier one that still sleeps. |
| Dag.NoneAsleep | ref/grid_dispatcher/grid_dispatcher.h:800-812 | With `pending_count` at 0 and none missed every task was dispatched exactly once, has finished, and its lock count is 0: the graph being acyclic, nothing can sleep. |
| Dag.CompletionMeansDone | ref/grid_dispatcher/grid_dispatcher.h:694-709 | In such a run, once the callback has fired, all tasks are done if and only if none was missed, that is marked, under a suspension when a resurrect() passed over it, and found by none since; what is not done was missed or waits for a task not done; and only another flush is possible, so it fires once per flush, also when dispatches threw and were resurrected, one resurrect() at a time. |
| DagFaults.FaultsAreExact | ref/grid_dispatcher/grid_dispatcher.h:635-828 | In every run no task is handed over twice or while it is suspended and the callback fires after all tasks, if and only if no suspend() can add to a mark, before or during a resurrect(), no exception can leave dispatch() after the hand-over, from inside an inline routine or from the flush behind push(), and no two resurrect() calls can overlap. |
| DagFaults.FiresEarly | ref/grid_dispatcher/grid_dispatcher.h:635-709 | The first of its five witnesses: a run in which a suspension covers a mark and the callback fires with a task never run. |
| DagFaults.StartsSuspended | ref/grid_dispatcher/grid_dispatcher.h:694-709 | The second: a suspend() between the load of a mark and its dispatch by resurrect(), and the task is handed over under suspension. |
| DagFaults.RunsTwice | ref/grid_dispatcher/grid_dispatcher.h:750-828 | The third: a dispatch throws inside a routine run inline, the exception leaves both dispatches, and resurrect() hands the routine that has run over again. |
| DagFaults.QueuedTwice | ref/grid_dispatcher/grid_dispatcher.h:488-512 | The fourth: flush() throws after push() has stored the routine, and resurrect() queues it again. |
| DagFaults.AnsweredTwice | ref/grid_dispatcher/grid_dispatcher.h:694-709 | The fifth: while a resurrect() is on its way through the locks another exception is thrown and answered, both find the mark and hand the task over. |
| Dag.CompletesIffNoJunction | ref/grid_dispatcher/grid_dispatcher.h:616-623 | A flush at rest with no task missed has fired its callback if and only if the graph has no empty junction routine; without one it has fired it in any case. |
| Dag.WindsDown | ref/grid_dispatcher/grid_dispatcher.h:662-709 | Every action but flush, suspend and resurrect lowers a bound on the work left: no flush runs forever. |
| Dag.NeverHangs | ref/grid_dispatcher/grid_dispatcher.h:635-709 | Until a flush is at rest some thread can act. |
| DagEnds.FlushEnds | ref/grid_dispatcher/grid_dispatcher.h:635-828 | Once the user suspends no more, resumes what he suspended and answers each exception by a resurrect() that does not throw again, one at a time, every schedule brings the flush to rest; without an empty junction routine the callback has then fired, every task has run once if and only if none was missed, and none is if at the start none was and no suspension covered a mark. |
| DagEnds.JunctionHangs | ref/grid_dispatcher/grid_dispatcher.h:616-623 | On every graph with an empty junction routine some run comes to rest with the callback not fired. |
| Pool.StepAllPlaced | ref/grid_dispatcher/grid_dispatcher.h:1021-1084 | Every step keeps each live task in exactly one place. |
| Pool.OnePlace | ref/grid_dispatcher/grid_dispatcher.h:1190-1237 | In every reachable state a live task is in one head's chain or with one thread, never in two, and every head leads through exactly its chain. |
| Pool.StartsAlone | ref/grid_dispatcher/grid_dispatcher.h:1190-1237 | Whoever starts a task has it alone: no chain leads to it and no other thread holds or runs it. |
| Pool.StartsOnce | ref/grid_dispatcher/grid_dispatcher.h:1190-1237 | In every run the starts of a task are as many as the times it was freed, plus one while it runs: each queued task starts exactly once before it is freed. |
| Pool.StepMutex | ref/grid_dispatcher/grid_dispatcher.h:1140-1152 | Every step keeps the mutex with the thread that is inside delay(). |
| PoolPriority.HeadsKeepPriorities | ref/grid_dispatcher/grid_dispatcher.h:1021-1084 | A task in head i, or in the hands of a thread that polls head i, was queued with priority i modulo the number of threads (any beyond the last priority counting as the last), or after terminate() and then i is 0. |
| PoolCalls.TriesAll | ref/grid_dispatcher/grid_dispatcher.h:1033-1052 | Undisturbed, queue() puts the task into the first head of its priority that is empty, as its only task; only if all are filled it picks one of them. |
| PoolCalls.LinksFirst | ref/grid_dispatcher/grid_dispatcher.h:1054-1062 | In a filled head the task becomes the first. |
| PoolCalls.PollsFirst | ref/grid_dispatcher/grid_dispatcher.h:1190-1237 | Undisturbed, a poll of a filled head runs its first task and leaves the others there. |
| PoolCalls.WakesExactly | ref/grid_dispatcher/grid_dispatcher.h:1064-1067 | After linking a task or giving tasks back another thread is woken exactly if more threads wait than the priority of the head and the limit say. |
| PoolSleep.StepSleepOK | ref/grid_dispatcher/grid_dispatcher.h:1140-1152 | With priorities that leave room below the thread count, every step keeps a filled head attended: a thread of the pool is awake and will look at it, or somebody owes a notify. |
| PoolSleep.NeverDeadlocks | ref/grid_dispatcher/grid_dispatcher.h:1174-1187 | With priority plus limit below the thread count, never do all threads sleep beside a filled head with no notify owed. |
| PoolSleep.BoundIsExact | ref/grid_dispatcher/grid_dispatcher.h:1062-1065 | For any pool size, limit, number of threads and highest priority in use: every run is free of that deadlock if and only if that priority, lowered to the last one if need be, plus limit is below the pool size or only threads of the pool queue. |
| Pool.TerminationReachesSleepers | ref/grid_dispatcher/grid_dispatcher.h:1086-1125 | After terminate() a thread sleeps only while the notify of all is still to come. |
| PoolDrain.StepDrains | ref/grid_dispatcher/grid_dispatcher.h:1086-1237 | After terminate() every step of the threads lowers a lexicographic rank, unless it is a user's call, a spurious wake-up or a compare-and-exchange that fails for no reason. |
| PoolDrain.MovesOn | ref/grid_dispatcher/grid_dispatcher.h:1086-1152 | As long as a thread of the pool has not left, some such step is possible. |
| PoolDrain.AllLeave | ref/grid_dispatcher/grid_dispatcher.h:1086-1152 | After terminate(), whichever of these steps is picked each time, after finitely many every thread of the pool has left, sleepers included. |
| Pool.CleanupLeavesNothing | ref/grid_dispatcher/grid_dispatcher.h:1154-1172 | When cleanup() returns true no head holds a task and no task is left anywhere. |
| PoolJoin.JoinReturns | ref/grid_dispatcher/grid_dispatcher.h:1098-1114 | After terminate(), if nothing more is queued, join() returns on every schedule: the threads leave, cleanup() is repeated until it finds nothing, and then no task is left anywhere and the waiting count is 0. |
| PoolJoin.LiveFalls | ref/grid_dispatcher/grid_dispatcher.h:1154-1172 | Meanwhile no step adds a task, and each task that has run is gone. |
| KdTree.Insert | ref/grid_dispatcher/grid_tree.h:423-437 | Descending to a free place adds exactly the new node and keeps the tree ordered and free of repetition. |
| KdTree.PromoteKeeps | ref/grid_dispatcher/grid_tree.h:170-197 | With the minimal node of the right side or the maximal one of the left as its new root, a subtree holds exactly its other nodes, in order. |
| KdTree.Removed | ref/grid_dispatcher/grid_tree.h:157-199 | Putting those nodes in the place of the detached one takes exactly that node out of the whole tree and keeps order, keys and dimensions. |
| KdNode.Node.constructor | ref/grid_dispatcher/grid_tree.h:148 | A new node has its key and dimension and no links. |
| KdNode.Node.Attach | ref/grid_dispatcher/grid_tree.h:150-155 | At any node of a tree, the pointers below it then represent its subtree with the new node inserted; no other node changes. |
| KdNode.Node.Merge | ref/grid_dispatcher/grid_tree.h:423-437 | The same below any node, with all parent and child links agreeing. |
| KdNode.Node.FindMinimal | ref/grid_dispatcher/grid_tree.h:381-400 | Returns a node of the subtree whose coordinate is least, skipping the right side on the node's own dimension. |
| KdNode.Node.FindMaximal | ref/grid_dispatcher/grid_tree.h:402-421 | Returns a node of the subtree whose coordinate is greatest. |
| KdNode.Node.LightDetach | ref/grid_dispatcher/grid_tree.h:349-379 | Succeeds exactly with at most one child; then that child takes the node's place, the node is isolated, and nothing else has changed. |
| KdNode.Node.Replacement | ref/grid_dispatcher/grid_tree.h:170-172 | Whatever the selector says, the replacing node is extreme in its half of the subtree. |
| KdNode.Node.Replace | ref/grid_dispatcher/grid_tree.h:180-198 | The replacing node takes the place, links and dimension of the detached one. |
| KdNode.Node.Detach | ref/grid_dispatcher/grid_tree.h:157-199 | The remaining nodes are the old ones minus this one with unchanged keys, links agree, left <= node <= right everywhere, this node is isolated, a non-null result is the new root; whatever the selector picks, the recursion terminates. |
| KdNode.Node.Query | ref/grid_dispatcher/grid_tree.h:201-226 | The loop with recursion asks exactly along the plan of visits. |
| KdQuery.AskStopsAtNo | ref/grid_dispatcher/grid_tree.h:203-206 | The result is false exactly if some call said no, and that call is the last one. |
| KdQuery.PlanOnce | ref/grid_dispatcher/grid_tree.h:201-226 | No node is visited twice. |
| KdQuery.PrunesExactly | ref/grid_dispatcher/grid_tree.h:60-68 | A half is searched if and only if some box whose coordinate lies on that side of the node's overlaps the target. |
| KdQuery.PlanHalves | ref/grid_dispatcher/grid_tree.h:201-226 | The plan is the node itself and the plans of exactly those halves. |
| KdQuery.PlanComplete | ref/grid_dispatcher/grid_tree.h:60-68 | No node whose box overlaps the target is pruned away. |
| KdQuery.PlanSkew | ref/grid_dispatcher/grid_tree.h:208-222 | Both settings of right_skew visit the same nodes. |
| KdQuery.QueryIsScan | ref/grid_dispatcher/grid_tree.h:201-226 | The nodes planned are nodes of the tree, each once, every overlapping one that a scan finds among them, and the same for both settings of right_skew. |
| KdQuery.SearchIsScan | ref/grid_dispatcher/grid_tree.h:201-226 | A query that stops at a wanted overlapping node stops if and only if the tree holds one. |
| KdNode.Node.CullQuery | ref/grid_dispatcher/grid_tree.h:233-263 | Result, calls and final target box of the culling query are those of its reference definition. |
| KdQuery.CullAsks | ref/grid_dispatcher/grid_tree.h:233-263 | The culling query asks along its plan of visits. |
| KdQuery.CullRestoresIff | ref/grid_dispatcher/grid_tree.h:244-262 | The target box comes back as it was if and only if no planned node is refused or the whole target is in force at the first one that is. |
| KdQuery.CullRestoresInside | ref/grid_dispatcher/grid_tree.h:244-262 | For an ordered tree inside the target: if and only if no planned node is refused, or no node above the first one refused narrows a bound to a different coordinate. |
| KdQuery.CullStuck | ref/grid_dispatcher/grid_tree.h:239-256 | After a no the target stays narrowed as it was for the last node asked about. |
| KdQuery.CullOnce | ref/grid_dispatcher/grid_tree.h:233-263 | No node is asked about twice and the culler accepts each of them. |
| KdQuery.CullComplete | ref/grid_dispatcher/grid_tree.h:233-263 | With a culler that rejects every box inside a rejected one and all keys inside the start box, no accepted node is culled away. |
| KdQuery.CullExact | ref/grid_dispatcher/grid_tree.h:233-263 | A queryer that always continues is called on exactly the accepted nodes, each once, and the target is restored. |
| KdNode.Node.Collect | ref/grid_dispatcher/grid_tree.h:297-317 | All nodes of the tree are collected, each once, and lose their links; the loop terminates. |
| KdNode.Node.Build | ref/grid_dispatcher/grid_tree.h:337-347 | Attaches exactly the given nodes; each compares on the dimension of its level when the list is halved again and again, counted from the given one and around. |
| KdNode.Node.Optimize | ref/grid_dispatcher/grid_tree.h:297-334 | For any encoding and sort order, the result is a valid kd-tree over exactly the same nodes and keys, its root the middle of that order, each node on the dimension of its level. |
| KdNode.LevelLog | ref/grid_dispatcher/grid_tree.h:337-347 | A list of n has levels only up to the logarithm of n. |
| KdQuery.SearchIgnoresShape | ref/grid_dispatcher/grid_tree.h:297-334 | Trees with the same nodes and keys, such as before and after optimize, answer every overlap search alike. |
| Counter.LimitBounds | ref/grid_dispatcher/grid_common.h:811-814 | For every element count below 2^32 the limit has its top bit set, is a multiple of the count, and a step never overflows before it is reduced. |
| Counter.StepCounts | ref/grid_dispatcher/grid_common.h:1309-1318 | A step adds modulo the counter range and moves the slot on by as much modulo the element count, power of two or not. |
| Counter.DiffUndoesStep | ref/grid_dispatcher/grid_common.h:1311-1327 | diff_counter(step_counter(c, k), c) = k for 0 <= k <= element count, wherever the counter or the 64-bit sum wraps. |
| Counter.DiffExact | ref/grid_dispatcher/grid_common.h:1320-1327 | Off a power of two the difference is the distance modulo the limit if and only if the sum keeps its carry. |
| Ring.StepTells | ref/grid_dispatcher/grid_common.h:994-1000 | Equal counters mean equal fillings, so the full and empty tests are exact. |
| Ring.Queue.constructor | ref/grid_dispatcher/grid_common.h:818-822 | A new ring is empty, for any start count. |
| Ring.Queue.Push | ref/grid_dispatcher/grid_common.h:847-863 | Fails exactly on a full ring, else appends one item. |
| Ring.Queue.Top | ref/grid_dispatcher/grid_common.h:865-869 | The oldest item. |
| Ring.Queue.PushRange | ref/grid_dispatcher/grid_common.h:889-918 | Appends as many items as fit, in order, across the end of the ring. |
| Ring.Queue.PopRange | ref/grid_dispatcher/grid_common.h:920-953 | Moves out as many of the oldest items as wanted and present, in order. |
| Ring.Queue.Pop | ref/grid_dispatcher/grid_common.h:955-966 | Removes the oldest item. |
| Ring.Queue.PopN | ref/grid_dispatcher/grid_common.h:968-992 | Removes min(n, size) items and returns how many of the n were missing. |
| Ring.Queue.Full | ref/grid_dispatcher/grid_common.h:994-996 | True exactly when element_count items are in. |
| Ring.Queue.Empty | ref/grid_dispatcher/grid_common.h:998-1000 | True exactly when no item is in. |
| Ring.Queue.Size | ref/grid_dispatcher/grid_common.h:1002-1006 | The number of items. |
| RingProtocol.StepInv | ref/grid_dispatcher/grid_common.h:847-966 | Every interleaved load, store, construction and move keeps the slots equal to the items constructed and not yet moved out. |
| RingProtocol.Fifo | ref/grid_dispatcher/grid_common.h:889-953 | Between one producer and one consumer, mixing single and range operations, what was received is a prefix of what was sent. |
| RingProtocol.NoOverwrite | ref/grid_dispatcher/grid_common.h:889-953 | No live slot is ever written, no dead one read, and the two threads never touch the same slot at once. |
| RingCalls.Refused | ref/grid_dispatcher/grid_common.h:847-851 | A push is refused exactly when the ring is full, a pop when it is empty. |
| RingCalls.EndsLoop | ref/grid_dispatcher/grid_common.h:889-953 | A range push publishes all its items or fills the room it saw; a range pop takes all that were wanted or that it saw. |
| RingCalls.PushDone | ref/grid_dispatcher/grid_common.h:847-918 | A push that has returned has sent the first of its items, in order, at least as many as there was room for when it began. |
| RingCalls.PopDone | ref/grid_dispatcher/grid_common.h:920-966 | A pop that has returned has taken the oldest items, at most as many as wanted and at least as many of them as were there when it began. |
| RingCalls.WaitFree | ref/grid_dispatcher/grid_common.h:847-966 | Every step of a call brings it nearer to its end, and the other thread's steps leave it where it is. |
| QueueList.List.constructor | ref/grid_dispatcher/grid_common.h:1360-1365 | One empty ring. |
| QueueList.List.Preserve | ref/grid_dispatcher/grid_common.h:1400-1410 | Afterwards the last ring is not full; contents are unchanged and every ring before the last stays non-empty. |
| QueueList.List.Push | ref/grid_dispatcher/grid_common.h:1412-1417 | Appends one item. |
| QueueList.List.PushRange | ref/grid_dispatcher/grid_common.h:1419-1431 | Appends all items, or none exactly if the last ring is full on entry. |
| QueueList.List.Top | ref/grid_dispatcher/grid_common.h:1487-1490 | The oldest item. |
| QueueList.List.Pop | ref/grid_dispatcher/grid_common.h:1497-1509 | Removes the oldest item and an emptied first ring. |
| QueueList.List.PopN | ref/grid_dispatcher/grid_common.h:1511-1533 | Removes the oldest min(n, size) items across rings; the returned number is between what is missing and n, and is what is missing if and only if the items taken end where a ring but the last one ends, or there were none. |
| QueueList.List.PopRange | ref/grid_dispatcher/grid_common.h:1464-1485 | With enough items present, moves exactly the oldest ones out in order, across rings, and terminates. |
| QueueList.List.RoundPop | ref/grid_dispatcher/grid_common.h:1468-1484 | A round of that loop makes progress unless the queue is empty, and then it changes nothing and goes on. |
| QueueList.List.RangeRounds | ref/grid_dispatcher/grid_common.h:1464-1485 | Looked at after any number of rounds, that loop has never ended if fewer items are present than asked for; otherwise it has after at most as many rounds as it moves items and there are rings. |
| QueueList.List.DropEmpty | ref/grid_dispatcher/grid_common.h:1501-1508 | Drops the first ring exactly if it is empty and not the last; contents are unchanged. |
| QueueList.List.Empty | ref/grid_dispatcher/grid_common.h:1535-1537 | Looking at the first ring alone tells exactly whether the whole queue is empty. |
| QueueList.List.Size | ref/grid_dispatcher/grid_common.h:1539-1547 | The sizes of the rings add up to the number of items. |
| Bitmap.FindsFirstFree | ref/grid_dispatcher/grid_common.h:623-631 | `grid_get_alignment(mask + 1)` is the lowest clear bit of the word, for every word but the one with all bits set. |
| Allocator.StepInv | ref/grid_dispatcher/grid_common.h:582-699 | Every atomic step of allocate, recycle, try_free and deallocate keeps reference counts, managed flags, bit ownership, the recycle count and the freeing of blocks exact. |
| Allocator.CountsReferences | ref/grid_dispatcher/grid_common.h:658-699 | `ref_count` always equals live items plus storage plus what the threads hold. |
| Allocator.StoredOnce | ref/grid_dispatcher/grid_common.h:670-692 | A block is stored at most once, and `managed` says exactly whether it is stored or on its way in or out. |
| Allocator.FreedUnreferred | ref/grid_dispatcher/grid_common.h:658-668 | A block goes back to the root allocator only when no live item, slot, list or other thread refers to it, and by one thread only. |
| Allocator.NoSharedBit | ref/grid_dispatcher/grid_common.h:623-640 | An item about to be returned lies inside the block and is held by no user and by no other thread. |
| Allocator.WithinBlock | ref/grid_dispatcher/grid_common.h:623-699 | Only bits that stand for an item of the block are handed out, held and taken back, and such a bit is set exactly while somebody has its item. |
| Allocator.AssertionsHold | ref/grid_dispatcher/grid_common.h:607-611 | The assertions on `ref_count`, `managed` and the slots hold in every interleaving and `recycle_count` never wraps below 0. |
| AllocatorChain.PointersLead | ref/grid_dispatcher/grid_common.h:592-606 | In every interleaving the pointers lead from `recycled_head` through exactly the recycled blocks, and through exactly the blocks a thread has yet to give back. |
| AllocatorChain.RecycledUnlinked | ref/grid_dispatcher/grid_common.h:682-691 | A block about to be linked into the list has a null pointer, as recycle() asserts. |
| Allocator.AtRest | ref/grid_dispatcher/grid_common.h:582-699 | With no call under way no block is leaked: each has live items or is stored, all counts are exact, and the set bits that stand for items are exactly the live items. |
| AllocatorDrain.StepDrains | ref/grid_dispatcher/grid_common.h:582-699 | Every step of a call under way lowers a lexicographic rank, retries included. |
| AllocatorDrain.Drains | ref/grid_dispatcher/grid_common.h:582-699 | From any reachable state, with no new calls, every schedule ends with all calls returned. |
| AllocatorSearch.AllocatesLowest | ref/grid_dispatcher/grid_common.h:582-640 | Called while no other call is under way, allocate() returns the lowest free item of a block that was stored; a new block, and its first item, only if every stored block was full; no other item changes hands. |
| AllocatorLimit.ZeroLimitStoresNothing | ref/grid_dispatcher/grid_common.h:525-528 | With r = 0 nothing is ever recycled. |
| AllocatorLimit.RecyclesIffLimited | ref/grid_dispatcher/grid_common.h:670-676 | Some run recycles a block if and only if r is not 0. |
| Pipe.StepInv | ref/grid_dispatcher/grid_coroutine.h:591-681 | Every atomic or locked step of await and emplace keeps all counts and places exact. |
| Pipe.NeverBoth | ref/grid_dispatcher/grid_coroutine.h:659-681 | `prepared_count` and `waiting_count` are never both positive. |
| Pipe.Accounted | ref/grid_dispatcher/grid_coroutine.h:618-644 | Elements equal prepared plus dispatched consumers plus emplaces under way, so await_resume never meets an empty queue, nor does a producer that pops a handle. |
| Pipe.OneReceiver | ref/grid_dispatcher/grid_coroutine.h:618-624 | The i-th value received is the i-th sent, and goes to one consumer; and each consumer has received exactly one value for each of its awaits, but for the one it is in. |
| Pipe.WokenOnce | ref/grid_dispatcher/grid_coroutine.h:605-616 | A suspended consumer's handle is in exactly one place, and only suspended consumers are dispatched. |
| Pipe.FirstComeFirstServed | ref/grid_dispatcher/grid_coroutine.h:605-644 | Consumers are called in the order in which they lined up: the i-th handle taken is the i-th put into the queue. |
| Pipe.OfferedSent | ref/grid_dispatcher/grid_coroutine.h:626-632 | Every value that emplace() was called with is sent once, or is still to be. |
| Pipe.RestIsFair | ref/grid_dispatcher/grid_coroutine.h:591-657 | At rest no consumer is suspended while an element is unclaimed. |
| Pipe.NeverStuck | ref/grid_dispatcher/grid_coroutine.h:605-656 | While a call is under way some thread can act. |
| PipeDrain.StepDrains | ref/grid_dispatcher/grid_coroutine.h:591-681 | Every step of an await or emplace under way lowers a lexicographic rank, failing compare-and-swaps included. |
| PipeDrain.RunsDry | ref/grid_dispatcher/grid_coroutine.h:591-681 | Whichever thread is picked each time, after finitely many steps all are idle or suspended. |
| PipeDrain.Drains | ref/grid_dispatcher/grid_coroutine.h:591-681 | From any reachable state with no further calls, every schedule ends with all values sent that emplace() was ever called with, as many received as were sent or as were asked for, whichever is less, and exactly those consumers suspended that asked for one more than they got. |
| RecordRing.StampTells | src/TraceSystem.cpp:381-385 | Within the bound, a stamp equal to the cursor's word is the cursor's own ticket. |
| RecordRing.ReadMoves | src/TraceSystem.cpp:371-427 | A read jumps to half a ring behind the writers exactly if it is behind by more than the ring and less than a round of the 32-bit counter, and it delivers the cursor's own record and moves on by one exactly if that record is in its slot. |
| RecordRing.Delivers | src/TraceSystem.cpp:371-427 | In every run within the bound each record delivered is the one of the cursor's ticket, each ticket at most once, in increasing order. |
| RecordReads.NothingSkipped | src/TraceSystem.cpp:371-427 | A reader that never falls behind by more than the ring holds has delivered every ticket since its start, each once and in order, and what it has yet to read is on its way or in the ring. |
| RecordReads.ReadsAll | src/TraceSystem.cpp:371-427 | Once all posts are stored and no more are made, it delivers the rest within two steps a record. |
| RecordRing.StaleRecord | src/TraceSystem.cpp:885-892 | With posts 2^31 tickets late and a reader that may fall behind by more than the ring holds, a complete run delivers a record at the wrong cursor. |
| RecordRing.LappedReader | src/TraceSystem.cpp:371-385 | So does one with a reader more than 2^32 tickets behind, however early the posts. |
| RecordRing.BoundIsExact | src/TraceSystem.cpp:381-385 | Stamps are sufficient in every run if and only if the reader never lags by more than the ring, or posts are less than 2^31 and the reader at most 2^32 tickets late. |

## Left out

- Warp, Dag, Pool, Allocator, Pipe, RingProtocol and RecordRing hold their atomic fields in values, a step being a function
  from state to state: update in place and aliasing of those fields are not captured, interleaving is. The kd-tree, the
  graph under construction and the queues are classes over the heap.
- C++ memory orders and debug fences: all atomic operations are sequentially consistent.
- Warp: `interrupt`, `join` with force, moves of warps, tasks that throw, and nested preemption (a guard or a poll inside a
  task of the warp); each of them can leave tasks behind without a flush or reads a field after ownership is released.
- Warp: a routine pushed after `terminate()` by a thread outside the pool, which is stored in the first buffer without a flush
  and lies there until `join`.
- Dag: a `resurrect()` that answers no exception; its callers owe one call to each exception.
- DagFaults: what happens after a fault is followed only in the runs that show the failures.
- Dag: routines and completion callbacks that throw themselves, a dispatch that throws inside `flush` or `resume`, edges added
  by the completion callback, and `validate`, which does not find every cycle; acyclic graphs are a precondition.
- Pool: timed `delay(ms)`, the balancer, `task_count`, and threads added from outside; `limit_count` does not change during a
  run; which of the full heads is the farthest is left open, as it depends on addresses; and a `queue()` after `join()` has
  returned, which runs the task at once.
- Pool.CleanupLeavesNothing: cleanup starts when every other thread has left or has no call under way, and threads outside
  the pool do not queue while it runs, as `join` demands of its callers.
- PoolJoin.JoinReturns: the tasks still to run queue nothing more; if they did so for ever, `join()` would not return.
- PoolDrain.AllLeave: compare-and-exchange operations that fail although they find what they expect are assumed not to do
  so for ever.
- KdNode.Node.Optimize: the bounding box, the encoding and the sort are one arbitrary order of the nodes.
- KdNode.Node.Replacement: the selector is an arbitrary choice at each level.
- KdNode.Node.Query: coordinates are integers, and a queryer answers by its log of calls; it does not change the tree.
- KdNode.Node.CullQuery: a culler is a pure test of a box.
- AllocatorDrain.Drains: a block has room for at least one item, as its static assertion demands.
- QueueList: `get(index)`, iterators, aligned allocation, frames and moves; the list queue is used by one thread at a time.
- Ring: alignment (`pack_size`, `allocate`), `for_each` and element constructors that throw.
- Counter.DiffCounter: signed overflow, undefined in C++, is taken to wrap around.
- Allocator: the root allocator is an arbitrary source of unused blocks, addresses and headers are block ids and bit numbers;
  what a failed compare-and-exchange leaves in the pointer of a block that nobody else can reach yet, and destruction of the
  allocator, are not modelled.
- Pipe: its two list queues are atomic, and dispatching a consumer is one step; warps of consumers are not modelled.
- RecordRing: the shared mapping starts with no slot matching the cursor (a zero-filled one makes slot 0 look complete at
  index 0), and a record is copied in one step.
- Barriers, events, `grid_buffer.h`, `grid_system.h`, and everything in `src` but the record ring: foreign calls without logic
  to prove, or code whose obvious property fails.

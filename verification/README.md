# A verified model of the task scheduler

Three actors share one memory segment: the clients (`submitTask`, `changePriority`, `stop`), the
Scheduler process and the Worker process. They synchronise through one mutex and three counting
semaphores. The project models that system in Dafny and proves what it is for: deadlocks are found and
broken, resources are exclusive, the highest priority runs, nobody starves, everything submitted is
finished or aborted, and `stop` ends both processes.

## How it is built

- **Values.** `Model` holds a task and the segment as values; a resource mask is the set of the positions
  of its one bits, so `&`, `|` and `& ~` are `*`, `+` and `-`.
- **Specifications.** `StableSort`, `DeadlockGraph`, `CycleSpec`, and the functions of `SchedulerCore`,
  `Worker` and `Client` say on values what each critical section does.
- **Code.** `TaskQueues.TaskQueue` and `SharedMemory.SharedMemorySegment` are classes whose arrays and
  fields are updated in place; the methods of `SchedulerCore`, `DeadlockDetector`, `SchedulerLoop`,
  `Worker` and `Client` follow the C functions and are proved to compute the specifications. `View()` is
  the segment as a value. The helper methods cut the C functions where their loops are.
- **System.** `Protocol` gives each process a program counter and each semaphore a count; a critical
  section is one atomic step, and any process, client or pending post may go next. `slot`, `quanta` and
  `executed` are history variables: the task handed over, and what each task has executed.
- **Proofs.** `Invariant`, `CycleProofs`, `StepProofs` and `ProtocolProofs` establish one invariant for every
  interleaving. `PassProofs`, `DeadlockFreedom`, `SleepProofs`, `WorkProofs`, `AgingProofs`, `Resolution`,
  `Liveness`, `Workload`, `Shutdown`, `Starvation`, `Completion` and `Ledger` hold the main theorems, and
  `Guarantees` restates them for reachable states.
  `Refinement` shows, for each of the five sections under the mutex, that the method takes an enabled step of
  `Protocol`. It goes that way only: `Protocol` leaves open which deadlock is resolved first. Semaphore and flag
  steps are modelled in `Protocol` alone.

Main theorems: `DeadlockDetector.DetectAndResolveDeadlocks`, `PassProofs.PassServesAll`,
`Guarantees.NeverDeadlocked`, `SleepProofs.SleepOnlyWhenDone`, `Liveness.Completes`,
`Workload.BusySectionsOfRun`, `Completion.FinishedInTime`, `Guarantees.RequestsAreExecuted`,
`Guarantees.PriorityOrder`, `Guarantees.StopCompletes`.

Notes on the code:

- `native/include/scheduler_shm.h:47-49` says that a BLOCKED task is in the blocked queue; a NEW task that needs
  resources is there as well, until the first pass makes it BLOCKED or READY.
- `running_task_id` is 0 after initialisation and 0 is a legal task id, so the handoff is proved from
  semaphore tokens and program counters, and not from that field. It is proved that the field never names
  a terminal task.
- A task alone in the ready queue is not aged (`native/src/scheduler_core.c:231-233`); it is selected in the same
  section, so the starvation bound is not affected.
- `submitTask` refuses negative priorities, `changePriority` accepts them; the bounds hold for both.

## Model

| member | source | states |
|---|---|---|
| TaskQueues.TaskQueue.constructor | native/src/scheduler_core.c:12-21 | a new queue is well formed and empty |
| TaskQueues.TaskQueue.IsEmpty | native/src/scheduler_core.c:27-29 | true exactly on the empty sequence |
| TaskQueues.TaskQueue.Contains | native/src/scheduler_core.c:35-43 | membership in the queued sequence, for any head and wrap-around |
| TaskQueues.TaskQueue.PushTail | native/src/scheduler_core.c:49-72 | appends unless the queue is full (-1) or the index is queued (0); no duplicates arise |
| TaskQueues.TaskQueue.PushHead | native/src/scheduler_core.c:78-95 | prepends under the same conditions; tail stays (head + size) mod 256 although it is not written |
| TaskQueues.TaskQueue.PopHead | native/src/scheduler_core.c:101-123 | returns and removes the first index, -1 on the empty queue |
| TaskQueues.TaskQueue.Remove | native/src/scheduler_core.c:129-169 | keeps exactly the other indices, in their order, and tells whether the index was there |
| StableSort.SortedIsTheStableSort | native/include/scheduler_core.h:73-77 | a sequence is in descending priority with every priority class in its old order if and only if it is Sorted(q) |
| StableSort.StableSortUnique | native/include/scheduler_core.h:73-77 | there is only one such sequence |
| StableSort.Overtaken | native/src/scheduler_core.c:194-207 | after a stable sort, whoever is at place p came from p or later, or was overtaken from there by a strictly larger priority |
| SchedulerCore.CompareAndSwap | native/src/scheduler_core.c:199-206 | two neighbours end in priority order; nothing else moves, and no priority class is disturbed |
| SchedulerCore.BubblePass | native/src/scheduler_core.c:195-206 | one pass moves a least priority to the end and disturbs no priority class |
| SchedulerCore.BubbleSort | native/src/scheduler_core.c:194-207 | the nested loops leave the unique stable sort in the array |
| SchedulerCore.QueueReorderPriority | native/src/scheduler_core.c:176-216 | whichever queue it is given becomes the unique stable sort of itself; no task and no other queue changes |
| SchedulerCore.ApplyAging | native/src/scheduler_core.c:222-292 | each of two or more queued tasks gets its tick exactly once, and the queue is re-sorted if one was raised |
| AgingProofs.AgeTaskPhi | native/src/scheduler_core.c:251-260 | a tick raises 5 * effective priority + wait ticks by exactly one |
| AgingProofs.SortKeepsPhiBound | native/src/scheduler_core.c:278-283 | re-sorting keeps any bound on potential + queue place |
| AgingProofs.EffectiveBound | native/src/scheduler_core.c:256-260 | in order, no effective priority exceeds P + 51 |
| AgingProofs.CycleRanked | native/src/scheduler_loop.c:225-243 | priority order and potential + place <= 5 * P + 255 survive a whole section |
| AgingProofs.AdmitRanked | native/src/scheduler_loop.c:176-179 | they survive a task's joining the ready queue |
| AgingProofs.ResetRanked | native/src/jni_bridge.c:322-332 | they survive a priority change of a queued task |
| AgingProofs.WaitingGains | native/src/scheduler_loop.c:225-243 | a READY task that a section does not select stays queued and its potential rises by exactly one |
| AgingProofs.SelectsHighest | native/src/scheduler_loop.c:231-247 | the selected task is READY with maximal effective priority when it is popped |
| DeadlockGraph.CycleLength | native/src/deadlock_detector.c:18-36 | no task waits for itself: every cycle has at least two members |
| DeadlockGraph.ClosedWalkBlocked | native/src/deadlock_detector.c:20-25 | every member of a cycle is BLOCKED, so RUNNING tasks are never involved |
| DeadlockGraph.VictimUnique | native/src/deadlock_detector.c:207-238 | the victim is the same however the cycle is rotated |
| DeadlockGraph.EdgeMeaning | native/src/deadlock_detector.c:18-36 | a task waits for another exactly if it is BLOCKED and misses a bit that the other, BLOCKED or RUNNING, holds |
| DeadlockGraph.CycleIsCircularWait | native/src/deadlock_detector.c:147-167 | the simple cycles are exactly the rings of two or more BLOCKED tasks each of which misses something the next holds |
| DeadlockGraph.VictimIsLeast | native/src/deadlock_detector.c:207-238 | the victim is exactly the member of lowest effective priority, then most remaining time, then smallest id |
| DeadlockGraph.JustifiedAbortsLeast | native/src/deadlock_detector.c:147-258 | the aborts of a detector call are exactly such least members of such rings, each of its moment |
| DeadlockGraph.FinishOrderAcyclic | native/src/deadlock_detector.c:191-199 | if every BLOCKED task was finished, each edge going to an earlier finished one, no closed walk of any length exists |
| DeadlockGraph.VictimsIffDeadlock | native/src/deadlock_detector.c:47-50 | a detector call aborts somebody if and only if there is a deadlock |
| DeadlockDetector.NextNeighbour | native/src/deadlock_detector.c:127-181 | finds the next edge to a vertex that is not black and has passed only edges to black ones |
| DeadlockDetector.Push | native/src/deadlock_detector.c:169-178 | going deeper keeps: gray is the stack, the stack is a path, passed edges are settled, black is in finish order |
| DeadlockDetector.Pop | native/src/deadlock_detector.c:191-199 | finishing the top vertex keeps the same |
| DeadlockDetector.StackRoom | native/src/deadlock_detector.c:93-104 | stack and finished vertices together never outnumber the tasks |
| DeadlockDetector.ExtractCycle | native/src/deadlock_detector.c:152-167 | the nodes copied are a simple cycle of wait-for edges, no longer than the stack |
| DeadlockDetector.SearchFrom | native/src/deadlock_detector.c:93-200 | the search ends, with a simple cycle or with start and all it reaches finished |
| DeadlockDetector.ChooseVictim | native/src/deadlock_detector.c:204-238 | no other member has a lower effective priority; of equals none has more remaining time; of those none a smaller id |
| DeadlockDetector.AbortTask | native/src/deadlock_detector.c:244-269 | the victim is DEADLOCK_ABORTED, holds nothing, has nothing left, is in no queue and is not the running task |
| DeadlockDetector.AbortDropsBlocked | native/src/deadlock_detector.c:284-286 | each abort lowers the number of BLOCKED tasks by one, so restarting ends |
| DeadlockDetector.DetectAndResolveDeadlocks | native/src/deadlock_detector.c:50-291 | every abort hits the least member of a ring of the moment, no cycle of any length is left, and the count returned is the drop in BLOCKED tasks |
| Resolution.ResolutionExists | native/src/deadlock_detector.c:38-50 | from every state there is a sequence of such aborts that ends without deadlock |
| CycleProofs.Survivor | native/src/deadlock_detector.c:202-287 | a call that aborts anything leaves some task BLOCKED |
| CycleProofs.CycleAcyclic | native/src/scheduler_loop.c:194-205 | a section leaves no deadlock, whether it selects a task, goes round again or goes to sleep |
| DeadlockFreedom.AcyclicMeansNoCircularWait | native/src/deadlock_detector.c:38-50 | there is no closed walk of any length exactly when there is no ring |
| DeadlockFreedom.AcyclicMeansSafeOrder | native/src/deadlock_detector.c:38-50 | and exactly when the BLOCKED tasks can be ordered so that what each misses is held by none that does not come before it |
| DeadlockFreedom.StepAcyclic | native/src/scheduler_loop.c:79-489 | no step of any process or client brings a deadlock about that outlives it |
| CycleSpec.Grant | native/src/scheduler_loop.c:148-171 | at most one bit is granted: the lowest missing one that is free, none only if all are taken |
| SchedulerLoop.CollectHeld | native/src/scheduler_loop.c:92-108 | terminal tasks give up their resources, and the mask returned is the union of the others' |
| SchedulerLoop.AllocateIndex | native/src/scheduler_loop.c:122-190 | a visited task gets its grant and goes to READY and the sorted ready queue, or to BLOCKED and the blocked queue |
| SchedulerLoop.AllocateResources | native/src/scheduler_loop.c:89-191 | the pass visits each task that was queued once and reports whether it got anywhere |
| PassProofs.PassServesAll | native/src/scheduler_loop.c:113-191 | each task that was queued is served in queue order with the lowest missing bit not taken by then, READY ones join behind their equals, the others keep their order, and progress is reported exactly if a bit was given |
| PassProofs.EachIsServed | native/src/scheduler_loop.c:113-191 | afterwards each is READY or BLOCKED, READY exactly if complete, and has one bit more or misses only bits that others hold |
| PassProofs.ServedUnique | native/src/scheduler_loop.c:113-191 | these conditions determine every field of every task after the pass |
| CycleProofs.PassKeepsOk | native/src/scheduler_loop.c:92-191 | throughout the pass held masks are disjoint, tasks are where their state says, and the held mask is the exact union |
| CycleProofs.CycleOk | native/src/scheduler_loop.c:79-283 | a section keeps all that, aborts only waiting tasks, and leaves exactly the selected task outside the queues |
| SchedulerLoop.SelectTask | native/src/scheduler_loop.c:228-247 | pops the head, resets its ticks and effective priority, and makes it the running task |
| SchedulerLoop.SchedulerCycle | native/src/scheduler_loop.c:79-283 | the section computes allocation, resolution, aging and selection, its exit is selection, another round or sleep, and it leaves no deadlock |
| SleepProofs.GrowPath | native/src/scheduler_loop.c:270-282 | if every BLOCKED task waits for a BLOCKED one, there is a closed walk |
| SleepProofs.NoProgressMeansStuck | native/src/scheduler_loop.c:146-189 | after a pass without progress and nothing READY, every BLOCKED task waits for another |
| SleepProofs.SleepOnlyWhenDone | native/src/scheduler_loop.c:270-282 | the Scheduler takes the sleep path only when every task is terminal |
| WorkProofs.QuantaLeftIsCeiling | native/src/scheduler_loop.c:421-422 | the number of quanta a task takes is its time divided by the quantum, rounded up |
| WorkProofs.AgainCost | native/src/scheduler_loop.c:275-279 | a section that goes round again has lowered the sum of 1 + missing resources + quanta over all unfinished tasks |
| WorkProofs.EndCost | native/src/scheduler_loop.c:435-475 | so has every executed quantum |
| WorkProofs.TotalCostZero | native/src/scheduler_loop.c:79-283 | that sum is zero exactly when every task is terminal |
| Worker.FindId | native/src/scheduler_loop.c:355-361 | the first task with the id, -1 if there is none |
| Worker.BeginQuantum | native/src/scheduler_loop.c:351-426 | takes the running task or one of three early exits, with the quantum min(remaining, q) |
| Worker.EndQuantum | native/src/scheduler_loop.c:433-485 | deducts the time and finishes the task or returns it to the sorted ready queue |
| StepProofs.BeginFindsSelected | native/src/scheduler_loop.c:351-422 | a selected READY task is found and started; no early exit is taken |
| StepProofs.EndGood | native/src/scheduler_loop.c:433-475 | after a quantum every task is back in its place and the queue in order |
| StepProofs.EndJoins | native/src/scheduler_loop.c:435-475 | a quantum leaves the task FINISHED with nothing held, or READY behind all of at least its priority and in front of the others, whose order is kept; no task is the running one any more |
| Client.SubmitTask | native/src/jni_bridge.c:207-290 | accepts exactly new non-negative ids with room, non-negative priority and positive time, and then registers one task with just what was asked for, nothing held, waited or executed; otherwise nothing changes |
| StepProofs.SubmitJoins | native/src/jni_bridge.c:234-276 | the new task enters the queue of its state and no other, in the ready queue behind its equals |
| StepProofs.SubmitGood | native/src/jni_bridge.c:234-276 | a submission keeps the segment sound and in order |
| Client.ChangeTaskPriority | native/src/jni_bridge.c:309-339 | the task that goes by the id gets base and effective priority and no ticks, all its other fields and all other tasks stay |
| StepProofs.ChangeEffect | native/src/jni_bridge.c:314-337 | besides, the ready queue holds the same tasks back in priority order, equals as they were; an unknown id changes nothing |
| StepProofs.ChangePriorityGood | native/src/jni_bridge.c:314-337 | a priority change keeps the segment sound and in order |
| Invariant.EnqueueRoom | native/src/scheduler_loop.c:188-188 | by pigeonhole, pushing a task that is not queued never fails |
| ProtocolProofs.StepOk | native/src/scheduler_loop.c:79-489 | every step of every process and client keeps the system invariant |
| ProtocolProofs.RunOk | native/src/scheduler_loop.c:79-489 | so does every run |
| ProtocolProofs.EndHistory | native/src/scheduler_loop.c:421-475 | a quantum is accounted to the task that executed it, in number and in time |
| Ledger.StepRecords | native/src/jni_bridge.c:207-339 | of all steps only calls change what is registered, and each as the ledger of calls says |
| Ledger.RunRecords | native/src/jni_bridge.c:207-339 | after every run id, time, resources and base priority of each task are those of the calls: as submitted, with the last priority set |
| Refinement.SchedulerStep | native/src/scheduler_loop.c:79-283 | the Scheduler's method takes an enabled step of the transition system |
| Refinement.WorkerBeginStep | native/src/scheduler_loop.c:351-426 | so does the Worker's first section |
| Refinement.WorkerEndStep | native/src/scheduler_loop.c:433-485 | and its second |
| Refinement.SubmitStep | native/src/jni_bridge.c:207-290 | and a submission, which is rejected exactly when it leaves no trace |
| Refinement.ChangePriorityStep | native/src/jni_bridge.c:309-340 | and a priority change |
| Guarantees.ResourceSafety | native/src/scheduler_loop.c:95-191 | in every reachable state no resource is held twice and what a task holds is what its state says |
| Guarantees.Conservation | native/src/scheduler_loop.c:115-191 | in every reachable state each task is in exactly one of ready queue, blocked queue, the Worker's hands, or terminal |
| Guarantees.NeverDeadlocked | native/src/deadlock_detector.c:38-50 | in every reachable state there is no ring of waiting tasks, and the BLOCKED tasks have a safe order |
| Guarantees.SectionResolves | native/src/scheduler_loop.c:194-205 | every section aborts just the least members of rings and leaves none |
| Guarantees.SectionServes | native/src/scheduler_loop.c:113-191 | every section serves every waiting task, from every reachable state |
| Guarantees.OneRunner | native/src/scheduler_loop.c:250-261 | a RUNNING task is the one the Worker executes, and no section overlaps it |
| Guarantees.OneToken | native/src/scheduler_loop.c:256-261 | before shutdown exactly one token is under way from the hand-over of a task until its quantum is awaited no more, and none otherwise |
| Guarantees.WorkerFindsItsTask | native/src/scheduler_loop.c:366-406 | the wrong-state, nothing-left and unknown-id branches are unreachable, and the time to run is what is left, at most the configured quantum or 50 |
| Guarantees.PriorityOrder | native/include/scheduler_shm.h:23-25 | the ready queue is in priority order and base <= effective <= P + 51, in every reachable state |
| Guarantees.SelectionByPriority | native/include/scheduler_shm.h:23-25 | in every reachable state the selected task has maximal effective priority |
| Guarantees.NoLostWakeup | native/src/jni_bridge.c:286-289 | asleep with a task unfinished, the Scheduler has an event token or a post on its way |
| Guarantees.WorkAccount | native/src/scheduler_loop.c:421-475 | FINISHED tasks got ceil(total / q) quanta that sum to their time, aborted ones none |
| Guarantees.TasksAreTheRequests | native/src/jni_bridge.c:207-339 | in every run the registered tasks are what the clients asked for |
| Guarantees.RequestsAreExecuted | native/src/scheduler_loop.c:421-475 | a FINISHED task has executed for the time asked for, in ceil(time / q) quanta, q being the configured quantum or 50 |
| Guarantees.ReadyNeverAborted | native/src/deadlock_detector.c:244-258 | a task that has become READY is never aborted |
| Liveness.StepRemaining | native/src/scheduler_loop.c:79-489 | no step adds more work than an accepted submission brings in, and a section that does not sleep takes some off |
| Liveness.BusySectionsBounded | native/src/scheduler_loop.c:79-283 | in every run, no more sections than the work left and the work submitted can end otherwise than in sleep |
| Workload.SubmittedAtMost | native/src/jni_bridge.c:225-232 | a run can bring in no more tasks than the table has free places |
| Workload.BusySectionsOfRun | native/src/scheduler_loop.c:79-283 | whatever the clients do, at most 256 * (33 + ceil(T / q)) sections of a whole run do not end in sleep, if no task asks for more than T |
| Liveness.RunBounded | native/src/scheduler_loop.c:79-489 | in every run before stop(), the processes take no more steps than were left and the calls made bring in |
| Liveness.ClosedRunBounded | native/src/scheduler_loop.c:79-489 | left to itself the system takes a bounded number of steps, whatever the interleaving |
| Liveness.StuckMeansDone | native/src/scheduler_loop.c:79-489 | it stands still only with both processes asleep and every task terminal |
| Liveness.SomeoneFinishes | native/src/deadlock_detector.c:202-287 | when all is done and there were tasks, one is FINISHED |
| Guarantees.ReachableCompletes | native/src/scheduler_loop.c:79-489 | together: in every run from a reachable state the steps are bounded, and when no more can be taken everything is done |
| Guarantees.ReachableStops | native/src/scheduler_loop.c:79-489 | without further calls, at most StepsLeft steps remain in any reachable state |
| Starvation.StarvationFree | native/include/scheduler_core.h:80-87 | a READY task is passed over in fewer than 5 * (P - effective) - ticks + 256 cycles, despite arrivals and requeues of priority at most P |
| Completion.SectionBrings | native/src/scheduler_loop.c:225-247 | each section brings a task that has become READY one section closer to being FINISHED, selected or not |
| Completion.EndBrings | native/src/scheduler_loop.c:433-475 | a quantum and the requeue after it cost the task no section |
| Completion.FinishedInTime | native/include/scheduler_core.h:80-87 | it is FINISHED once more than ceil(remaining / q) * (5 * (P - base) + 256) sections have run, despite arrivals and requeues |
| Guarantees.SelectedInTime | native/include/scheduler_core.h:80-87 | the bound on being passed over, from every reachable state |
| Guarantees.FinishedInTime | native/include/scheduler_core.h:80-87 | the bound on being FINISHED, from every reachable state |
| Shutdown.ShutdownBounded | native/src/jni_bridge.c:137-150 | after the flag each step of a process or of stop brings the exit closer; clients cannot delay it |
| Shutdown.NobodyHangs | native/src/jni_bridge.c:142-150 | after the three posts neither process can be left waiting |
| Shutdown.OneLastQuantum | native/src/scheduler_loop.c:344-349 | after the flag the Worker ends at most the quantum whose check it had passed |
| Guarantees.StopCompletes | native/src/jni_bridge.c:137-168 | after the flag at most 15 process steps remain, and then both have left their loops |

## Left out

- Logging and snapshots (`native/src/logger.c`): they read the state and never change it.
- Getters and JNI marshalling (`native/src/jni_bridge.c:351-586`): plain lookups.
- Creating, mapping and destroying the segment, fork, waitpid and signals: the model starts from the zeroed
  segment with initialised semaphores and both processes at the head of their loops.
- Failures of mutex and semaphore calls (`native/src/scheduler_loop.c:337-342`): `sem_wait` either takes a token or waits.
- Real time: `usleep` is a point between two steps where anyone may run; `assigned_worker_pid` is not modelled.
- Weak memory: each unsynchronised read of `shutdown_flag` is one step.
- Machine integers: times and priorities are unbounded; by `Guarantees.PriorityOrder` effective priorities
  stay below overflow as long as every priority given is at most INT_MAX - 51.
- Masks as machine words: the 32-bit operations are represented by set operations on bit positions.
- A second `stop`, or calls after the segment is gone: `stop` is modelled once.

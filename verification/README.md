# Verified model of the RTU's real-time core

This project models, in Dafny 4.11, the algorithms that the SCADA remote terminal unit of
this repository runs in the kernel, and proves what they promise:

- **The RTAI scheduler's queues** (`rtai_schedcore.h`, uniprocessor path): the ready queue
  (deadline tasks by period, then tasks by priority), the timed queue, the wait queues of
  semaphores and messages, and priority inheritance along `prio_passed_to`.
- **The exit handlers** of a task (same file).
- **The shared circular buffer** (`rtai_scb.h`), for one caller at a time and for one
  producer and one consumer that interleave.
- **The name codec** (`rtai_nam2num.h`).
- **The button interrupt** of the terminal unit's own module (`rtu/kernel/adc.c`).

Run `dafny verify dfyconfig.toml` to check everything.

## How it is built

The scheduler is modelled twice. `Scheduler.dfy` is the program: task and queue records on
the heap, threaded through `rnext`/`rprev`, `tnext`/`tprev` and `queue.next`/`queue.prev`,
and methods that make the pointer stores of the source in the source's order. Its
invariant `Linked` says that every list is a proper ring in both directions; its function
`Abs` reads the state as sequences and a map of task attributes (`SchedulerSpec.State`).
Each method is proved equal to one function of `SchedulerSpec.dfy` on that value. What the
source promises is then proved about those functions, for all states and all runs:

| file | content |
|---|---|
| `Sequences.dfy`, `Orders.dfy` | sequences without duplicates; sorted queues under insertion and removal |
| `Rings.dfy` | circular doubly linked lists as link maps: splice, unlink, drop a prefix |
| `Tasks.dfy`, `SchedulerSpec.dfy`, `WellFormedness.dfy` | the records, the operations on values, and the structure they keep |
| `Scheduler.dfy`, `Callers.dfy` | the operations, and whole runs of critical sections, on the heap |
| `ReadyQueue.dfy`, `TimedQueue.dfy`, `WaitQueues.dfy` | the order of each queue |
| `Inheritance.dfy`, `PassPrioQueues.dfy`, `PassPrioPlaces.dfy`, `PassPrioReady.dfy` | exactly what `pass_prio` does to priorities, to the order of queues, and to places in them |
| `Runs.dfy`, `InheritanceRuns.dfy` | every run of critical sections: structure, guards, inheritance |
| `ReadyRuns.dfy`, `TimedRuns.dfy`, `WaitRuns.dfy`, `ArrivalRuns.dfy`, `PriorityRuns.dfy` | the order of each queue over runs, with the exact condition of each step |
| `Effects.dfy` | the whole effect of each step, attribute by attribute and bit by bit |
| `FirstComeRuns.dfy`, `StableRuns.dfy` | first come, first served among equals over runs, in the ready queue and in priority wait queues |
| `ExitHandlers.dfy` | exit handlers |
| `CircularBuffer.dfy`, `ConcurrentBuffer.dfy` | the circular buffer, sequential and interleaved |
| `NameCodec.dfy` | names and identifiers |
| `Buttons.dfy` | the button interrupt |

Loops that look for a place are methods of their own (`WalkPriorities` and so on), because
they change nothing; the loop bodies of `wake_up_timed_tasks`, `pass_prio` and
`num2nam` are `WakeDue`, `RaiseTask` and `StoreDigit`. Single stores are methods that state the new abstract value:
one pointer (`SetReadyNext`, `SetReadyPrev`, ...) or one attribute (`StorePriority`,
`StoreState`, ...).

A caller's critical section is a step of `Runs.dfy`: a task blocks (with or without a
timeout), sleeps, is suspended, woken or released, has its priority changed or passed on,
or a timer tick happens. The callers themselves (`rt_sem_wait`, `rt_task_suspend`, ...) are
not part of the repository; a step makes the state-bit changes and the calls of queue
operations that such a caller makes together. A waker says which of the two exported
insertions it calls (`rtai_sched.h:397-399`), and a blocking task which type of queue it
asks for. `RunConsistent` shows that every run keeps each task linked exactly when the
guards of `rem_ready_task` and `rem_timed_task` say so. `Callers.PerformRun` performs any
run on the heap, where every operation's precondition follows from that, and ends in
exactly the state of the run on values.

What a run may lose is stated as an exact condition on each step: `ReadyRuns` for the
order of the ready queue, `PriorityRuns` for a priority wait queue, `ArrivalRuns` for the
order of arrival, `InheritanceRuns` for inheritance.

## Assumptions

- The sentinel (Linux) task has priority `RT_SCHED_LINUX_PRIORITY`, a policy that is not
  negative, and a resume time after any `now`; other tasks have a priority below it, and
  deadline tasks (policy < 0) have priority 0. The code that sets these is not part of the
  repository, so they are preconditions (`Bounded`).
- `unsigned long` and `int` have 32 bits and signed arithmetic wraps, as on the ARM target.
- The buffer's header accesses are sequentially consistent, and it is initialised.
- The interrupt handler is atomic, because it disables its own interrupt; the pending
  register is read as one snapshot.

## Where the code and its documentation or intent differ

- **`pass_prio` can leave a priority wait queue unsorted.** A task whose timeout expired is
  ready but still linked in its wait queue (`TimedOutStaysQueued`); when `pass_prio` then
  raises it, only its place in the ready queue is corrected. `StaleWaiterExample` is a
  concrete sound state in which the order is lost, and `PassPrioWaitOrder` gives the exact
  condition: the queue stays sorted if and only if no ready task that the passed priority
  improves stands in it behind a less urgent task that it does not improve. A task is
  improved when the links lead to it through less urgent tasks only (`ChainIsImproved`);
  when inheritance held before, that is every reachable less urgent task
  (`ImprovesReachable`).
- **`pass_prio` can reorder an arrival-order (FIFO) semaphore queue.** The test at
  `rtai_schedcore.h:361-362` spares a waiter only while its SEMAPHORE bit is set. A waiter
  that timed out and is then suspended, before it left the queue, has lost the bit. When a
  priority is passed to it, it overtakes every less urgent waiter that came before it and
  that this priority does not improve too (`SuspendedWaiterOvertakes`);
  `SuspendedWaiterExample` is a concrete state. `PassPrioInPlace` and
  `PassPrioKeepsFifo` say exactly when a queue is left as it was, and `RunArrivals` which
  callers never get there.
- **`renq_ready_task` does not touch the wait queue of a blocked task.** A new priority of
  a waiter keeps a priority queue sorted if and only if it lies between its neighbours'
  (`StepPriorities`); `RepricedWaiterExample` is a consistent state in which it does not.
- **Deadline tasks and `enq_ready_task`.** In `rtai_schedcore.h` only the tick looks at the
  policy to choose between the two insertions (lines 286-290), but `rtai_sched.h:397-399`
  exports both. A waker that inserts a deadline task by priority, or another task by
  deadline, keeps the ready queue in order exactly under the conditions of
  `EnqReadyOfEdfTask` and `EnqReadyEdfOfPlainTask`; `DeadlineTaskMisplaced` is a consistent
  state in which the wrong choice loses the order and the right one does not.
- **A task without a deadline that a waker inserts by deadline** goes ahead of its equals,
  even when the queue stays ordered: `EqualInsertedByDeadline`. Every other step that gives
  a ready task a place puts it behind them (`StepPlaces`), and no step reorders two ready
  tasks that it leaves alone (`StepReadyPair`), so that equals are served in the order in
  which they came (`FirstComeFirst`).
- **Tasks of one tick run in reverse.** `enq_timed_task` puts a task ahead of those with
  the same resume time, so `WokenInReverse` holds, whatever other tasks do in between.
- The comment at `adc.c:182` says rising edge; the code clears the bits, which selects
  falling edges first, and `RunAlternates` is about what the code does.
- **`num2nam` is documented to fill a buffer of six characters.** For the numbers from 39^5
  on, and only for those (the sentinel excepted), it stores its terminator in a seventh
  place: `SeventhPlace`. Among names, these are exactly those with six significant
  characters (`FullNameNeedsSeven`); `NeedsSevenExamples` has the least number and a name.
  `Num2Nam` asks for a seventh place exactly then.
- A put or get of 0 bytes moves nothing and returns 0, the value documented for success.

## Model

| member | source | states |
|---|---|---|
| Rings.SpliceInserts | include/linux24/include/rtai_schedcore.h:205-206 | the four stores turn a proper two-way ring into the ring with the task inserted at that place |
| Rings.UnlinkRemoves | include/linux24/include/rtai_schedcore.h:247-248 | the two stores turn a proper two-way ring into the ring without that task |
| Rings.UnlinkUndoesSplice | include/linux24/include/rtai_schedcore.h:272-273 | enqueue followed by removal restores both pointers of every other node |
| Rings.BackwardReversesForward | include/linux24/include/rtai_schedcore.h:205-206 | walking prev visits the members that walking next visits, in reverse |
| Rings.RingDropFirst | include/linux24/include/rtai_schedcore.h:298-299 | the two final stores of the tick cut any prefix out and leave a proper ring of the rest |
| Rings.SpliceElsewhere | include/linux24/include/rtai_schedcore.h:331-332 | linking into one wait queue leaves every other wait queue's ring intact |
| SchedulerCore.Scheduler.EnqReadyEdfTask | include/linux24/include/rtai_schedcore.h:173-186 | the heap operation keeps all rings linked and has the abstract effect EnqReadyEdf, nothing else |
| SchedulerCore.Scheduler.EnqReadyTask | include/linux24/include/rtai_schedcore.h:193-206 | the heap operation keeps all rings linked and has the abstract effect EnqReady, nothing else |
| SchedulerCore.Scheduler.WalkPriorities | include/linux24/include/rtai_schedcore.h:202-204 | the loop ends in front of the first task, or the sentinel, that is less urgent than the given priority |
| SchedulerCore.Scheduler.WalkDeadlines | include/linux24/include/rtai_schedcore.h:181-183 | the loop ends in front of the first task that has no deadline or a later one |
| SchedulerCore.Scheduler.RenqReadyTask | include/linux24/include/rtai_schedcore.h:215-227 | new priority, new place if ready, and whether the priority changed |
| SchedulerCore.Scheduler.RenqCurrentTask | include/linux24/include/rtai_schedcore.h:229-239 | the same for the running task, relinked unconditionally |
| SchedulerCore.Scheduler.RemReadyTask | include/linux24/include/rtai_schedcore.h:241-250 | unlinks from the ready ring exactly when the state is READY |
| SchedulerCore.Scheduler.RemReadyCurrent | include/linux24/include/rtai_schedcore.h:252-259 | unlinks the running task from the ready ring |
| SchedulerCore.Scheduler.EnqTimedTask | include/linux24/include/rtai_schedcore.h:261-274 | the heap operation has the abstract effect EnqTimed and keeps all rings linked |
| SchedulerCore.Scheduler.WalkTimes | include/linux24/include/rtai_schedcore.h:269-271 | the loop ends in front of the first task whose time is not earlier |
| SchedulerCore.Scheduler.WakeUpTimedTasks | include/linux24/include/rtai_schedcore.h:276-301 | the whole tick, loop and final cut, has the abstract effect WakeUp and keeps all rings linked |
| SchedulerCore.Scheduler.RemTimedTask | include/linux24/include/rtai_schedcore.h:303-309 | unlinks from the timed ring exactly when the DELAYED bit is set |
| SchedulerCore.Scheduler.EnqueueBlockedTask | include/linux24/include/rtai_schedcore.h:324-333 | links into the wait queue by priority or at the end, sets blocked_on, keeps all other rings |
| SchedulerCore.Scheduler.WalkWaiters | include/linux24/include/rtai_schedcore.h:329 | the loop ends in front of the first less urgent waiter, or at the head |
| SchedulerCore.Scheduler.DequeueBlockedTask | include/linux24/include/rtai_schedcore.h:336-342 | unlinks from the wait queue, clears blocked_on and prio_passed_to, keeps all other rings |
| SchedulerCore.Scheduler.PassPrioTo | include/linux24/include/rtai_schedcore.h:344-376 | terminates on every link graph, keeps all rings linked, and has the abstract effect PassPrio |
| SchedulerCore.Scheduler.NextIsFirst | include/linux24/include/rtai_schedcore.h:179 | the node after the sentinel is the first ready task |
| SchedulerSpec.StopAt | include/linux24/include/rtai_schedcore.h:202-204 | everything in front of the place passes the loop's test and the task at the place does not |
| WellFormedness.EnqueueBlockedWellFormed | include/linux24/include/rtai_schedcore.h:324-333 | no duplicates, and blocked_on names exactly the queue that holds the task, after blocking |
| WellFormedness.DequeueBlockedWellFormed | include/linux24/include/rtai_schedcore.h:336-342 | the same after unblocking; the task was in the queue that blocked_on named |
| WellFormedness.RemReadyUndoesEnqReady | include/linux24/include/rtai_schedcore.h:173-250 | enqueuing a task, by deadline or by priority, and removing it gives the ready queue back |
| WellFormedness.RemTimedUndoesEnqTimed | include/linux24/include/rtai_schedcore.h:261-309 | enqueuing a task by time and removing it gives the timed queue back |
| WellFormedness.DequeueUndoesEnqueue | include/linux24/include/rtai_schedcore.h:324-342 | blocking a task and unblocking it changes nothing but that the task no longer passes its priority on |
| WellFormedness.RaiseWellFormed | include/linux24/include/rtai_schedcore.h:353-368 | the same after each round of pass_prio |
| WellFormedness.PassStep | include/linux24/include/rtai_schedcore.h:352-369 | each round goes on with the next link and leaves strictly fewer tasks less urgent than the passed priority |
| ReadyQueue.EnqReadyEdfOrders | include/linux24/include/rtai_schedcore.h:181-185 | the queue stays ordered, and exactly the deadlines that are not later come ahead of the new task |
| ReadyQueue.EnqReadyOrders | include/linux24/include/rtai_schedcore.h:202-206 | the queue stays ordered, and exactly the deadline tasks and the tasks at least as urgent come ahead of the new task |
| ReadyQueue.EnqReadyOfEdfTask | include/linux24/include/rtai_schedcore.h:193-206 | inserting a deadline task by priority keeps the order if and only if every ready task of priority 0 is a deadline task that is not later |
| ReadyQueue.EnqReadyEdfOfPlainTask | include/linux24/include/rtai_schedcore.h:173-186 | inserting a task without deadline by deadline keeps the order if and only if no ready deadline is later than its period and no other ready task is more urgent |
| ReadyQueue.EnqReadyByPlace | include/linux24/include/rtai_schedcore.h:173-206 | whenever an insertion keeps the order, the newcomer comes behind exactly the tasks at least as urgent, equals included; by deadline, ahead of all tasks without one |
| ReadyQueue.RenqReadyOrders | include/linux24/include/rtai_schedcore.h:215-227 | the priority asked for is stored and nothing else but the ready queue changes; a ready task with a new priority comes behind exactly the deadline tasks and the others up to that priority, the others keep their mutual order, and the queue stays ordered; otherwise nothing moves |
| ReadyQueue.RenqCurrentOrders | include/linux24/include/rtai_schedcore.h:229-239 | the same for the running task: it ends with the priority asked for, behind exactly the deadline tasks and the others up to that priority |
| ReadyQueue.RemReadyOrders | include/linux24/include/rtai_schedcore.h:247-248 | removal keeps the ready queue ordered and the mutual order of all other tasks |
| ReadyQueue.FirstIsBest | include/linux24/include/rtai_schedcore.h:173-206 | the first ready task has the earliest deadline or, if none has a deadline, the best priority |
| TimedQueue.EnqTimedOrders | include/linux24/include/rtai_schedcore.h:269-273 | the timed queue stays sorted, and exactly the strictly earlier tasks come ahead of the new one |
| TimedQueue.RemTimedOrders | include/linux24/include/rtai_schedcore.h:306-307 | removal keeps the timed queue sorted |
| TimedQueue.WakeUpSplits | include/linux24/include/rtai_schedcore.h:284-299 | afterwards the timed queue is the later tasks in their old order, exactly the due tasks had their bits cleared, exactly those left READY joined the ready queue, which is still ordered |
| TimedQueue.WakeUpBits | include/linux24/include/rtai_schedcore.h:284-293 | for every due task the eight reasons for waiting are cleared and no other bit changes; every other task stays as it was |
| TimedQueue.WakeUpEnters | include/linux24/include/rtai_schedcore.h:285-291 | a due task enters the ready queue if and only if its state has READY and no bit but READY and these eight |
| TimedQueue.WakeAllKeepsOrder | include/linux24/include/rtai_schedcore.h:284-293 | waking reorders no two tasks that were ready before |
| TimedQueue.WakeUpPair | include/linux24/include/rtai_schedcore.h:284-293 | of two due tasks the first in the timed queue becomes ready first if and only if it is at least as urgent as the other |
| TimedQueue.NewerFirst | include/linux24/include/rtai_schedcore.h:269-273 | of two tasks with one resume time the one queued last stands first |
| TimedRuns.RunPair | include/linux24/include/rtai_schedcore.h:261-309 | over any run that leaves the waits of two tasks alone, the two stay in the timed queue in the same order |
| TimedRuns.WokenInReverse | include/linux24/include/rtai_schedcore.h:269-293 | of two tasks of one resume time the one that began to wait later becomes ready first unless the other is more urgent, whatever the run does with other tasks in between |
| TimedRuns.SleepersExample | include/linux24/include/rtai_schedcore.h:269-293 | a concrete run: two sleepers of one time and priority, woken in reverse |
| WaitQueues.StableSortSorted | include/linux24/include/rtai_schedcore.h:328-330 | the discipline of a priority queue implies that it is sorted |
| WaitQueues.ArriveByPriority | include/linux24/include/rtai_schedcore.h:328-332 | an arrival keeps a priority queue the stable sort of the arrivals |
| WaitQueues.VisitsDisciplined | include/linux24/include/rtai_schedcore.h:324-342 | over any sequence of arrivals and departures a FIFO queue is the order of arrival, a priority queue its stable sort, and blocked_on names the queue exactly for its members |
| Inheritance.ChainIsImproved | include/linux24/include/rtai_schedcore.h:352-370 | the tasks that the loop raises are exactly those that the links reach through different, less urgent tasks only, on every graph of links |
| Inheritance.PassAlongRaisesImproved | include/linux24/include/rtai_schedcore.h:352-370 | the loop gives the passed priority to exactly these tasks and changes no other attribute |
| Inheritance.PassPrioRaises | include/linux24/include/rtai_schedcore.h:344-376 | on every link graph, inheriting or not: the new link is set, the improved tasks get the passed priority, and no other attribute of any task changes |
| Inheritance.ImprovesReachable | include/linux24/include/rtai_schedcore.h:352-370 | if inheritance held before, these are all reachable less urgent tasks |
| Inheritance.PassPrioExact | include/linux24/include/rtai_schedcore.h:351-370 | every task reachable from the target ends at the smaller of its own and the passed priority, everything else is unchanged |
| Inheritance.PassPrioInherits | include/linux24/include/rtai_schedcore.h:351-370 | if no waiter was more urgent than the task it passes to, that holds for all tasks afterwards, the new waiter included |
| PassPrioQueues.PassPrioKeepsQueues | include/linux24/include/rtai_schedcore.h:351-370 | every queue keeps its members, and the ready queue its order if it was ordered |
| PassPrioQueues.PassPrioWaitOrder | include/linux24/include/rtai_schedcore.h:354-368 | a priority wait queue stays sorted if and only if it holds no ready task that the passed priority improves behind a less urgent task that it does not improve |
| PassPrioQueues.StaleWaiterExample | include/linux24/include/rtai_schedcore.h:354-368 | a sound state in which the order of a priority wait queue is lost |
| PassPrioReady.PassPrioReadyPair | include/linux24/include/rtai_schedcore.h:352-360 | two ready tasks that are not improved keep their order; an improved one ends behind exactly those of the others that are at least as urgent as the passed priority |
| PassPrioReady.PassPrioTurns | include/linux24/include/rtai_schedcore.h:352-360 | two improved ready tasks end in the order in which the links reach them |
| PassPrioPlaces.RaiseInPlace | include/linux24/include/rtai_schedcore.h:353-368 | one round leaves a wait queue as it was if and only if its task is not moved there, or stands behind urgent tasks only and ahead of one that is not |
| PassPrioPlaces.PassPrioInPlace | include/linux24/include/rtai_schedcore.h:351-370 | the whole call leaves a wait queue of either type exactly as it was if and only if every task that it moves there is in place when its turn comes |
| PassPrioPlaces.PassPrioKeepsFifo | include/linux24/include/rtai_schedcore.h:361-362 | for an arrival-order queue only waiters that are neither ready nor marked SEMAPHORE matter; without any that the passed priority improves the queue is left as it was |
| Runs.StepConsistent | include/linux24/include/rtai_schedcore.h:241-309 | each critical section keeps ready-linked equal to state READY, time-linked equal to DELAYED, the structure of all queues and the order of the timed queue, whichever insertion a waker calls |
| Runs.RunConsistent | include/linux24/include/rtai_schedcore.h:241-309 | so does every run; no task is linked twice, a wait queue holds exactly the tasks that name it, and no timed task is due before the first |
| Effects.EnqueueBlockedExact | include/linux24/include/rtai_schedcore.h:324-333 | blocking stores the queue in blocked_on and changes nothing else but that queue: the task is last, or by priority behind exactly those up to its own |
| Effects.DequeueBlockedExact | include/linux24/include/rtai_schedcore.h:336-342 | unblocking clears both links and changes nothing else but the queue that blocked_on named: the others stay, in their order |
| Effects.BlockExact | include/linux24/include/rtai_schedcore.h:241-333 | a critical section that blocks: out of the ready queue, into the wait queue and, with a timeout, into the timed queue; exactly the given bits are set |
| Effects.SleepExact | include/linux24/include/rtai_schedcore.h:241-274 | one that sleeps: READY becomes READY and DELAYED, out of the ready queue, into the timed queue, nothing else |
| Effects.SuspendExact | include/linux24/include/rtai_schedcore.h:241-250 | one that suspends: SUSPENDED is set, out of the ready queue, nothing else |
| Effects.WakeExact | include/linux24/include/rtai_schedcore.h:173-309 | one that wakes: the given bits and DELAYED are cleared and no other; into the ready queue if and only if READY alone is left; nothing for a ready task |
| Effects.ReleaseExact | include/linux24/include/rtai_schedcore.h:173-342 | the same for a waiter, which leaves its queue first; a ready one only does that |
| Runs.TimedOutStaysQueued | include/linux24/include/rtai_schedcore.h:284-293 | a task whose timeout expires becomes ready and stays in its wait queue |
| ReadyRuns.StepOrdered | include/linux24/include/rtai_schedcore.h:173-376 | a critical section keeps the ready queue ordered if and only if it is no waker whose choice of insertion misplaces the task |
| ReadyRuns.RunOrdered | include/linux24/include/rtai_schedcore.h:173-376 | over every run without such a waker the ready queue is ordered and its first task is a best one |
| FirstComeRuns.StepReadyPair | include/linux24/include/rtai_schedcore.h:173-376 | a critical section keeps the order of two ready tasks unless it blocks, puts to sleep, suspends, reprices or improves one of them |
| FirstComeRuns.RunReadyPair | include/linux24/include/rtai_schedcore.h:173-376 | so does every run of such critical sections |
| FirstComeRuns.StepPlaces | include/linux24/include/rtai_schedcore.h:173-376 | a critical section that makes a task ready, reprices or improves it puts it behind exactly the others at least as urgent; a waker's insertion by deadline, ahead of all tasks without one |
| FirstComeRuns.FirstComeFirst | include/linux24/include/rtai_schedcore.h:173-376 | once a task has got its place, another ready task stands ahead of it if and only if it was at least as urgent then, over every run that leaves both alone: of equals, the first to come stands first (unless the newcomer was inserted by deadline and has none) |
| FirstComeRuns.EqualInsertedByDeadline | include/linux24/include/rtai_sched.h:397-399 | a consistent state in which both insertions keep the queue ordered, but the one by deadline puts the newcomer ahead of its equal |
| ReadyRuns.DeadlineTaskMisplaced | include/linux24/include/rtai_sched.h:397-399 | a consistent state in which waking a deadline task by priority loses the order and waking it by deadline does not |
| ArrivalRuns.StepArrivals | include/linux24/include/rtai_schedcore.h:324-376 | for a wait queue of either type, exactly when a critical section leaves it what arrivals and departures make of it |
| ArrivalRuns.RunArrivals | include/linux24/include/rtai_schedcore.h:324-376 | a FIFO queue is its arrivals without its departures, in order, over every run in which newcomers ask for arrival order and are marked SEMAPHORE, a waiter that loses the mark by a wake or whose time is out is left READY and nothing else, and no ready waiter is suspended or put to sleep |
| ArrivalRuns.SuspendedWaiterOvertakes | include/linux24/include/rtai_schedcore.h:361-368 | a waiter that timed out, is suspended and then passed a priority overtakes every waiter ahead of it that is less urgent than this priority and not improved by it |
| ArrivalRuns.SuspendedWaiterExample | include/linux24/include/rtai_schedcore.h:361-368 | a concrete consistent state in which two FIFO waiters swap |
| PriorityRuns.StepPriorities | include/linux24/include/rtai_schedcore.h:215-376 | a critical section keeps a priority wait queue sorted if and only if it appends nobody ahead of whom it belongs, reprices no waiter past a neighbour, and improves no stale waiter |
| PriorityRuns.RunPriorities | include/linux24/include/rtai_schedcore.h:215-376 | over every run of such steps the queue is sorted and its first waiter is a most urgent one |
| StableRuns.RunStable | include/linux24/include/rtai_schedcore.h:324-376 | over every run in which newcomers join by priority and no waiter's priority changes, the queue is the stable sort of its arrivals without its departures |
| PriorityRuns.RepricedWaiterExample | include/linux24/include/rtai_schedcore.h:215-227 | a consistent state in which a new priority of a waiter leaves its queue unsorted |
| Callers.Perform | include/linux24/include/rtai_schedcore.h:173-376 | each critical section, made on the heap with the operations, ends in the step's value with all rings linked |
| Callers.PerformRun | include/linux24/include/rtai_schedcore.h:173-376 | so does every run: all preconditions hold where the operations are called |
| InheritanceRuns.StepInherits | include/linux24/include/rtai_schedcore.h:215-376 | a critical section breaks inheritance if and only if it is a change of priority that does not respect the links of the task at that moment |
| InheritanceRuns.RunInherits | include/linux24/include/rtai_schedcore.h:241-376 | over every run with respectful changes of priority, no task is more urgent than one it passes its priority to |
| InheritanceRuns.ChainOfUrgency | include/linux24/include/rtai_schedcore.h:344-376 | then every task at the end of any chain of links is at least as urgent as the one at its start |
| ExitHandlers.ExitHooks.SetExitHandler | include/linux24/include/rtai_schedcore.h:406-419 | adds the handler in front, or changes nothing if this is no task or memory is refused |
| ExitHandlers.ExitHooks.CallExitHandlers | include/linux24/include/rtai_schedcore.h:392-404 | calls every handler once in list order, releases every record once, empties the list; the trace of accesses has no read of a released record |
| ExitHandlers.PendingReversed | include/linux24/include/rtai_schedcore.h:410-418 | handlers run in the reverse of the order of registration, each exactly once |
| ExitHandlers.RegisterThenEnd | include/linux24/include/rtai_schedcore.h:392-419 | registering any list of handlers and then ending makes exactly those calls |
| CircularBuffer.PutWrapped | include/linux24/include/rtai_scb.h:233-239 | the two copies across the end of the array append the message to the unread bytes |
| CircularBuffer.GetWrapped | include/linux24/include/rtai_scb.h:171-177 | the two copies across the end of the array yield the first bytes, and the new index drops them |
| CircularBuffer.Scb.Bytes | include/linux24/include/rtai_scb.h:145-149 | returns the number of unread bytes |
| CircularBuffer.Scb.Get | include/linux24/include/rtai_scb.h:163-181 | puts the n oldest bytes into the caller's array and removes them if and only if 0 < n <= length, touching no other place of it; otherwise changes nothing and returns n |
| CircularBuffer.Scb.Evdrp | include/linux24/include/rtai_scb.h:195-211 | gives what get would, to the caller's array only, and leaves the buffer as it was |
| CircularBuffer.Scb.Put | include/linux24/include/rtai_scb.h:225-243 | appends the message if and only if 0 < n <= capacity - length; otherwise changes nothing and returns n |
| CircularBuffer.Scb.constructor | include/linux24/include/rtai_scb.h:90-101 | an initialised buffer is empty and has one place more than its capacity |
| ConcurrentBuffer.PutCopyKeeps | include/linux24/include/rtai_scb.h:230-236 | a byte copied in by the producer lands on no unread byte, whatever the consumer does meanwhile |
| ConcurrentBuffer.StepKeeps | include/linux24/include/rtai_scb.h:145-243 | every load, byte copy and publishing store of a put, get, eavesdrop or count keeps the invariant and stays inside the buffer |
| ConcurrentBuffer.PutPublishAppends | include/linux24/include/rtai_scb.h:232-238 | the store of LBYTE appends the whole message at once, and there was room |
| ConcurrentBuffer.GetPublishRemoves | include/linux24/include/rtai_scb.h:170-176 | the store of FBYTE removes at once exactly the bytes that were copied out, the oldest |
| ConcurrentBuffer.EvdrpSees | include/linux24/include/rtai_scb.h:195-211 | an eavesdrop of the consumer returns the first unread bytes, whatever the producer does meanwhile, and changes nothing |
| ConcurrentBuffer.CountsSeen | include/linux24/include/rtai_scb.h:145-149 | a count by the consumer is exact at its load of LBYTE and never too large when it returns; one by the producer is never too small |
| ConcurrentBuffer.ProducerCount | include/linux24/include/rtai_scb.h:145-149 | a count by the producer is the number of unread bytes at its load of FBYTE, whatever the consumer does meanwhile |
| ConcurrentBuffer.GetRefused | include/linux24/include/rtai_scb.h:163-211 | a get or eavesdrop is refused if and only if n is not positive or fewer than n bytes are unread at its load of LBYTE |
| ConcurrentBuffer.PutRefused | include/linux24/include/rtai_scb.h:225-243 | from the call on: a put of a message is refused if and only if the message is empty or there was no room for it at its load of FBYTE, whatever the consumer does before and in between |
| ConcurrentBuffer.PutPublishesMessage | include/linux24/include/rtai_scb.h:225-243 | from the call on, over every interleaving: when the producer next stores LBYTE, the completed puts grow by exactly the message it was called with, and the unread bytes by the same |
| ConcurrentBuffer.GetTakesOldest | include/linux24/include/rtai_scb.h:163-181 | over every interleaving: a get of n is refused or, at its store of FBYTE, takes one message, the n oldest unread bytes; nothing is received before |
| ConcurrentBuffer.EvdrpReturnsOldest | include/linux24/include/rtai_scb.h:195-211 | over every interleaving: an eavesdrop of n is refused or returns the n oldest unread bytes, never stores FBYTE, and changes nothing |
| ConcurrentBuffer.PutAlone | include/linux24/include/rtai_scb.h:225-243 | a put for which there is room runs to its end, and the message is appended |
| ConcurrentBuffer.GetAlone | include/linux24/include/rtai_scb.h:163-211 | a get or eavesdrop for which there are bytes runs to its end, and yields them |
| ConcurrentBuffer.OthersKeepUnread | include/linux24/include/rtai_scb.h:163-243 | no other event changes the unread bytes |
| ConcurrentBuffer.RunSafe | include/linux24/include/rtai_scb.h:163-243 | over every interleaving, received plus unread bytes are the bytes of the completed puts, and messages asked for by their sizes arrive whole |
| NameCodec.NumBounds | include/linux24/include/rtai_nam2num.h:55-75 | a non-empty name encodes to 1 .. 39^6 - 1, never to the sentinel of the empty name |
| NameCodec.NumOfOne | include/linux24/include/rtai_nam2num.h:62-71 | the number of every one-character name: 1..10 for digits, 11..36 for letters of either case, 37 for an underscore, 38 for anything else |
| NameCodec.NumOfMore | include/linux24/include/rtai_nam2num.h:58-73 | each further character, up to the sixth, multiplies by 39 and adds its own number |
| NameCodec.NumOfRest | include/linux24/include/rtai_nam2num.h:55-75 | nothing behind the sixth character or the terminator counts; the empty name is the sentinel |
| NameCodec.TextOfOne | include/linux24/include/rtai_nam2num.h:95-104 | the character of every number from 1 to 38 |
| NameCodec.TextOfMore | include/linux24/include/rtai_nam2num.h:92-109 | each larger number: the text of the quotient by 39, without its first character when it has six, and the character of the remainder, which is a slash for zero |
| NameCodec.KnownNumbers | include/linux24/include/rtai_sched.h:62 | the identifier that the task magic is documented to be |
| NameCodec.NameRoundTrip | include/linux24/include/rtai_nam2num.h:53-109 | a name comes back as its first six characters in canonical form |
| NameCodec.NumInjective | include/linux24/include/rtai_nam2num.h:53-76 | two names share an identifier if and only if their canonical forms are equal |
| NameCodec.NumRoundTrip | include/linux24/include/rtai_nam2num.h:87-109 | an identifier comes back if and only if it is the sentinel, or positive, below 39^6 and without zero digits |
| NameCodec.RemainderWraps | include/linux24/include/rtai_nam2num.h:96-98 | the remainder is right although q * 39 may overflow a signed int |
| NameCodec.Nam2Num | include/linux24/include/rtai_nam2num.h:53-76 | the loop computes the number that NumOfOne, NumOfMore and NumOfRest fix, without overflow |
| NameCodec.Num2Nam | include/linux24/include/rtai_nam2num.h:87-109 | fill from the right, shift left in place and terminate: the text that TextOfOne and TextOfMore fix; the seventh place is written exactly for numbers from 39^5 on, nothing behind it ever |
| NameCodec.SeventhPlace | include/linux24/include/rtai_nam2num.h:79-109 | the text has six characters if and only if the number is at least 39^5 and not the sentinel |
| NameCodec.FullNameNeedsSeven | include/linux24/include/rtai_nam2num.h:79-109 | so it has for the identifier of a name if and only if the name has six significant characters |
| NameCodec.ShiftLeft | include/linux24/include/rtai_nam2num.h:105-108 | the in-place shift moves the text to the front undamaged |
| Buttons.OneEvent | rtu/kernel/adc.c:86-150 | an interrupt reports exactly one event, of the lowest pending button, rising if and only if its polarity bit was set, and turns over that bit alone; nothing if no button is pending |
| Buttons.EventNames | rtu/kernel/adc.c:86-144 | the button and the edge of each of the six events, by name |
| Buttons.RunAlternates | rtu/kernel/adc.c:86-150 | over every run each button's events alternate, falling first, its polarity bit is their parity, and other bits never change |
| Buttons.EdgesConserved | rtu/kernel/adc.c:86-153 | for each button, its reported plus its coalesced edges are its pending edges |
| Buttons.PortB.ButtonHandler | rtu/kernel/adc.c:44-157 | the handler has the effect of one interrupt on registers and events; the record has the event by name, the level of each of the three pins, the voltage and the time; all edges are acknowledged |
| Buttons.PortB.InitEdges | rtu/kernel/adc.c:179-183 | initialisation enables and debounces the three buttons on edges, clears their polarity bits and leaves the others |

## Left out

- Multiprocessor branches (`CONFIG_SMP`) and the soft-task path of `enq_ready_task` and `rem_ready_task` (`is_hard` false): the consumer of the wake-up ring is not part of the repository; all tasks are hard.
- The callers of the queue operations and `rt_schedule`: not part of the repository; their critical sections are the steps of `Runs.dfy`, performed by `Callers.dfy`.
- Initialisation of tasks, semaphores and the sentinel: `Scheduler`'s constructor only sets up empty rings.
- Priority bookkeeping outside `pass_prio`, such as giving a lent priority back: not part of the repository.
- The functions that exit handlers run are recorded as calls; a handler that registers new handlers is not modelled.
- `rt_malloc` is a parameter that grants or refuses; `rt_free` is recorded.
- `rt_scb_init` racing with itself, allocation and deletion of shared memory; overflow of `size + lbyte - fbyte` for buffers of more than 2^30 bytes.
- ConcurrentBuffer.RunSafe: safety only; that calls end is stated for a thread that runs alone (`PutAlone`, `GetAlone`), not under a fair scheduler; `memcpy` copies bytes in ascending order, and only the consumer's thread eavesdrops.
- Identifiers wider than 32 bits (`unsigned long` on a 64-bit host).
- Memory mapping, the converter's registers, interrupt registration, the clock (a parameter) and the real-time FIFO's capacity in `adc.c`; the initial `PBDDR` and `PBDR`, whose masks are built with logical instead of bitwise or.
- The historian and the user-space program: sockets, threads and formatting.
- Message, mailbox and network call wrappers: they marshal arguments to kernel services that are not part of the repository.

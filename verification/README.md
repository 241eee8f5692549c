# A verified model of the uC/OS-II kernel

The repository carries a copy of the uC/OS-II V2.92 real-time kernel. This project models that kernel and proves
what it promises: who runs, who waits, what is delivered, when a delay ends, and how far a mutex can hold up an
urgent task, over every run of calls that keeps to the documented rules.

Paths below are relative to the root of the repository's sources.

## How the project is built

The kernel appears twice.

* As a value. `KernelState` has one `State` with sets of priorities in place of bitmaps and sums in place of reused
  fields, and the invariant `Inv` that all services keep. `Primitives` has the scheduler, blocking, waking and the pool
  of event blocks; `EventServices`, `MutexServices`, `TaskServices` and `Scheduling` have the services, each a function
  from state to state with the source's branches and error codes. Semaphores, mailboxes and queues share their text up
  to what the event holds, so one function with the kind of event as a parameter models each operation. A pend is two
  steps, up to and after its scheduler call, so that ticks, posts, aborts and deletions can come in between. `Runs`
  puts the services together into a state machine. `TaskAnswers`, `EventAnswers` and `MutexAnswers` say of every service,
  without naming the functions it is built from, what it answers, which fields it changes and that it changes no other.
  `Reachable`, `Histories`, `Gaps`, `Ceiling`, `PendPhases`, `Conservation`, `Fifo` and `Delays` prove what holds along the
  runs, `Rules` when a broken rule does harm, and `Witnesses` that it can.
* As it is written. The class in `Kernel` has the bitmaps, the cached bit positions, the tables of control blocks and
  the linked lists, changed in place by methods with the source's loops and branches. Its ghost field `s` is the value
  the data stand for, `Valid` couples the two (`KernelRep`, `PrioBitmap`), and every method's postcondition says that
  the new value is the model's function of the old one, so that everything proved about the value holds of the data.
  `QueueServices` adds the ring of a message queue (`RingQueue`). `Simulation.PerformRun` makes any legal run of calls on
  the data and the rings, and ends in the state of the state machine; `Bystanders` shows that a call leaves all queues
  alone but the one it names.

Three structures that are independent of the rest have a module and a class each: the timer wheel (`TimerWheel`),
memory partitions (`MemPart`) and event flag groups (`FlagGroup`). `DelayTime` is the tick arithmetic of the delay in
hours, minutes, seconds and milliseconds.

## What a caller must respect

`Runs.Legal` collects the rules. Some are documented: a mutex owner waits for nothing else and keeps its priority; the
scheduler lock is held by task code that does not block; only an outstanding memory block is returned.
`RaiseCarriesWaitBit` shows what the first of these prevents: a raised owner whose wait for an event has just timed out
would leave a stale bit behind. Other rules the code needs without saying so, and `Rules` shows for each what goes wrong
and exactly when:

* priorities changed twice in one interrupt can keep the wrong task running (`TwoChangesInInterrupt`,
  `SwitchIsRightUnlessStale`);
* a raised owner that suspends itself by its original priority keeps running, and so does a task that suspends or
  deletes itself under the scheduler lock (`SelfSuspension`, `SelfDeletion`);
* a task whose priority changes while the scheduler cannot act leaves a stale record of it (`SelfChange`);
* a raised owner that suspended itself under the lock and then posts the mutex becomes ready (`PostMakesReady`);
* deleting a task while the scheduler lock stands at 255 releases one lock (`DeletionKeepsLock`).

`Ceiling.Disciplined` adds the rules for the ceiling: it is more urgent than every task that competes for the mutex,
and a task's priority is not changed while it waits for one.

## Where code and documentation disagree

* The comments promise a scheduler call whenever a more urgent task becomes ready. A mutex post that returns its caller
  from the ceiling to its own priority with nobody waiting makes no such call; `Rules.DemotionGapIsExact` says when
  that leaves a more urgent task waiting, `Witnesses.DemotionGapHappens` that it can, and `Gaps.ScheduleIsOptimal` that
  the next interrupt exit or scheduler call ends it.
* A task that names itself in a suspension is promised to stop running. With the scheduler locked it runs on, suspended
  and not ready; `Rules.SelfSuspension` says exactly when, and `Witnesses.SuspensionUnderLock` that it happens.
* `OSTimeDlyHMSM` promises the nearest tick. It delivers it at 200 ticks a second, not at every rate;
  `DelayTime.AlwaysNearest` says at which.
* Raising the owner to the ceiling is meant to bound priority inversion. Without the rule that the ceiling is more
  urgent than the competitors it does not; `Ceiling.LockBoundIsExact` says when it does.

## Model

| member | source | states |
|---|---|---|
| `PrioBitmap.UnMapIsLowest` | QH_UCOSII+LWIP1.4/lora_network_platform/ucosII/Source/os_core.c:40-57 | for every non-zero byte the table entry is the number of its lowest set bit |
| `PrioBitmap.InsertAt` | QH_UCOSII+LWIP1.4/lora_network_platform/ucosII/Source/os_core.c:1136-1137 | setting the two cached bits of a priority adds exactly that priority to the set a two-level bitmap stands for, and keeps the group byte exact |
| `PrioBitmap.RemoveAt` | QH_UCOSII+LWIP1.4/lora_network_platform/ucosII/Source/os_core.c:1213-1217 | clearing the row bit, and the group bit when the row became empty, removes exactly that priority and keeps the group byte exact |
| `PrioBitmap.EmptyGroup` | QH_UCOSII+LWIP1.4/lora_network_platform/ucosII/Source/os_core.c:1213-1217 | the group byte is zero if and only if the set is empty |
| `PrioBitmap.LookupIsLeast` | QH_UCOSII+LWIP1.4/lora_network_platform/ucosII/Source/os_core.c:1711-1718 | for every non-empty set the two table lookups give its least priority, with 64 priorities |
| `PrioBitmap.CoordinatesAreABijection` | QH_UCOSII+LWIP1.4/lora_network_platform/ucosII/Source/os_core.c:2016-2025 | two priorities have the same row and column bits if and only if they are equal |
| `PrioBitmap.UnMap16IsLowest` | QH_UCOSII+LWIP1.4/lora_network_platform/ucosII/Source/os_core.c:1724-1728 | with 16-bit words, low byte first, the lookup finds the lowest set bit of every non-zero word |
| `PrioBitmap.Lookup16IsLeast` | QH_UCOSII+LWIP1.4/lora_network_platform/ucosII/Source/os_core.c:1719-1735 | for every non-empty set the lookup gives its least priority, with 256 priorities |
| `Primitives.SchedKeeps` | QH_UCOSII+LWIP1.4/lora_network_platform/ucosII/Source/os_core.c:1662-1692 | a scheduler call re-establishes the invariant after the running task stopped being ready, leaves the most urgent ready task running, and changes nothing but who runs |
| `Primitives.BlockKeeps` | QH_UCOSII+LWIP1.4/lora_network_platform/ucosII/Source/os_core.c:1130-1145 | putting the running task on a wait list keeps every invariant but the identity of the running task, which the scheduler then repairs |
| `Primitives.WakeKeeps` | QH_UCOSII+LWIP1.4/lora_network_platform/ucosII/Source/os_core.c:1055-1112 | waking the most urgent waiter finds a live task at the looked-up priority and keeps the whole invariant, also for suspended and for timed-out tasks |
| `Primitives.WakeAllKeeps` | QH_UCOSII+LWIP1.4/lora_network_platform/ucosII/Source/os_mbox.c:578-584 | a broadcast loop ends with an empty wait list, keeps the invariant, and leaves what the event holds |
| `Primitives.WakeAllIsSimultaneous` | QH_UCOSII+LWIP1.4/lora_network_platform/ucosII/Source/os_mbox.c:578-584 | waking one by one, most urgent first, equals giving every waiter the same message and outcome at once and touching nobody else |
| `Primitives.WaitersMatch` | QH_UCOSII+LWIP1.4/lora_network_platform/ucosII/Source/os_core.c:1130-1137 | the priorities in a wait list are exactly those of the live tasks whose event pointer is the event |
| `EventServices.PendKeeps` | QH_UCOSII+LWIP1.4/lora_network_platform/ucosII/Source/os_sem.c:319-345 | every branch of a pend keeps the invariant and the optimal schedule, and a pend that blocks leaves the most urgent ready task running |
| `EventServices.PendFinishKeeps` | QH_UCOSII+LWIP1.4/lora_network_platform/ucosII/Source/os_sem.c:346-368 | the code after the scheduler call keeps the invariant for each of the three outcomes, also when the task is still on the wait list |
| `EventServices.PostKeeps` | QH_UCOSII+LWIP1.4/lora_network_platform/ucosII/Source/os_mbox.c:573-602 | a post keeps the invariant, and keeps the schedule optimal unless it woke somebody and asked for no scheduling |
| `EventServices.AcceptKeeps` | QH_UCOSII+LWIP1.4/lora_network_platform/ucosII/Source/os_q.c:87-106 | an accept keeps the invariant and the schedule; `EventAnswers.AcceptAnswer` says what it returns |
| `EventServices.AbortKeeps` | QH_UCOSII+LWIP1.4/lora_network_platform/ucosII/Source/os_sem.c:431-458 | aborting one wait or all of them keeps the invariant and the schedule |
| `EventServices.SemSetKeeps` | QH_UCOSII+LWIP1.4/lora_network_platform/ucosII/Source/os_sem.c:617-635 | setting a count keeps the rule that a positive count has no waiters |
| `EventServices.CreateKeeps` | QH_UCOSII+LWIP1.4/lora_network_platform/ucosII/Source/os_q.c:149-183 | creation takes a block from the free list, or puts it back when no queue block is left, and keeps the invariant |
| `EventServices.DeleteKeeps` | QH_UCOSII+LWIP1.4/lora_network_platform/ucosII/Source/os_sem.c:198-261 | deletion keeps the invariant, also with timed-out waiters, and the block goes back without waiters |
| `MutexServices.RaiseKeeps` | QH_UCOSII+LWIP1.4/lora_network_platform/ucosII/Source/os_mutex.c:498-544 | raising the owner keeps ready list, priority table, wait lists and cached priorities in agreement; the owner waits for nothing |
| `MutexServices.MutexPendKeeps` | QH_UCOSII+LWIP1.4/lora_network_platform/ucosII/Source/os_mutex.c:461-575 | every branch of a mutex pend keeps the invariant and the optimal schedule |
| `MutexServices.MutexAcceptKeeps` | QH_UCOSII+LWIP1.4/lora_network_platform/ucosII/Source/os_mutex.c:106-136 | an accept keeps the invariant and the schedule |
| `MutexServices.UnraiseKeeps` | QH_UCOSII+LWIP1.4/lora_network_platform/ucosII/Source/os_mutex.c:629-634 | the posting owner returns to the priority in the lower byte, events are untouched, and the invariant holds; for an owner that was not raised nothing changes |
| `MutexServices.HandOverKeeps` | QH_UCOSII+LWIP1.4/lora_network_platform/ucosII/Source/os_mutex.c:635-641 | making the most urgent waiter the owner keeps the invariant |
| `MutexServices.MutexPostKeeps` | QH_UCOSII+LWIP1.4/lora_network_platform/ucosII/Source/os_mutex.c:601-656 | every branch of a post keeps the invariant, and keeps the schedule optimal unless it demotes its caller with nobody waiting |
| `MutexServices.MutexCreateKeeps` | QH_UCOSII+LWIP1.4/lora_network_platform/ucosII/Source/os_mutex.c:204-244 | creation reserves the ceiling slot together with the block, or does neither |
| `MutexServices.MutexDeleteKeeps` | QH_UCOSII+LWIP1.4/lora_network_platform/ucosII/Source/os_mutex.c:316-394 | deletion of an unowned mutex keeps the invariant and frees the ceiling slot |
| `TaskServices.TaskCreateKeeps` | QH_UCOSII+LWIP1.4/lora_network_platform/ucosII/Source/os_task.c:230-260 | creation keeps the invariant and the optimal schedule |
| `TaskServices.TaskDelKeeps` | QH_UCOSII+LWIP1.4/lora_network_platform/ucosII/Source/os_task.c:445-538 | deletion of a task, ready, delayed, pending, timed out or suspended, keeps the invariant and the optimal schedule |
| `TaskServices.MoveToFree` | QH_UCOSII+LWIP1.4/lora_network_platform/ucosII/Source/os_task.c:519-529 | unlinking a task that is not the last cuts it out of the list, keeps the others in order with the same one last, and puts it in front of the free list without repetition |
| `TaskServices.TaskSuspendKeeps` | QH_UCOSII+LWIP1.4/lora_network_platform/ucosII/Source/os_task.c:985-1014 | suspension keeps the invariant and the optimal schedule; `TaskAnswers.SuspendAnswer` says what it changes |
| `TaskServices.TaskResumeKeeps` | QH_UCOSII+LWIP1.4/lora_network_platform/ucosII/Source/os_task.c:826-856 | resumption keeps the invariant and the optimal schedule |
| `TaskServices.TaskResumeReadies` | QH_UCOSII+LWIP1.4/lora_network_platform/ucosII/Source/os_task.c:836-851 | a resumption succeeds exactly for a suspended task, which becomes ready exactly when nothing else holds it up |
| `TaskServices.TimeDlyKeeps` | QH_UCOSII+LWIP1.4/lora_network_platform/ucosII/Source/os_time.c:46-72 | a delay keeps the invariant and the optimal schedule |
| `TaskServices.TickKeeps` | QH_UCOSII+LWIP1.4/lora_network_platform/ucosII/Source/os_core.c:960-985 | one clock tick over all tasks keeps the invariant |
| `TaskServices.ChangePrioKeeps` | QH_UCOSII+LWIP1.4/lora_network_platform/ucosII/Source/os_task.c:81-165 | a change of priority keeps the invariant and the schedule, also for suspended, delayed and timed-out but still listed tasks |
| `TaskAnswers.CreateTaskAnswer` | QH_UCOSII+LWIP1.4/lora_network_platform/ucosII/Source/os_task.c:211-260 | the error code in each case; otherwise the first free control block has a fresh record at the priority, its slot, its ready bit and the front of the task list, and nothing else changes |
| `TaskAnswers.DeleteTaskAnswer` | QH_UCOSII+LWIP1.4/lora_network_platform/ucosII/Source/os_task.c:435-538 | the error code in each case; otherwise the task leaves ready list, wait lists, priority table and task list, its block is the first free one, and nothing else changes |
| `TaskAnswers.SuspendAnswer` | QH_UCOSII+LWIP1.4/lora_network_platform/ucosII/Source/os_task.c:964-1014 | the error code in each case; otherwise the named task, whoever it is, has the suspend bit beside its others and is not ready, every other task, every event and every table is unchanged, and the scheduler is called for the running task alone |
| `TaskAnswers.ResumeAnswer` | QH_UCOSII+LWIP1.4/lora_network_platform/ucosII/Source/os_task.c:812-856 | the error code in each case; otherwise the named task loses the suspend bit alone, is ready if and only if nothing else holds it up, and nothing else changes |
| `TaskAnswers.ChangeAnswer` | QH_UCOSII+LWIP1.4/lora_network_platform/ucosII/Source/os_task.c:53-165 | the error code in each case; otherwise record, slot, ready bit and wait bit of the named task move to the new priority, and nothing else changes |
| `TaskAnswers.DelayAnswer` | QH_UCOSII+LWIP1.4/lora_network_platform/ucosII/Source/os_time.c:46-72 | the caller counts the ticks and is not ready, and nothing else changes; no ticks, an interrupt or the lock: nothing at all |
| `TaskAnswers.DelayTimeAnswer` | QH_UCOSII+LWIP1.4/lora_network_platform/ucosII/Source/os_time.c:101-141 | at 200 ticks a second the caller counts the requested hours, minutes, seconds and milliseconds, to the nearest tick of five milliseconds |
| `TaskAnswers.TickAnswer` | QH_UCOSII+LWIP1.4/lora_network_platform/ucosII/Source/os_core.c:960-983 | what one tick makes of the record and the ready bit of any live task: not counting, counting on, timed out of a wait, or at the end of a delay |
| `Scheduling.IntExitKeeps` | QH_UCOSII+LWIP1.4/lora_network_platform/ucosII/Source/os_core.c:683-718 | leaving the last interrupt with the scheduler unlocked leaves the most urgent ready task running, whatever the interrupt did; `TaskAnswers.InterruptAnswers` says what every exit changes |
| `Scheduling.SchedUnlockKeeps` | QH_UCOSII+LWIP1.4/lora_network_platform/ucosII/Source/os_core.c:800-826 | releasing the last lock restores the optimal schedule; `TaskAnswers.LockAnswers` says what every release changes |
| `Scheduling.StartKeeps` | QH_UCOSII+LWIP1.4/lora_network_platform/ucosII/Source/os_core.c:850-859 | the first task to run is the most urgent ready one |
| `TaskAnswers.InterruptAnswers` | QH_UCOSII+LWIP1.4/lora_network_platform/ucosII/Source/os_core.c:653-718 | an entry adds one to the nesting up to 255 and changes nothing else; an exit takes one away, changes nothing else above the last level, and at the last level only who runs |
| `TaskAnswers.LockAnswers` | QH_UCOSII+LWIP1.4/lora_network_platform/ucosII/Source/os_core.c:763-826 | a lock by a task adds one up to 255 and a release takes one away, nothing else, and the last release only who runs |
| `TaskAnswers.AnswersBeforeStart` | QH_UCOSII+LWIP1.4/lora_network_platform/ucosII/Source/os_core.c:850-859 | before multitasking starts, entries, exits, locks, releases and ticks change nothing, and the start runs the most urgent ready task |
| `EventAnswers.AcceptAnswer` | QH_UCOSII+LWIP1.4/lora_network_platform/ucosII/Source/os_q.c:63-107 | an accept returns a semaphore's count before the call, a mailbox's message or a queue's first one, and takes it, or returns 0 when nothing is there; nothing else changes |
| `EventAnswers.PendAnswer` | QH_UCOSII+LWIP1.4/lora_network_platform/ucosII/Source/os_q.c:405-460 | a pend that does not block returns what an accept returns and takes it; one that blocks records the wait in the task, the ready list and the wait list and nowhere else; and the error code in each other case |
| `EventAnswers.FinishAnswer` | QH_UCOSII+LWIP1.4/lora_network_platform/ucosII/Source/os_q.c:461-490 | a pend that waited returns success with the message it was given, an abort or a timeout with none, and after a timeout alone leaves the wait list |
| `EventAnswers.PostAnswer` | QH_UCOSII+LWIP1.4/lora_network_platform/ucosII/Source/os_q.c:738-794 | with nobody waiting a post adds one to the count, fills the mailbox, or puts the message at the named end of the queue, and is refused with the right code exactly at 65535, when the mailbox is full, or at the queue's size; otherwise the most urgent waiter, or every one, gets the message, is ready unless suspended, and nobody else changes |
| `EventAnswers.AbortAnswer` | QH_UCOSII+LWIP1.4/lora_network_platform/ucosII/Source/os_sem.c:405-458 | the most urgent waiter, or every one, is told of the abort and leaves the wait list, nobody else changes, and their number is returned |
| `EventAnswers.SetAnswer` | QH_UCOSII+LWIP1.4/lora_network_platform/ucosII/Source/os_sem.c:596-635 | the count becomes the given one, or with tasks waiting stays and an error is reported |
| `EventAnswers.CreateAnswer` | QH_UCOSII+LWIP1.4/lora_network_platform/ucosII/Source/os_q.c:126-183 | a new event is the first free block, holds what its creator gave it, without waiters, and uses a queue block if it is a queue; or none is left and nothing changes |
| `EventAnswers.DeleteAnswer` | QH_UCOSII+LWIP1.4/lora_network_platform/ucosII/Source/os_q.c:225-321 | the error code in each case; otherwise the block is unused, without waiters and the first free one, a queue's block is returned, and every waiter is told of an abort |
| `MutexAnswers.TryAnswer` | QH_UCOSII+LWIP1.4/lora_network_platform/ucosII/Source/os_mutex.c:86-136 | an unowned mutex becomes the caller's, with its priority remembered, and an owned one is left alone; the answer says which, and warns exactly when the ceiling is not more urgent than the caller |
| `MutexAnswers.LockAnswer` | QH_UCOSII+LWIP1.4/lora_network_platform/ucosII/Source/os_mutex.c:438-575 | an unowned mutex becomes the caller's; otherwise the caller waits, and the owner moves to the ceiling with slot and ready bit exactly when it runs below it and is by itself less urgent than the caller; nothing else changes |
| `MutexAnswers.UnlockAnswer` | QH_UCOSII+LWIP1.4/lora_network_platform/ucosII/Source/os_mutex.c:601-656 | the error code in each case; otherwise the caller is back at its own priority in record, table and ready list, the ceiling is reserved, and the most urgent waiter owns the mutex, or nobody; nothing else changes |
| `MutexAnswers.CreateMutexAnswer` | QH_UCOSII+LWIP1.4/lora_network_platform/ucosII/Source/os_mutex.c:177-244 | the error code in each case; otherwise the first free block is an unowned mutex and the slot of its ceiling is reserved |
| `MutexAnswers.DeleteMutexAnswer` | QH_UCOSII+LWIP1.4/lora_network_platform/ucosII/Source/os_mutex.c:288-394 | the error code in each case; otherwise the block is the first free one and the slot of the ceiling is vacant |
| `Runs.StepKeeps` | QH_UCOSII+LWIP1.4/lora_network_platform/ucosII/Source/os_core.c:683-718 | every legal step keeps the invariant; on a processor that runs tasks with the scheduler unlocked every step but three kinds keeps the schedule optimal, in an interrupt or under the lock every step does; the end of an interrupt makes it optimal |
| `Runs.InitKeeps` | QH_UCOSII+LWIP1.4/lora_network_platform/ucosII/Source/os_core.c:575-628 | the state after initialisation satisfies the invariant |
| `Runs.ReachableKeeps` | QH_UCOSII+LWIP1.4/lora_network_platform/ucosII/Source/os_core.c:575-628 | every state of every legal run satisfies the invariant |
| `Runs.RunsExtend` | QH_UCOSII+LWIP1.4/lora_network_platform/ucosII/Source/os_core.c:1662-1692 | a run followed by a legal step is a run, and its final state is that step's result |
| `Gaps.StepCloses` | QH_UCOSII+LWIP1.4/lora_network_platform/ucosII/Source/os_core.c:1662-1692 | every interrupt exit, and every service that reaches its scheduler call, leaves the most urgent ready task running, whatever was the case before |
| `Gaps.GapIsExact` | QH_UCOSII+LWIP1.4/lora_network_platform/ucosII/Source/os_core.c:1662-1692 | from an optimal schedule a step leads to one that is not if and only if it makes a more urgent task ready, or its caller less urgent than a ready task, without calling the scheduler: a tick counted by a task, a post that asks for no scheduling, or a mutex post that demotes its caller with nobody waiting |
| `Gaps.ScheduleIsOptimal` | QH_UCOSII+LWIP1.4/lora_network_platform/ucosII/Source/os_core.c:1662-1692 | in every legal run, wherever no gap is open, the running task is the most urgent ready one at every quiescent point; only those steps open a gap, and every interrupt exit and scheduler call closes it |
| `Gaps.ReachableScheduleIsOptimal` | QH_UCOSII+LWIP1.4/lora_network_platform/ucosII/Source/os_core.c:1662-1692 | in every legal run from initialisation, wherever no gap is open, the running task is the most urgent ready one at every quiescent point |
| `Reachable.ReadyIffRunnable` | QH_UCOSII+LWIP1.4/lora_network_platform/ucosII/Source/os_core.c:961-983 | in every reachable state a live task is ready if and only if its status byte and its delay are zero |
| `Reachable.WaitBitIffPointer` | QH_UCOSII+LWIP1.4/lora_network_platform/ucosII/Source/os_core.c:1207-1219 | in every reachable state a task's bit is in a wait list if and only if its event pointer is that event, and then it is pending, or timed out and not yet resumed |
| `Reachable.NoDanglingWaits` | QH_UCOSII+LWIP1.4/lora_network_platform/ucosII/Source/os_sem.c:233-251 | in every reachable state no live task waits on, points to or owns a free event control block |
| `Reachable.NobodyWaitsForAvailable` | QH_UCOSII+LWIP1.4/lora_network_platform/ucosII/Source/os_sem.c:332-336 | in every reachable state a positive count, a full mailbox or a non-empty queue has no waiters, and counts and queues respect their bounds |
| `Reachable.MutexStates` | QH_UCOSII+LWIP1.4/lora_network_platform/ucosII/Source/os_mutex.c:481-495 | in every reachable state the lower byte of a mutex is 0xFF if and only if it has no owner, and then nobody waits; an owner runs at its own priority or at the ceiling |
| `Reachable.SlotStates` | QH_UCOSII+LWIP1.4/lora_network_platform/ucosII/Source/os_mutex.c:213-241 | in every reachable state a priority slot is empty, reserved, its own task's, or the original slot of exactly one raised owner |
| `Reachable.ListsPartition` | QH_UCOSII+LWIP1.4/lora_network_platform/ucosII/Source/os_core.c:1554-1580 | in every reachable state the task list and the free list partition the task table, and the idle task is last |
| `Histories.StepMode` | QH_UCOSII+LWIP1.4/lora_network_platform/ucosII/Source/os_core.c:653-826 | entries and exits alone move the nesting, locks and releases alone the lock, by one, beside a deletion under a saturated lock; a step that ends in an interrupt or under the lock does not change who runs |
| `Histories.NestingCounts` | QH_UCOSII+LWIP1.4/lora_network_platform/ucosII/Source/os_core.c:653-718 | over any run the nesting is what it was, plus the entries, less the exits, below saturation |
| `Histories.LockCounts` | QH_UCOSII+LWIP1.4/lora_network_platform/ucosII/Source/os_core.c:763-826 | over any run the lock is what it was, plus the locks that tasks called, less the releases, below saturation |
| `Histories.RunnerStays` | QH_UCOSII+LWIP1.4/lora_network_platform/ucosII/Source/os_core.c:653-718 | from the entry of an interrupt to the matching exit, however deep others nest in between and whatever they do, and from a lock to the matching release, the running task stays the same |
| `Histories.LifeHistory` | QH_UCOSII+LWIP1.4/lora_network_platform/ucosII/Source/os_task.c:445-538 | over any run a control block is a live task's if and only if the last call that created or deleted its task created it |
| `Histories.StepSuspension` | QH_UCOSII+LWIP1.4/lora_network_platform/ucosII/Source/os_task.c:812-1014 | a suspension that names a task sets its suspend bit, a resumption that names it clears it, and no other step touches it |
| `Histories.SuspensionHistory` | QH_UCOSII+LWIP1.4/lora_network_platform/ucosII/Source/os_task.c:812-1014 | over any run a task is suspended if and only if the last call that suspended or resumed it was a suspension, and then it is not ready, whatever else happened to it |
| `Histories.SuspendedUntilResumed` | QH_UCOSII+LWIP1.4/lora_network_platform/ucosII/Source/os_task.c:964-1014 | a task that is suspended, by itself or another, stays suspended and not ready over any run in which it is neither resumed nor deleted |
| `Histories.StepOwnPrio` | QH_UCOSII+LWIP1.4/lora_network_platform/ucosII/Source/os_task.c:81-165 | a task's own priority, which a mutex remembers while the task owns it, changes with a change of priority that names the task and with no other step |
| `Histories.OwnPriorityHistory` | QH_UCOSII+LWIP1.4/lora_network_platform/ucosII/Source/os_mutex.c:438-656 | over any run, whatever mutexes a task takes, is raised by and posts, its own priority is the one it was last given, and whenever it owns no mutex it runs at that priority |
| `Ceiling.StepKeepsBound` | QH_UCOSII+LWIP1.4/lora_network_platform/ucosII/Source/os_mutex.c:498-549 | every disciplined step keeps: no waiter of a mutex with a ceiling is more urgent than its owner |
| `Ceiling.InversionIsBounded` | QH_UCOSII+LWIP1.4/lora_network_platform/ucosII/Source/os_mutex.c:498-549 | in every state of a disciplined run the owner of a mutex with a ceiling is at least as urgent as every task waiting for it |
| `Ceiling.ReachableInversionIsBounded` | QH_UCOSII+LWIP1.4/lora_network_platform/ucosII/Source/os_mutex.c:498-549 | in every disciplined run from initialisation the owner of a mutex with a ceiling is at least as urgent as every task waiting for it |
| `Ceiling.LockBoundIsExact` | QH_UCOSII+LWIP1.4/lora_network_platform/ucosII/Source/os_mutex.c:498-549 | after a pend that blocks, its caller is on the wait list and no more urgent than the owner if and only if the owner already was as urgent or the ceiling is |
| `Ceiling.RaiseThenRestore` | QH_UCOSII+LWIP1.4/lora_network_platform/ucosII/Source/os_mutex.c:737-762 | raising a ready owner and restoring it with nothing in between gives back ready list, priority table and priority exactly |
| `Ceiling.UnlockMovesOwner` | QH_UCOSII+LWIP1.4/lora_network_platform/ucosII/Source/os_mutex.c:622-655 | a post restores its caller's priority and slot and the reserved ceiling, gives the mutex to the most urgent waiter or to nobody, and touches no other event |
| `Ceiling.OwnershipHistory` | QH_UCOSII+LWIP1.4/lora_network_platform/ucosII/Source/os_mutex.c:481-488 | between creation and deletion a mutex keeps its ceiling, gains an owner only when it has none and loses it only when that owner posts |
| `Ceiling.OwnerKeepsMutex` | QH_UCOSII+LWIP1.4/lora_network_platform/ucosII/Source/os_mutex.c:481-488 | over any run in which the owner does not post it, a mutex keeps owner, ceiling and the owner's original priority |
| `Ceiling.LockThenUnlock` | QH_UCOSII+LWIP1.4/lora_network_platform/ucosII/Source/os_mutex.c:622-655 | a task that takes a mutex by a pend or an accept, is raised any number of times in any run, and posts it, is back at the priority at which it took it, in its record and in the priority table, with the ceiling reserved |
| `PendPhases.StepPhases` | QH_UCOSII+LWIP1.4/lora_network_platform/ucosII/Source/os_core.c:1088-1103 | every step moves every surviving task along the listed transitions of a pend, and along no other |
| `PendPhases.ServedStays` | QH_UCOSII+LWIP1.4/lora_network_platform/ucosII/Source/os_core.c:1088-1103 | once a post or an abort has reached a pend, no tick, post or abort changes its outcome before the task runs |
| `PendPhases.StepServes` | QH_UCOSII+LWIP1.4/lora_network_platform/ucosII/Source/os_core.c:1055-1112 | a step grants a waiting pend a message if and only if it is a post of that message to its event and the task is the most urgent waiter or all are served, also when its time is already up; and aborts it if and only if it is an abort or deletion that reaches it |
| `PendPhases.PendOutcome` | QH_UCOSII+LWIP1.4/lora_network_platform/ucosII/Source/os_sem.c:346-363 | any number of steps later a pend is unserved, granted a message if and only if some post of that message chose it, or aborted if and only if its wait was cut off |
| `PendPhases.PendReturns` | QH_UCOSII+LWIP1.4/lora_network_platform/ucosII/Source/os_sem.c:346-368 | a pend that blocks returns, after any run, exactly one of success, abort and timeout: success if and only if a poster chose it, with that poster's message, and abort if and only if its wait was cut off |
| `Conservation.StepBalance` | QH_UCOSII+LWIP1.4/lora_network_platform/ucosII/Source/os_q.c:624-642 | what is held and on its way after a step, plus what its caller receives by error code and value returned, is what was held and on its way before, plus what was accepted |
| `Conservation.ItemsAreConserved` | QH_UCOSII+LWIP1.4/lora_network_platform/ucosII/Source/os_q.c:447-490 | over any run that spares the event, everything that callers of pends and accepts received, by the values returned, or that is still held or on its way is, counting multiplicity, what was there at the start and what posts were told was accepted |
| `Conservation.TokensAreConserved` | QH_UCOSII+LWIP1.4/lora_network_platform/ucosII/Source/os_sem.c:332-342 | for a semaphore, count, tokens on their way and pends and accepts that returned a token add up to the initial count and the accepted posts |
| `Fifo.StepInOrder` | QH_UCOSII+LWIP1.4/lora_network_platform/ucosII/Source/os_q.c:624-642 | a call that puts nothing in front takes out, by the value it returns, what was first, and puts in at the back |
| `Fifo.FirstInFirstOut` | QH_UCOSII+LWIP1.4/lora_network_platform/ucosII/Source/os_q.c:624-642 | over any run with posts to the back alone, the messages that callers received, in order, followed by those still there, are those that were there followed by those accepted, in order |
| `Fifo.StepReplays` | QH_UCOSII+LWIP1.4/lora_network_platform/ucosII/Source/os_q.c:695-706 | what a call does to a queue that nobody waits for is what the same call, read off its reply, does to a double-ended queue |
| `Fifo.QueueIsDeque` | QH_UCOSII+LWIP1.4/lora_network_platform/ucosII/Source/os_q.c:666-707 | over any run with posts to both ends, every message that a caller receives is the first of those an ideal double-ended queue would hold, and what is left is what it would hold |
| `Delays.StepDelay` | QH_UCOSII+LWIP1.4/lora_network_platform/ucosII/Source/os_core.c:964-979 | only the tick counts a delay or a timeout down, by one; with the last tick a delay is over and a pend has timed out, and the task is ready unless suspended |
| `Delays.CountsUntilThen` | QH_UCOSII+LWIP1.4/lora_network_platform/ucosII/Source/os_core.c:964-979 | during any run with fewer ticks than remain in which nobody ends the wait, the count goes on with the difference to go and the task is not ready |
| `Delays.DelayIsExact` | QH_UCOSII+LWIP1.4/lora_network_platform/ucosII/Source/os_time.c:61-71 | the caller of a delay of n ticks is not ready before the n-th later tick, and on it becomes ready unless it is suspended at that moment |
| `Delays.TimeoutIsExact` | QH_UCOSII+LWIP1.4/lora_network_platform/ucosII/Source/os_sem.c:339-345 | a pend that blocks with timeout n and that nobody serves waits until the n-th later tick, and on it has timed out and is ready unless suspended |
| `Delays.RequestedTimeIsKept` | QH_UCOSII+LWIP1.4/lora_network_platform/ucosII/Source/os_time.c:101-141 | the caller of a delay in hours, minutes, seconds and milliseconds is not ready while the ticks fall more than two milliseconds short of the requested time, and the tick that makes it ready, unless it is suspended, comes within two milliseconds of it |
| `Rules.ChangePrioIsRenaming` | QH_UCOSII+LWIP1.4/lora_network_platform/ucosII/Source/os_task.c:86-164 | a change of priority succeeds if and only if the target is free and a task is named; then every other task keeps everything and the priority table is renamed |
| `Rules.RenameIsImage` | QH_UCOSII+LWIP1.4/lora_network_platform/ucosII/Source/os_task.c:122-137 | the ready set and every wait set become their images under old -> new |
| `Rules.RenameThereAndBack` | QH_UCOSII+LWIP1.4/lora_network_platform/ucosII/Source/os_task.c:118-159 | changing a priority and changing it back restores the kernel's data |
| `Rules.RaiseCarriesWaitBit` | QH_UCOSII+LWIP1.4/lora_network_platform/ucosII/Source/os_mutex.c:503-520 | raising an owner that waits for an event keeps wait lists and tasks in agreement if and only if the owner is not in the ready list |
| `Rules.TwoChangesInInterrupt` | QH_UCOSII+LWIP1.4/lora_network_platform/ucosII/Source/os_task.c:160-163 | two changes of priority in one interrupt can leave the running task's recorded priority naming another task, so that the exit does not switch |
| `Rules.SwitchIsRightUnlessStale` | QH_UCOSII+LWIP1.4/lora_network_platform/ucosII/Source/os_core.c:1670-1688 | a scheduler call runs the most urgent ready task if and only if the recorded current priority is not that of another task |
| `Rules.SelfSuspension` | QH_UCOSII+LWIP1.4/lora_network_platform/ucosII/Source/os_task.c:987-1012 | a task that suspends itself stops running if and only if the scheduler is unlocked and, outside interrupts, it names itself by its current priority |
| `Rules.SelfChange` | QH_UCOSII+LWIP1.4/lora_network_platform/ucosII/Source/os_task.c:160-163 | a change of the running task's own priority keeps the recorded priority right if and only if the scheduler can act at once |
| `Rules.SelfDeletion` | QH_UCOSII+LWIP1.4/lora_network_platform/ucosII/Source/os_task.c:533-536 | a task that deletes itself stops running if and only if the scheduler is unlocked |
| `Rules.DeletionKeepsLock` | QH_UCOSII+LWIP1.4/lora_network_platform/ucosII/Source/os_task.c:491-502 | a deletion leaves the scheduler lock as it was if and only if the lock is below 255; a saturated lock is released once |
| `Rules.PostMakesReady` | QH_UCOSII+LWIP1.4/lora_network_platform/ucosII/Source/os_mutex.c:622-655 | a post leaves its caller's ready bit and slot in agreement with its status if and only if the caller was not raised, or is neither suspended nor delayed; a raised caller is made ready in any case |
| `Rules.DemotionGapIsExact` | QH_UCOSII+LWIP1.4/lora_network_platform/ucosII/Source/os_mutex.c:652-655 | after a post that demotes its caller with nobody waiting the schedule is optimal if and only if no other ready task is more urgent than the restored priority; the next interrupt exit repairs it |
| `Witnesses.DemotionGapHappens` | QH_UCOSII+LWIP1.4/lora_network_platform/ucosII/Source/os_mutex.c:652-655 | a legal run from initialisation reaches a state in which a mutex post leaves a less urgent task running |
| `Witnesses.SelfSuspensionHappens` | QH_UCOSII+LWIP1.4/lora_network_platform/ucosII/Source/os_task.c:987-1012 | a legal run reaches a raised owner that, suspending itself by its original priority, runs on though suspended and not ready |
| `Witnesses.SuspensionUnderLock` | QH_UCOSII+LWIP1.4/lora_network_platform/ucosII/Source/os_task.c:987-1012 | a legal run reaches a task that, suspending itself under the scheduler lock, runs on though suspended and not ready |
| `Witnesses.ChangeUnderLock` | QH_UCOSII+LWIP1.4/lora_network_platform/ucosII/Source/os_task.c:160-163 | a legal run reaches a task that, changing its priority under the lock, runs on with a stale record of it |
| `Witnesses.DeletionUnderLock` | QH_UCOSII+LWIP1.4/lora_network_platform/ucosII/Source/os_task.c:533-536 | a legal run reaches a task that, deleting itself under the lock, runs on though dead |
| `Witnesses.PostOfSuspended` | QH_UCOSII+LWIP1.4/lora_network_platform/ucosII/Source/os_mutex.c:622-655 | a raised owner that suspended itself under the lock and then posts the mutex is ready though suspended |
| `Witnesses.StaleBit` | QH_UCOSII+LWIP1.4/lora_network_platform/ucosII/Source/os_mutex.c:503-520 | an owner that pended on a semaphore and timed out leaves its old bit in the wait list when it is raised |
| `Witnesses.TwoChangesHappen` | QH_UCOSII+LWIP1.4/lora_network_platform/ucosII/Source/os_task.c:160-163 | a legal run reaches an interrupt in which two changes of priority make the exit return to the less urgent task |
| `Witnesses.SaturatedLockIsReleased` | QH_UCOSII+LWIP1.4/lora_network_platform/ucosII/Source/os_task.c:491-502 | a legal run reaches a scheduler lock of 255, and a deletion leaves 254 |
| `Witnesses.LowCeilingInverts` | QH_UCOSII+LWIP1.4/lora_network_platform/ucosII/Source/os_mutex.c:498-549 | a legal run with a ceiling below a competitor reaches a state in which a waiter is more urgent than the raised owner |
| `KernelRep.SetInsert` | QH_UCOSII+LWIP1.4/lora_network_platform/ucosII/Source/os_core.c:1136-1137 | the two stores with a task's cached bits add its priority to the set |
| `KernelRep.SetRemove` | QH_UCOSII+LWIP1.4/lora_network_platform/ucosII/Source/os_core.c:1213-1217 | the stores that clear a task's bits remove its priority from the set |
| `KernelRep.LinkIn` | QH_UCOSII+LWIP1.4/lora_network_platform/ucosII/Source/os_core.c:2076-2083 | linking a control block from the free list in front of the task list yields two well-formed lists |
| `KernelRep.UnlinkLists` | QH_UCOSII+LWIP1.4/lora_network_platform/ucosII/Source/os_task.c:519-529 | unlinking a control block that is not the last never follows a null pointer and yields two well-formed lists |
| `KernelRep.PoolTake` | QH_UCOSII+LWIP1.4/lora_network_platform/ucosII/Source/os_sem.c:118-121 | taking the first free event block leaves a well-formed free list |
| `KernelRep.PoolGive` | QH_UCOSII+LWIP1.4/lora_network_platform/ucosII/Source/os_sem.c:245-247 | returning an event block to the front leaves a well-formed free list |
| `ServiceCases.TickSomeIsTick` | QH_UCOSII+LWIP1.4/lora_network_platform/ucosII/Source/os_core.c:961-983 | visiting the list up to the idle task updates every other live task exactly once |
| `Kernel.Kernel.constructor` | QH_UCOSII+LWIP1.4/lora_network_platform/ucosII/Source/os_core.c:575-628 | initialisation establishes the coupling and leaves the idle task alone and ready |
| `Kernel.Kernel.InitTcbList` | QH_UCOSII+LWIP1.4/lora_network_platform/ucosII/Source/os_core.c:1554-1580 | the loop links all task control blocks into the free list |
| `Kernel.Kernel.InitEventList` | QH_UCOSII+LWIP1.4/lora_network_platform/ucosII/Source/os_core.c:1303-1340 | the loop links all event control blocks into the free list |
| `Kernel.Kernel.InitRdyList` | QH_UCOSII+LWIP1.4/lora_network_platform/ucosII/Source/os_core.c:1399-1414 | the ready list stands for the empty set |
| `Kernel.Kernel.WaitListInit` | QH_UCOSII+LWIP1.4/lora_network_platform/ucosII/Source/os_core.c:1278-1287 | the wait list stands for the empty set, the rest of the block is kept |
| `Kernel.Kernel.TakeEvent` | QH_UCOSII+LWIP1.4/lora_network_platform/ucosII/Source/os_sem.c:117-130 | a new event is the first free block, without waiters |
| `Kernel.Kernel.GiveEvent` | QH_UCOSII+LWIP1.4/lora_network_platform/ucosII/Source/os_sem.c:244-248 | a deleted event is the new head of the free list |
| `Kernel.Kernel.SchedNew` | QH_UCOSII+LWIP1.4/lora_network_platform/ucosII/Source/os_core.c:1711-1718 | computes the least ready priority from the bitmaps |
| `Kernel.Kernel.Sched` | QH_UCOSII+LWIP1.4/lora_network_platform/ucosII/Source/os_core.c:1662-1692 | in place, the scheduler call of the model |
| `Kernel.Kernel.IntEnter` | QH_UCOSII+LWIP1.4/lora_network_platform/ucosII/Source/os_core.c:655-662 | in place, interrupt entry of the model |
| `Kernel.Kernel.IntExit` | QH_UCOSII+LWIP1.4/lora_network_platform/ucosII/Source/os_core.c:683-718 | in place, interrupt exit: one level less, and at the last level the switch |
| `Kernel.Kernel.SchedLock` | QH_UCOSII+LWIP1.4/lora_network_platform/ucosII/Source/os_core.c:763-780 | in place, the lock of the model |
| `Kernel.Kernel.SchedUnlock` | QH_UCOSII+LWIP1.4/lora_network_platform/ucosII/Source/os_core.c:800-826 | in place, the unlock of the model |
| `Kernel.Kernel.Start` | QH_UCOSII+LWIP1.4/lora_network_platform/ucosII/Source/os_core.c:850-859 | in place, the start of the model |
| `Kernel.Kernel.EventTaskRdy` | QH_UCOSII+LWIP1.4/lora_network_platform/ucosII/Source/os_core.c:1055-1112 | with bitmaps and priority table, wakes the most urgent waiter and returns its priority |
| `Kernel.Kernel.EventTaskWait` | QH_UCOSII+LWIP1.4/lora_network_platform/ucosII/Source/os_core.c:1130-1145 | moves the running task from the ready list to the wait list |
| `Kernel.Kernel.EventTaskRemove` | QH_UCOSII+LWIP1.4/lora_network_platform/ucosII/Source/os_core.c:1207-1219 | takes a task off a wait list and clears its event pointer |
| `Kernel.Kernel.EventWakeAll` | QH_UCOSII+LWIP1.4/lora_network_platform/ucosII/Source/os_mbox.c:434-439 | the loop terminates, equals the broadcast of the model, and counts exactly the former waiters |
| `Kernel.Kernel.TickList` | QH_UCOSII+LWIP1.4/lora_network_platform/ucosII/Source/os_core.c:961-983 | the loop over the linked list terminates and visits every task before the idle task |
| `Kernel.Kernel.TimeTick` | QH_UCOSII+LWIP1.4/lora_network_platform/ucosII/Source/os_core.c:916-985 | in place, one tick of the model |
| `Kernel.Kernel.TimeDly` | QH_UCOSII+LWIP1.4/lora_network_platform/ucosII/Source/os_time.c:46-72 | in place, the delay of the model; the caller's counter is the number of ticks |
| `Kernel.Kernel.TimeDlyHMSM` | QH_UCOSII+LWIP1.4/lora_network_platform/ucosII/Source/os_time.c:101-141 | the caller's counter is set to the requested time in hours, minutes, seconds and milliseconds, to the nearest tick; an error in an interrupt or under the lock |
| `Kernel.Kernel.TcbInit` | QH_UCOSII+LWIP1.4/lora_network_platform/ucosII/Source/os_core.c:1965-2092 | fills in and links a free control block, or reports that none is left and changes nothing |
| `Kernel.Kernel.TaskCreate` | QH_UCOSII+LWIP1.4/lora_network_platform/ucosII/Source/os_task.c:211-260 | in place, task creation of the model with its error codes |
| `Kernel.Kernel.UnlinkTcb` | QH_UCOSII+LWIP1.4/lora_network_platform/ucosII/Source/os_task.c:517-529 | moves a control block between the two linked lists |
| `Kernel.Kernel.TaskDel` | QH_UCOSII+LWIP1.4/lora_network_platform/ucosII/Source/os_task.c:435-538 | in place, task deletion of the model with its error codes |
| `Kernel.Kernel.TaskSuspend` | QH_UCOSII+LWIP1.4/lora_network_platform/ucosII/Source/os_task.c:964-1014 | in place, suspension with its error codes, as `TaskAnswers.SuspendAnswer` has it |
| `Kernel.Kernel.TaskResume` | QH_UCOSII+LWIP1.4/lora_network_platform/ucosII/Source/os_task.c:812-856 | in place, resumption of the model with its error codes |
| `Kernel.Kernel.TaskChangePrio` | QH_UCOSII+LWIP1.4/lora_network_platform/ucosII/Source/os_task.c:53-165 | in place, change of priority of the model with its error codes |
| `Kernel.Kernel.SemCreate` | QH_UCOSII+LWIP1.4/lora_network_platform/ucosII/Source/os_sem.c:98-133 | in place, creation of a semaphore |
| `Kernel.Kernel.SemPend` | QH_UCOSII+LWIP1.4/lora_network_platform/ucosII/Source/os_sem.c:319-345 | in place, the first half of a pend |
| `Kernel.Kernel.SemPost` | QH_UCOSII+LWIP1.4/lora_network_platform/ucosII/Source/os_sem.c:480-511 | in place, the post of the model with its error codes |
| `Kernel.Kernel.SemAccept` | QH_UCOSII+LWIP1.4/lora_network_platform/ucosII/Source/os_sem.c:53-77 | in place, the accept: takes a token and returns the count before, as `EventAnswers.AcceptAnswer` has it |
| `Kernel.Kernel.SemSet` | QH_UCOSII+LWIP1.4/lora_network_platform/ucosII/Source/os_sem.c:596-635 | in place, the set of the model |
| `Kernel.Kernel.MboxCreate` | QH_UCOSII+LWIP1.4/lora_network_platform/ucosII/Source/os_mbox.c:90-126 | in place, creation of a mailbox |
| `Kernel.Kernel.MboxPend` | QH_UCOSII+LWIP1.4/lora_network_platform/ucosII/Source/os_mbox.c:308-343 | in place, the first half of a pend |
| `Kernel.Kernel.MboxPostOpt` | QH_UCOSII+LWIP1.4/lora_network_platform/ucosII/Source/os_mbox.c:559-602 | in place, the post of the model with broadcast and no-schedule options |
| `Kernel.Kernel.MboxAccept` | QH_UCOSII+LWIP1.4/lora_network_platform/ucosII/Source/os_mbox.c:49-71 | in place, the accept: empties the mailbox and returns its message, as `EventAnswers.AcceptAnswer` has it |
| `Kernel.Kernel.PendResume` | QH_UCOSII+LWIP1.4/lora_network_platform/ucosII/Source/os_mbox.c:344-370 | in place, the second half of a pend: error code, message, and removal from the wait list after a timeout |
| `Kernel.Kernel.PendAbort` | QH_UCOSII+LWIP1.4/lora_network_platform/ucosII/Source/os_sem.c:405-458 | in place, the abort of the model with the number of tasks, for semaphores, mailboxes and queues |
| `Kernel.Kernel.Del` | QH_UCOSII+LWIP1.4/lora_network_platform/ucosII/Source/os_sem.c:176-261 | in place, deletion with its options and error codes, for semaphores, mailboxes and queues |
| `Kernel.Kernel.MutexCreate` | QH_UCOSII+LWIP1.4/lora_network_platform/ucosII/Source/os_mutex.c:177-244 | in place, creation of a mutex, with the reserved slot released when no block is left |
| `Kernel.Kernel.MutexAccept` | QH_UCOSII+LWIP1.4/lora_network_platform/ucosII/Source/os_mutex.c:86-136 | in place, the accept of the model |
| `Kernel.Kernel.RaiseInPlace` | QH_UCOSII+LWIP1.4/lora_network_platform/ucosII/Source/os_mutex.c:503-542 | in place, the move of the owner to the ceiling |
| `Kernel.Kernel.MutexPend` | QH_UCOSII+LWIP1.4/lora_network_platform/ucosII/Source/os_mutex.c:438-549 | in place, the first half of a mutex pend with priority raise |
| `Kernel.Kernel.RdyAtPrio` | QH_UCOSII+LWIP1.4/lora_network_platform/ucosII/Source/os_mutex.c:737-762 | in place, the return of the running task to a priority |
| `Kernel.Kernel.MutexPost` | QH_UCOSII+LWIP1.4/lora_network_platform/ucosII/Source/os_mutex.c:601-656 | in place, restore, hand-over and error codes of a mutex post |
| `Kernel.Kernel.MutexDel` | QH_UCOSII+LWIP1.4/lora_network_platform/ucosII/Source/os_mutex.c:288-394 | in place, deletion of an unowned mutex |
| `RingQueue.Queue.Append` | QH_UCOSII+LWIP1.4/lora_network_platform/ucosII/Source/os_q.c:632-642 | the messages of the ring, oldest first, are the old ones followed by the new one, or the ring is full |
| `RingQueue.Queue.Prepend` | QH_UCOSII+LWIP1.4/lora_network_platform/ucosII/Source/os_q.c:695-706 | the messages of the ring, oldest first, are the new one followed by the old ones, or the ring is full |
| `RingQueue.Queue.Put` | QH_UCOSII+LWIP1.4/lora_network_platform/ucosII/Source/os_q.c:775-793 | the messages of the ring are the old ones with the new one in front or at the back, as the option says, or the ring is full |
| `RingQueue.Queue.Take` | QH_UCOSII+LWIP1.4/lora_network_platform/ucosII/Source/os_q.c:92-103 | returns the oldest message and leaves the others, or finds nothing |
| `RingQueue.Queue.Flush` | QH_UCOSII+LWIP1.4/lora_network_platform/ucosII/Source/os_q.c:362-366 | the ring is empty |
| `RingQueue.RingAppend` | QH_UCOSII+LWIP1.4/lora_network_platform/ucosII/Source/os_q.c:636-640 | a cell written after the last one, modulo the size, appends to the contents |
| `RingQueue.RingPrepend` | QH_UCOSII+LWIP1.4/lora_network_platform/ucosII/Source/os_q.c:699-703 | a cell written before the first one, modulo the size, prepends to the contents |
| `Kernel.Kernel.QCreate` | QH_UCOSII+LWIP1.4/lora_network_platform/ucosII/Source/os_q.c:149-183 | in place, takes an event block and counts a queue block as taken; without a queue block the event block goes back and nothing changes |
| `QueueServices.QCreate` | QH_UCOSII+LWIP1.4/lora_network_platform/ucosII/Source/os_q.c:126-183 | the new event holds what the ring over the given storage holds: nothing, up to its size |
| `QueueServices.QPost` | QH_UCOSII+LWIP1.4/lora_network_platform/ucosII/Source/os_q.c:603-643 | on the ring and the kernel's data, the post of the model with its error codes: to the most urgent waiter, to the back of the ring, or refused |
| `QueueServices.QPostFront` | QH_UCOSII+LWIP1.4/lora_network_platform/ucosII/Source/os_q.c:666-707 | a post to the front: to the most urgent waiter, to the front of the ring, or refused, as `EventAnswers.PostAnswer` has it |
| `QueueServices.QPostOpt` | QH_UCOSII+LWIP1.4/lora_network_platform/ucosII/Source/os_q.c:738-794 | a post with broadcast, front and no-schedule options: to the waiters, to the ring at the end the option names, or refused, as `EventAnswers.PostAnswer` has it |
| `QueueServices.QPend` | QH_UCOSII+LWIP1.4/lora_network_platform/ucosII/Source/os_q.c:405-460 | in place, the first half of a pend: takes the oldest message of the ring, or waits |
| `QueueServices.QAccept` | QH_UCOSII+LWIP1.4/lora_network_platform/ucosII/Source/os_q.c:63-107 | in place, the accept: takes the first message of the ring and returns it, as `EventAnswers.AcceptAnswer` has it |
| `QueueServices.QFlush` | QH_UCOSII+LWIP1.4/lora_network_platform/ucosII/Source/os_q.c:345-369 | the ring and what the event holds are empty |
| `QueueServices.QPendAbort` | QH_UCOSII+LWIP1.4/lora_network_platform/ucosII/Source/os_q.c:523-579 | in place, the abort of the model; the ring is untouched |
| `QueueServices.QDel` | QH_UCOSII+LWIP1.4/lora_network_platform/ucosII/Source/os_q.c:225-321 | in place, deletion with its options and error codes; a queue that stays keeps its ring |
| `Bystanders.PostQueues` | QH_UCOSII+LWIP1.4/lora_network_platform/ucosII/Source/os_q.c:624-642 | a post changes no queue but the one it names, and not even that one when somebody waits |
| `Bystanders.StepKeepsQueues` | QH_UCOSII+LWIP1.4/lora_network_platform/ucosII/Source/os_q.c:624-642 | no legal call changes what a queue holds, or makes an event a queue, unless it is a queue call that names it |
| `Simulation.PerformSched` | QH_UCOSII+LWIP1.4/lora_network_platform/ucosII/Source/os_core.c:653-985 | scheduler and tick calls on the data in memory are the steps of the state machine |
| `Simulation.PerformTask` | QH_UCOSII+LWIP1.4/lora_network_platform/ucosII/Source/os_task.c:53-1014 | task calls on the data in memory are the steps of the state machine |
| `Simulation.PerformMutex` | QH_UCOSII+LWIP1.4/lora_network_platform/ucosII/Source/os_mutex.c:86-656 | mutex calls on the data in memory are the steps of the state machine |
| `Simulation.PerformEvent` | QH_UCOSII+LWIP1.4/lora_network_platform/ucosII/Source/os_sem.c:53-635 | semaphore and mailbox calls, and the second half of every pend, are the steps of the state machine |
| `Simulation.PerformQueue` | QH_UCOSII+LWIP1.4/lora_network_platform/ucosII/Source/os_q.c:63-794 | queue calls on a queue and its ring are the steps of the state machine, and the ring afterwards holds what the queue holds |
| `Simulation.AdvanceCreate` | QH_UCOSII+LWIP1.4/lora_network_platform/ucosII/Source/os_q.c:126-183 | a created queue has a ring of its own, and all other queues keep theirs |
| `Simulation.Advance` | QH_UCOSII+LWIP1.4/lora_network_platform/ucosII/Source/os_core.c:683-985 | every legal call, made on bitmaps, tables, linked lists and rings, is the step of the state machine, and afterwards every live queue has one ring, apart from all others, that holds what the queue holds |
| `Simulation.PerformRun` | QH_UCOSII+LWIP1.4/lora_network_platform/ucosII/Source/os_core.c:683-985 | every legal run, made on bitmaps, tables, linked lists and rings, ends in data that stand for the state in which the run ends, with one ring for every live queue |
| `Chains.PushChain` | QH_UCOSII+LWIP1.4/lora_network_platform/ucosII/Source/os_flag.c:1055-1064 | linking a node in front keeps a doubly linked list well formed |
| `Chains.CutChain` | QH_UCOSII+LWIP1.4/lora_network_platform/ucosII/Source/os_flag.c:1202-1230 | linking around a node keeps a doubly linked list well formed, and the node keeps its own links |
| `TimerWheel.SignalCountsDown` | QH_UCOSII+LWIP1.4/lora_network_platform/ucosII/Source/os_tmr.c:1070-1081 | a signal takes one from what remains to a running timer, across wrap-around of the 32-bit time, and the timer fires when one remained |
| `TimerWheel.StartSetsRemaining` | QH_UCOSII+LWIP1.4/lora_network_platform/ucosII/Source/os_tmr.c:963-971 | a started timer has its delay to go, or its period if the delay is zero |
| `TimerWheel.CountsDown` | QH_UCOSII+LWIP1.4/lora_network_platform/ucosII/Source/os_tmr.c:1062-1087 | whatever happens to other timers, a timer with d signals to go is unchanged for d - 1 signals and fires on the d-th |
| `TimerWheel.RearmsOrCompletes` | QH_UCOSII+LWIP1.4/lora_network_platform/ucosII/Source/os_tmr.c:1074-1078 | a periodic timer that fires has a full period to go, a one-shot timer is completed |
| `TimerWheel.DelayIsExact` | QH_UCOSII+LWIP1.4/lora_network_platform/ucosII/Source/os_tmr.c:539-589 | a timer started with delay d >= 1 fires on exactly the d-th signal after its start |
| `TimerWheel.CreatedDelayIsExact` | QH_UCOSII+LWIP1.4/lora_network_platform/ucosII/Source/os_tmr.c:145-185 | a timer created with delay d >= 1 and then started fires on exactly the d-th signal, and has the period it was created with |
| `TimerWheel.FiresPeriodically` | QH_UCOSII+LWIP1.4/lora_network_platform/ucosII/Source/os_tmr.c:1062-1087 | over any run that does not name it, a running timer with d signals to go fires not at all before the d-th, then once, and if it is periodic once more each period |
| `TimerWheel.QuietStays` | QH_UCOSII+LWIP1.4/lora_network_platform/ucosII/Source/os_tmr.c:1062-1087 | a timer that does not run is unchanged, whatever is done to the others |
| `TimerWheel.StoppedIsQuiet` | QH_UCOSII+LWIP1.4/lora_network_platform/ucosII/Source/os_tmr.c:631-710 | a timer that was stopped or deleted does not fire until it is started again |
| `TimerWheel.JoinWheel` | QH_UCOSII+LWIP1.4/lora_network_platform/ucosII/Source/os_tmr.c:972-987 | each running timer stays on exactly one spoke, its match time modulo the wheel size |
| `TimerWheel.Wheel.constructor` | QH_UCOSII+LWIP1.4/lora_network_platform/ucosII/Source/os_tmr.c:826-871 | all timers are unused and in the free list |
| `TimerWheel.Wheel.Join` | QH_UCOSII+LWIP1.4/lora_network_platform/ucosII/Source/os_tmr.c:955-988 | starts a timer at the front of its spoke and keeps wheel and pool well formed |
| `TimerWheel.Wheel.Leave` | QH_UCOSII+LWIP1.4/lora_network_platform/ucosII/Source/os_tmr.c:1005-1034 | takes a timer off its spoke and keeps wheel and pool well formed |
| `TimerWheel.Wheel.Pass` | QH_UCOSII+LWIP1.4/lora_network_platform/ucosII/Source/os_tmr.c:1062-1087 | one pass over one spoke equals looking at every timer, and fires exactly the running timers whose match time is the new time, each once |
| `TimerWheel.Wheel.CreateTmr` | QH_UCOSII+LWIP1.4/lora_network_platform/ucosII/Source/os_tmr.c:145-185 | takes an unused timer, or finds that there is none |
| `TimerWheel.Wheel.DelTmr` | QH_UCOSII+LWIP1.4/lora_network_platform/ucosII/Source/os_tmr.c:211-261 | frees a timer in any state, off the wheel first if it runs |
| `TimerWheel.Wheel.StartTmr` | QH_UCOSII+LWIP1.4/lora_network_platform/ucosII/Source/os_tmr.c:539-589 | starts or restarts a timer with its delay |
| `TimerWheel.Wheel.StopTmr` | QH_UCOSII+LWIP1.4/lora_network_platform/ucosII/Source/os_tmr.c:631-710 | stops a running timer and leaves the others; says which error is reported and whether, and with which argument, a callback is due |
| `TimerWheel.Wheel.RemainGet` | QH_UCOSII+LWIP1.4/lora_network_platform/ucosII/Source/os_tmr.c:396-440 | returns the signals that remain, in 32-bit arithmetic |
| `MemPart.Partition.Counted` | QH_UCOSII+LWIP1.4/lora_network_platform/ucosII/Source/os_mem.c:183-190 | outstanding blocks and the counter of free blocks add up to all blocks |
| `MemPart.BlocksApart` | QH_UCOSII+LWIP1.4/lora_network_platform/ucosII/Source/os_mem.c:119-128 | a word lies in at most one block |
| `MemPart.WriteElsewhere` | QH_UCOSII+LWIP1.4/lora_network_platform/ucosII/Source/os_mem.c:183-186 | a write outside the free blocks leaves their list well formed |
| `MemPart.Partition.constructor` | QH_UCOSII+LWIP1.4/lora_network_platform/ucosII/Source/os_mem.c:61-137 | the loop links all blocks into the free list inside the given memory |
| `MemPart.Partition.Get` | QH_UCOSII+LWIP1.4/lora_network_platform/ucosII/Source/os_mem.c:182-194 | returns a block that was not outstanding, or nothing when no block is free |
| `MemPart.Partition.Put` | QH_UCOSII+LWIP1.4/lora_network_platform/ucosII/Source/os_mem.c:357-367 | puts an outstanding block at the front of the free list and writes its first word alone, or finds the partition full |
| `MemPart.Partition.ClientWrite` | QH_UCOSII+LWIP1.4/lora_network_platform/ucosII/Source/os_mem.c:183-187 | what a client writes into a block it owns does not damage the free list |
| `FlagGroup.UnsatisfiedIsFilter` | QH_UCOSII+LWIP1.4/lora_network_platform/ucosII/Source/os_flag.c:868-931 | the tasks left by a post are exactly those the flags do not satisfy |
| `FlagGroup.UnsatisfiedInOrder` | QH_UCOSII+LWIP1.4/lora_network_platform/ucosII/Source/os_flag.c:868-931 | any two tasks that a post leaves waiting keep their order in the list |
| `FlagGroup.SatisfiedBits` | QH_UCOSII+LWIP1.4/lora_network_platform/ucosII/Source/os_flag.c:872-922 | for each kind of waiting, bit by bit: all flags asked for are set, one is set, all are clear, one is clear; and which of them are handed over |
| `FlagGroup.ConsumedBits` | QH_UCOSII+LWIP1.4/lora_network_platform/ucosII/Source/os_flag.c:724-741 | consuming undoes what the task waited for, in the flags it asked for and in no other |
| `FlagGroup.WokenBits` | QH_UCOSII+LWIP1.4/lora_network_platform/ucosII/Source/os_flag.c:868-931 | a post wakes a task in the list if and only if its combination has come about, with the bits that woke it, and changes no other task |
| `FlagGroup.ConsumingMissesNobody` | QH_UCOSII+LWIP1.4/lora_network_platform/ucosII/Source/os_flag.c:735-741 | when all wait for flags to be set, consuming flags leaves nobody behind who should go |
| `FlagGroup.MixedGroupMisses` | QH_UCOSII+LWIP1.4/lora_network_platform/ucosII/Source/os_flag.c:735-741 | with both kinds of waiting, consuming a flag can satisfy a task without waking it |
| `FlagGroup.ConsumingMisses` | QH_UCOSII+LWIP1.4/lora_network_platform/ucosII/Source/os_flag.c:735-741 | a task waiting for flags to be clear is missed if and only if the consumed flags were what it waited for |
| `FlagGroup.Group.TaskRdy` | QH_UCOSII+LWIP1.4/lora_network_platform/ucosII/Source/os_flag.c:1156-1178 | wakes one task with its flags, ready unless suspended, and unlinks its node |
| `FlagGroup.Group.Remove` | QH_UCOSII+LWIP1.4/lora_network_platform/ucosII/Source/os_flag.c:1202-1230 | unlinks a node from the wait list and keeps the order of the others |
| `FlagGroup.Group.Walk` | QH_UCOSII+LWIP1.4/lora_network_platform/ucosII/Source/os_flag.c:866-932 | the loop over the changing list wakes exactly the satisfied tasks and keeps the others in order |
| `FlagGroup.Group.Post` | QH_UCOSII+LWIP1.4/lora_network_platform/ucosII/Source/os_flag.c:850-936 | the flags of the mask are set or cleared and no other; exactly the tasks whose combination has come about are woken, each with the bits that woke it, and nobody is left waiting for what has come about; it schedules if and only if a task became ready |
| `FlagGroup.Group.Pend` | QH_UCOSII+LWIP1.4/lora_network_platform/ucosII/Source/os_flag.c:634-715 | takes the flags if the combination has come about, told bit by bit, consuming exactly those asked for on demand, and otherwise puts the caller at the front of the list |
| `FlagGroup.Group.Resume` | QH_UCOSII+LWIP1.4/lora_network_platform/ucosII/Source/os_flag.c:716-759 | returns the flags that woke the task, consuming exactly those on demand, or unlinks its node after a timeout |
| `FlagGroup.Group.Enlist` | QH_UCOSII+LWIP1.4/lora_network_platform/ucosII/Source/os_flag.c:1038-1071 | puts the caller's node at the front and makes the caller unready |
| `FlagGroup.Group.Run` | QH_UCOSII+LWIP1.4/lora_network_platform/ucosII/Source/os_flag.c:634-943 | over any sequence of posts, pends, ticks, resumed pends and suspensions of tasks that wait for flags to be set, no satisfied task is ever left in the list |
| `DelayTime.WithinOneTick` | QH_UCOSII+LWIP1.4/lora_network_platform/ucosII/Source/os_time.c:137-138 | for any tick rate the millisecond part is converted to within one tick |
| `DelayTime.NearestExactly` | QH_UCOSII+LWIP1.4/lora_network_platform/ucosII/Source/os_time.c:135-138 | it is the nearest tick if and only if the division loses no more than half a tick above the rounding term |
| `DelayTime.AlwaysNearest` | QH_UCOSII+LWIP1.4/lora_network_platform/ucosII/Source/os_time.c:135-138 | every value is converted to the nearest tick if and only if the rounding term and the greatest common divisor of the rate and 1000 add up to at least 500 |
| `DelayTime.NotAlwaysNearest` | QH_UCOSII+LWIP1.4/lora_network_platform/ucosII/Source/os_time.c:135-138 | at 300 ticks a second two milliseconds are not converted to the nearest tick |
| `DelayTime.ConfiguredRateIsNearest` | QH_UCOSII+LWIP1.4/lora_network_platform/ucosII/Source/os_time.c:135-138 | at the configured 200 ticks a second every value is converted to the nearest tick |
| `DelayTime.ConfiguredDelay` | QH_UCOSII+LWIP1.4/lora_network_platform/ucosII/Source/os_time.c:135-138 | at 200 ticks a second the delay is the requested time, hours, minutes, seconds and milliseconds together, to the nearest tick |
| `DelayTime.DelayWithinOneTick` | QH_UCOSII+LWIP1.4/lora_network_platform/ucosII/Source/os_time.c:135-138 | at any rate up to 4590 ticks a second the delay is within one tick of the requested time |
| `DelayTime.NoOverflow` | QH_UCOSII+LWIP1.4/lora_network_platform/ucosII/Source/os_time.c:137-138 | up to 4590 ticks a second no argument overflows 32 bits; `DelayTime.DelayWithinOneTick` says what the sum amounts to |

## Left out

- Interrupts between the end of a critical section and the scheduler call that follows it: a service and its scheduler call are one step.
- Interrupts inside task creation and deletion, inside the creation of an event, whose block is filled in after the critical section, and between the tasks that one clock tick visits: each is one step.
- Argument checks: they are compiled out in the configuration, so priorities below 64 and valid pointers are preconditions.
- Pointers into the tables are indices of the tables, and the pointer to a reserved slot is a constructor.
- The status byte is the set of its bits; the bit for event flags belongs to `FlagGroup` alone.
- Interrupt nesting and scheduler lock beyond 255 follow the code's saturation; unbalanced calls are excluded by `Runs.Legal`.
- Nested or recursive ownership of mutexes.
- `OSTimeDlyResume`: a second way to end a delay, with the branches of the tick.
- `OSEventPendMulti` and its helpers: compiled out, and the bit they leave in the status byte breaks the readiness rule.
- The pool of queue control blocks is a counter, and the pointer from an event to its queue control block is a parameter of the queue services.
- Event flags are not part of the kernel state: `FlagGroup` has the part of a task that flags use, and the tick of one task as a step of its own.
- `OSFlagDel` with waiters: it unlinks the node twice.
- `OSFlagAccept`, `OSFlagQuery` and the other query functions: copies.
- Timer callbacks leave the wheel alone, and the ISR checks of the timer services are not modelled.
- MutexServices.MutexDeleteKeeps: requires that nobody owns the mutex, because deletion frees the ceiling slot under a raised owner.
- Kernel.Kernel.MutexDel: requires the same.
- TaskServices.TaskDelKeeps: excludes mutex owners, as the code's rules do, and the running task under the scheduler lock, where the invariant fails: `Rules.SelfDeletion` says exactly when.
- Kernel.Kernel.TaskDel: excludes mutex owners.
- TaskServices.TaskSuspendKeeps: excludes the running task under the scheduler lock, and a raised owner that names its original priority, where the invariant fails: `Rules.SelfSuspension` says exactly when.
- TaskServices.ChangePrioKeeps: excludes mutex owners, as the documentation does, and the running task in an interrupt or under the lock, where the invariant fails: `Rules.SelfChange` says exactly when, `Rules.SwitchIsRightUnlessStale` and `Rules.TwoChangesInInterrupt` what follows.
- Kernel.Kernel.TaskChangePrio: excludes mutex owners.
- MemPart.Partition.Put: requires that the block is outstanding, because the code does not check it.
- Memory is a sequence of words, and a block is a whole number of words.
- Names, stack checking, task registers, thread-local storage, hooks, the statistics task, the tick counter and the context-switch counters.
- The context-switch assembly: a switch sets the running task and its priority.
- Board support, drivers, the lwIP port and the application tasks.

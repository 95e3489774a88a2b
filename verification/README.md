# Verification of the FreeRTOS kernel, the flash table and the node scan

A Dafny model of the hard parts of this repository, with proofs: the FreeRTOS V7.0.2 kernel
(lists, scheduler, delays, queues, mutexes, software timers), the append-only variable table in
flash, and the discovery of nodes on the serial bus.

`dafny verify dfyconfig.toml` checks everything.

## How the files fit together

- `Ticks.dfy` reads the wrapping 32-bit tick counter against unbounded absolute time. `Timeouts.dfy` is the
  time limit that blocking calls ask for, on top of it.
- `Lists.dfy` is the circular doubly linked list on the heap, and the first-in first-out queue that its cursor
  implements. `Sequences.dfy` holds what insertion and removal do to sequences.
- `KernelState.dfy` holds the scheduler's variables as one value and says what each operation does to it. A ready
  list is kept in the order its cursor visits it, which `Lists.dfy` proves to be append, rotate and delete.
  `KernelImpl.dfy` is the imperative scheduler: one mutable record of the variables of `tasks.c`, updated statement
  by statement in the source's loops, each method proved to be one step of a run. `ReadyLists.dfy` has the ready lists
  as lists of linked items and proves the three operations on them against `KernelState.dfy`; `DelayedLists.dfy` does
  so for the two delayed lists.
- `KernelWorld.dfy` adds what the kernel never stores (absolute time, absolute deadlines, who was explicitly
  suspended, how many tick interrupts there were) and the invariant that ties it to the state. `KernelOps.dfy`
  proves that all operations keep it. `TaskStates.dfy` says what all of them do to tasks without a word about lists, and
  proves that the scheduler refines that. `KernelRuns.dfy`, `KernelFairness.dfy`, `MissedYields.dfy` and `EventOrder.dfy`
  (the order of the tasks that wait for an event) are about whole runs; `Scenes.dfy` follows concrete ones.
- `PriorityInheritance.dfy` says what each operation does to priorities. `MutexRuns.dfy` puts mutexes into the world of
  the kernel, with runs of takes, blockings and gives among all other operations; `MutexImpl.dfy` is the mutex as an
  object that calls the scheduler, each method proved to be an action of those runs.
- `QueueSignals.dfy` is what a queue keeps besides its bytes, `QueueImpl.dfy` the queue with its byte ring,
  `QueueProtocol.dfy` the interleavings of blocking calls with interrupts, `RecursiveMutex.dfy` the recursive mutex
  cut into the steps between which tasks may be switched.
- `Timers.dfy` specifies the timer service, `TimerService.dfy` runs it, `TimerRuns.dfy` holds its runs against absolute
  time, and `TimerCommands.dfy` each command. Timers are switched off in this configuration (FreeRTOS/include/FreeRTOS.h:160); mutexes are on by default.
- `FlashTable.dfy` is the table within one flash block. `Bitmaps.dfy`, `NodeDb.dfy` and `NodeScan.dfy` are the node scan.

## Assumptions about the surroundings

- The tick interrupt, the choice when to switch, and everything interrupts do are arbitrary steps; a step that the
  source runs with interrupts off is atomic.
- The timer service samples the time once before it drains its commands (FreeRTOS/timers.c:502), which were issued at
  or before that time. Two more of its rounds than there are timers always take less than a turn of the counter; that
  it handles every command within a turn is proved from that.
- Tasks are numbered; a number is used again only after the idle task has freed the task.
- Flash bytes can be programmed from the erased state or to zero; power may fail after any of them, but programming
  does not return an error. The block that compaction copies to is erased.
- During the search the bus answers truthfully, is busy only finitely often, and the devices stay the same. In settling
  disputes the answers are arbitrary, busy ones included; what they lead to is stated where they come from nodes that
  have the identifier asked for. A node takes a new identifier exactly if its acknowledgement arrives.

## Where the code and its comments part

- `xTaskCheckForTimeOut` says that it recognises every timeout after the counter went round; it does not after two
  rollovers with the counter below the entry time. `Timeouts.ReportsExactly` gives the exact condition.
- `flash_write_no_recovery` guards against a full table with a bound that is too large; `flash_write_int`
  is safe because its own test comes first (`FlashTable.FullExactly`), and after a compaction because completed
  writes leave at most one live entry per identifier (`FlashTable.CollectionMakesRoom`). Power failures leave
  duplicates that only reads and later writes retire; with more than 256 of them a compacted table may still be full,
  and a write then leaves the block (`FlashTable.OverrunExactly`; `FlashTable.InterruptedFills` is such a table).
- `next_block_top` is computed after a restart from a base one byte further than after a compaction; for offsets behind
  whole entries that makes no difference (`FlashTable.FullExactly`).
- `vTaskDelayUntil` takes a recorded wake time that is still ahead, because the task was resumed early, for one of the
  previous turn of the counter, and does not sleep (`KernelOps.DelayUntilFromAheadExample`).
- `vTaskPriorityDisinherit` restores the base priority although another mutex that the task holds may be in demand, and
  `vTaskPrioritySet` ignores what others wait for: `MutexRuns.DemandKeptExactly` says exactly when that matters, and
  `MutexRuns.LostByGive`, `MutexRuns.LostByLowering` and `MutexRuns.LostByRaising` are runs in which it does.
- `dealwith_conflict_id` clears the mark of an identifier when the bus is busy (co2/scan.c:349-353), and when the node
  that is known for it answers first (co2/scan.c:329-348); another node there is then neither known nor marked
  (`NodeScan.DeviceLost`). `NodeScan.Scanner.ScanSubNodes` says exactly which identifiers are affected.
- `xTaskRemoveFromEventList` relies on event lists being in priority order (FreeRTOS/tasks.c:1804). Changing the
  priority of a waiting task rewrites its item's value in place (FreeRTOS/tasks.c:875 and FreeRTOS/tasks.c:2418):
  `EventOrder.StepKeepsOrderExactly` says exactly when that breaks the order, `EventOrder.OrderLost` is a run in which
  it does. For a task that runs at an inherited priority the value may also stop telling the priority
  (`EventOrder.StepKeepsRanksExactly`, `EventOrder.RankLost`).
- `try_times` in `dealwith_conflict_id` (co2/scan.c:299) is set to 0, not to 3, for every identifier but the first,
  and then wraps to 255.
- `modify_master_id_in_database` does not check the new identifier; `NodeDb.MasterChangedKeepsExactly` says when it must.

## Model

| member | source | states |
|---|---|---|
| Lists.List.constructor | FreeRTOS/list.c:63-80 | an empty circular list: the end marker, holding the largest value, is its own neighbour |
| Lists.List.InsertEnd | FreeRTOS/list.c:90-110 | the item is linked in where the cursor stands, so that it comes last in the order of the cursor; the list stays circular and doubly linked with matching count and containers |
| Lists.List.Insert | FreeRTOS/list.c:113-167 | the item is linked in after the longest prefix of values not above its own; well-formedness and all values are kept |
| Lists.List.FindPosition | FreeRTOS/list.c:134-162 | the search ends for every value, the largest tick value included, at the insertion position |
| Lists.List.RemoveItem | FreeRTOS/list.c:170-189 | exactly that item leaves, a cursor standing on it steps back to its predecessor, and the order of the others as the cursor will visit them is kept |
| Lists.Remove | FreeRTOS/list.c:170-189 | an item is removed from whatever list its container pointer names |
| Lists.List.NextEntry | FreeRTOS/include/list.h:190-200 | the first item in the order of the cursor is selected, past the end marker if need be, and goes to the end of that order |
| Lists.List.HeadEntry | FreeRTOS/include/list.h:220 | the first item in link order |
| Lists.InsertKeepsSorted | FreeRTOS/list.c:113-167 | insertion into a sorted list keeps it sorted and puts the item behind its equals |
| Lists.InsertEndAppends | FreeRTOS/list.c:94-110 | seen from the cursor, vListInsertEnd appends to a queue |
| Lists.NextEntryRotates | FreeRTOS/tasks.c:1707-1709 | seen from the cursor, selecting the next owner serves the front of the queue and sends it to the back |
| Lists.RemoveKeepsOrder | FreeRTOS/list.c:170-189 | seen from the cursor, vListRemove deletes one element and keeps the order of all others |
| ReadyLists.ReadyQueues.constructor | FreeRTOS/tasks.c:2071-2099 | the ready lists on the heap start empty |
| ReadyLists.ReadyQueues.AddTaskToReadyQueue | FreeRTOS/tasks.c:259-264 | on lists of linked items: does to the order of the tasks, and to the bound, what the specification on sequences says |
| ReadyLists.ReadyQueues.Remove | FreeRTOS/list.c:170-189 | on lists of linked items, through the container pointer: likewise, and no other list changes |
| ReadyLists.ReadyQueues.SwitchToNext | FreeRTOS/tasks.c:1700-1709 | on lists of linked items: selects the task that the specification selects and leaves the lists as it does |
| DelayedLists.DelayedQueues.constructor | FreeRTOS/tasks.c:2071-2099 | the two delayed lists on the heap start empty |
| DelayedLists.DelayedQueues.AddCurrentTaskToDelayedList | FreeRTOS/tasks.c:2138-2161 | on lists of linked items: the item goes into the list, and to the place among its owners and values, that the specification on sequences says, and the cached wake time follows |
| DelayedLists.DelayedQueues.CheckDelayedTasks | FreeRTOS/tasks.c:274-324 | on lists of linked items: exactly the due tasks leave the current list, from its front, and lists and cached wake time are then those of the specification |
| DelayedLists.DelayedQueues.SwitchDelayedLists | FreeRTOS/tasks.c:1516-1544 | on lists of linked items: the lists change places and the cached wake time is that of the first item |
| Ticks.DeadlineEpoch | FreeRTOS/tasks.c:2138-2161 | a deadline less than a full turn away belongs to the next epoch exactly if its wrapped value is below the counter |
| KernelImpl.Kernel.constructor | FreeRTOS/tasks.c:2071-2099 | the state from which every run starts |
| KernelImpl.Kernel.AddTaskToReadyQueue | FreeRTOS/tasks.c:259-264 | the task is appended to the ready list of its priority and the ready bound covers it |
| KernelImpl.Kernel.AddCurrentTaskToDelayedList | FreeRTOS/tasks.c:2138-2161 | the running task goes into the delay list of its wake tick's epoch, in wake order, and the cached wake time is not past it |
| KernelImpl.Kernel.CheckDelayedTasks | FreeRTOS/tasks.c:274-324 | the guarded draining loop does what the recursive specification says |
| KernelImpl.Kernel.IncrementTickCount | FreeRTOS/tasks.c:1503-1575 | one call of vTaskIncrementTick, rollover and missed ticks included |
| KernelImpl.Kernel.OnTick | FreeRTOS/tasks.c:1503-1575 | a tick interrupt is exactly the step TickInterrupt of a run |
| KernelImpl.Kernel.CreateTask | FreeRTOS/tasks.c:433-593 | task creation once the scheduler runs is exactly the step CreateTask of a run |
| KernelImpl.Kernel.DeleteTask | FreeRTOS/tasks.c:597-648 | task deletion is exactly the step DeleteTask of a run |
| KernelImpl.Kernel.CheckTasksWaitingTermination | FreeRTOS/tasks.c:2103-2135 | the idle task's clean-up is exactly the step ReapTask of a run |
| KernelImpl.Kernel.SuspendScheduler | FreeRTOS/tasks.c:1164-1169 | vTaskSuspendAll is exactly the step SuspendScheduler of a run |
| KernelImpl.Kernel.ResumeScheduler | FreeRTOS/tasks.c:1172-1246 | xTaskResumeAll is exactly the step ResumeScheduler, and it asks for a yield exactly if ticks were missed, a yield was missed or a pending task is as urgent as the running one |
| KernelImpl.Kernel.MovePending | FreeRTOS/tasks.c:1197-1211 | the first loop of xTaskResumeAll readies all pending tasks |
| KernelImpl.Kernel.ReplayMissedTicks | FreeRTOS/tasks.c:1216-1222 | the second loop of xTaskResumeAll replays every missed tick |
| KernelImpl.Kernel.Delay | FreeRTOS/tasks.c:716-767 | vTaskDelay is suspending the scheduler, the step DelayFor, and resuming; nothing for a zero delay |
| KernelImpl.Kernel.DelayUntil | FreeRTOS/tasks.c:663-714 | for every recorded wake time, read as the latest one with its counter value: vTaskDelayUntil is suspending the scheduler, the step DelayTo, and resuming; the wake time moves on by the increment |
| KernelImpl.DelayCallExactly | FreeRTOS/tasks.c:663-767 | what these two calls come to, the scheduler suspended before or not: the caller sleeps until the absolute time, unless that is over, everybody else is where it was, and the scheduler is no more suspended than before |
| KernelImpl.Kernel.PlaceOnEventList | FreeRTOS/tasks.c:1717-1763 | waiting for an event is exactly the step WaitFor of a run |
| KernelImpl.Kernel.RemoveFromEventList | FreeRTOS/tasks.c:1799-1847 | signalling an event is exactly the step Signal, and reports whether the woken task outranks the caller |
| KernelImpl.Kernel.SuspendTask | FreeRTOS/tasks.c:904-957 | vTaskSuspend is exactly the step SuspendTask of a run |
| KernelImpl.Kernel.TaskIsSuspended | FreeRTOS/tasks.c:962-994 | true exactly of the explicitly suspended tasks without a pending resume |
| KernelImpl.Kernel.ResumeTask | FreeRTOS/tasks.c:1001-1036 | vTaskResume is exactly the step ResumeTask of a run |
| KernelImpl.Kernel.ResumeTaskFromISR | FreeRTOS/tasks.c:1044-1076 | xTaskResumeFromISR is exactly the step ResumeTaskFromISR, with its yield request |
| KernelImpl.Kernel.PrioritySet | FreeRTOS/tasks.c:796-899 | vTaskPrioritySet is exactly the step SetPriority of a run |
| KernelImpl.Kernel.PriorityInherit | FreeRTOS/tasks.c:2409-2436 | vTaskPriorityInherit is exactly the step InheritBy of a run |
| KernelImpl.Kernel.PriorityDisinherit | FreeRTOS/tasks.c:2443-2462 | vTaskPriorityDisinherit is exactly the step DisinheritBy of a run |
| KernelImpl.Kernel.SetTimeOutState | FreeRTOS/tasks.c:1850-1855 | records the scheduler's own tick and rollover counters, which the kernel invariant ties to absolute time |
| KernelImpl.Kernel.CheckForTimeOut | FreeRTOS/tasks.c:1858-1901 | answers from the scheduler's own counters what the specification on absolute time says |
| KernelImpl.Kernel.SwitchToNext | FreeRTOS/tasks.c:1665-1713 | vTaskSwitchContext is exactly the step Switch of a run: with the scheduler suspended it notes the missed yield and changes nothing else, otherwise a ready task runs |
| KernelOps.StepKeepsInv | FreeRTOS/tasks.c:597-1246 | every one of the seventeen operations keeps the kernel invariant: lists and containers agree, ready lists match priorities, the two delay lists hold exactly the deadlines of this epoch and of the next in order, the cached wake time is sound, counters match, tick plus missed ticks is the number of tick interrupts |
| KernelRuns.RunKeepsInv | FreeRTOS/tasks.c:597-1246 | the invariant holds after every step of every run |
| KernelRuns.InitialHolds | FreeRTOS/tasks.c:2071-2099 | the invariant holds when the scheduler starts |
| KernelRuns.OneListEach | FreeRTOS/tasks.c:1172-1246 | every task's generic item is in exactly one list, once, and its event item in at most one |
| KernelRuns.ListLengthsSum | FreeRTOS/tasks.c:2103-2135 | the lengths of all lists add up to the number of tasks, and the termination list has as many as are counted deleted |
| KernelRuns.WakesExactlyAtDeadline | FreeRTOS/tasks.c:663-767 | over every run: a timed sleeper that no event, resume, suspension or deletion reaches sleeps exactly until the processed tick that equals its absolute deadline, for delays and timed waits alike and over any number of rollovers |
| KernelRuns.ResumeLeavesNothingBehind | FreeRTOS/tasks.c:1172-1246 | after the outermost resume there is no missed tick and no pending task, the tick counter is the number of interrupts, and exactly those who were signalled or came due have become ready |
| KernelWorld.TickWakesAtDeadline | FreeRTOS/tasks.c:1503-1575 | a processed tick makes ready exactly the timed sleepers whose absolute deadline it is and moves nobody else |
| KernelWorld.GuardedCheckIsExact | FreeRTOS/tasks.c:274-324 | the check guarded by the cached wake time wakes exactly the tasks that an unconditional scan would |
| KernelWorld.CheckNotesNextWake | FreeRTOS/tasks.c:284-312 | after a scan the cached wake time is exactly that of the next sleeper, or the largest tick when nobody sleeps |
| KernelWorld.EmptyAtRollover | FreeRTOS/tasks.c:1516-1526 | the current delay list is empty at every rollover, as the assertion in the source demands |
| KernelWorld.CatchUpWakesByDeadline | FreeRTOS/tasks.c:1216-1222 | replaying missed ticks wakes exactly the sleepers whose deadline has come |
| KernelWorld.DrainPendingReadies | FreeRTOS/tasks.c:1197-1211 | everything signalled while the scheduler was suspended becomes ready and nobody else moves |
| KernelOps.DelayUntilDecidesExactly | FreeRTOS/tasks.c:675-698 | the wrapped comparisons let the task sleep iff one increment after the recorded time, read as the latest one with its counter value, is still to come |
| KernelOps.DelayUntilFromAhead | FreeRTOS/tasks.c:675-698 | a recorded wake time that is still ahead is read a turn of the counter too early: the task sleeps iff its wake time is more than a turn away |
| KernelOps.DelayUntilFromAheadExample | FreeRTOS/tasks.c:675-698 | such a call: at tick 160, with 200 recorded and an increment of 100, the task does not sleep |
| KernelOps.SuspendedExactly | FreeRTOS/tasks.c:962-994 | a task in the suspended list is told apart from one that waits for an event for ever |
| KernelOps.SwitchSelects | FreeRTOS/tasks.c:1700-1709 | the search finds a ready task, and no ready task has a higher priority |
| KernelOps.WaitersByPriority | FreeRTOS/tasks.c:1726-1729 | a waiting task is queued behind all waiters that are at least as urgent, so that a list in order of priority stays so |
| EventOrder.StepKeepsOrderExactly | FreeRTOS/tasks.c:867-895 | for every state of the invariant and every operation: with all event lists in order of rank before, they are so afterwards if and only if the operation is no setting or inheriting of a priority that gives a listed waiter a rank out of order with its neighbours |
| EventOrder.RunInOrderExactly | FreeRTOS/tasks.c:1799-1806 | along a run that starts in order all states are in order exactly as long as no operation is such a change |
| EventOrder.OrderLost | FreeRTOS/tasks.c:875 | a run from the start, given in full, that loses the order: a waiter raised to priority 5 stays behind one of priority 3, and the signal wakes that one |
| EventOrder.StepKeepsRanksExactly | FreeRTOS/tasks.c:859-875 | with every rank telling its task's priority before, each still does afterwards if and only if the operation is no setting of another base priority than the one it runs at for a task that runs at an inherited priority |
| EventOrder.RunTellsExactly | FreeRTOS/tasks.c:859-875 | likewise along runs |
| EventOrder.RankLost | FreeRTOS/tasks.c:859-875 | a run from the start after which a task that runs at priority 3 has the rank of priority 2 |
| EventOrder.SignalWakesMostUrgent | FreeRTOS/tasks.c:1799-1847 | what the order is for: in a run from the start in which neither has happened, a signal takes a waiter off the list that is at least as urgent as all others, and makes it ready, or pending while the scheduler is suspended |
| MissedYields.StepKeepsFlag | FreeRTOS/tasks.c:1665-1675 | nothing but a switch while the scheduler is suspended notes a missed yield, and nothing but an outermost resume clears it |
| MissedYields.FlagTellsExactly | FreeRTOS/tasks.c:1665-1675 | all along every run a missed yield is noted exactly if a switch was asked for while the scheduler was suspended and no outermost resume has followed |
| MissedYields.ResumeYieldsExactly | FreeRTOS/tasks.c:1194-1240 | in every run from the start, the outermost xTaskResumeAll asks for a yield if and only if a switch was asked for meanwhile, ticks were missed, or a task at least as urgent as the running one was signalled meanwhile; it owes none afterwards |
| TaskStates.StepRefines | FreeRTOS/tasks.c:597-1575 | every operation does to every task what a simple machine without lists says: a task can run, sleeps until an absolute time, is parked or has ended, and may wait for the event of a queue |
| TaskStates.RunRefines | FreeRTOS/tasks.c:597-1575 | so it goes all along every run from the start |
| KernelFairness.RunsWithinItsTurn | FreeRTOS/tasks.c:1700-1709 | over every run: a task that stays ready at the highest ready priority, n places from the front, is selected by one of the next n + 1 switches, whatever peers arrive or leave |
| KernelFairness.StepPlace | FreeRTOS/tasks.c:1700-1709 | no operation but a switch moves a ready task back in its list |
| KernelFairness.SwitchPlace | FreeRTOS/tasks.c:1700-1709 | a switch selects the task at the front of the highest ready list or brings the others one place forward |
| MutexRuns.HolderRunsAtDemand | FreeRTOS/queue.c:958-971 | in every state that runs of take, block, give and all kernel operations reach by harmless steps: a mutex is taken exactly when it has a holder; every task runs at the maximum of its base priority and the priorities of all tasks that blocked on a mutex it holds since it took it; each ready task is in the ready list of the priority it runs at |
| MutexRuns.DemandKeptExactly | FreeRTOS/tasks.c:2409-2462 | a step leaves every task at that maximum if and only if it is no give that leaves the holder another mutex in demand above its base priority, no setting of a base priority below the demands on a task that runs at it or above an inherited priority, and no creation of a task in the memory of a dead holder |
| MutexRuns.BlockersOfTenure | FreeRTOS/queue.c:881-886 | the demand counts exactly the blockings since the take: a take starts without any, each blocking adds the caller at its priority, nothing else changes them while the mutex is held |
| MutexRuns.GiveRestoresBasePriority | FreeRTOS/queue.c:1090-1101 | in every reachable state, giving a taken mutex back frees it, puts the former holder at its base priority and into the ready list of it, and takes the first waiter off the event list |
| MutexRuns.NothingInBetweenRuns | FreeRTOS/tasks.c:1700-1709 | what inheritance is for: when a ready holder competes for the processor, the selected task is at least as urgent as every task that blocked on its mutexes |
| MutexRuns.SiteStepKeepsInv | FreeRTOS/queue.c:846-971 | every step keeps the kernel invariant, and each mutex taken exactly when it has a holder |
| MutexRuns.SiteRunKeepsInv | FreeRTOS/queue.c:846-971 | so does every run |
| MutexRuns.SingleGiveIsHarmless | FreeRTOS/tasks.c:2449-2459 | a give by a holder of no other mutex is harmless |
| MutexRuns.LostByGive | FreeRTOS/tasks.c:2449-2459 | a run of harmless actions from the start, given in full, after which a give takes away the priority at which another task still waits for the holder's other mutex |
| MutexRuns.LostByLowering | FreeRTOS/tasks.c:859-871 | such a run after which lowering the holder's base priority puts it below the demand on it |
| MutexRuns.LostByRaising | FreeRTOS/tasks.c:859-871 | such a run after which raising the heir's base priority leaves it running below it |
| MutexImpl.MutexQueue.constructor | FreeRTOS/queue.c:302-349 | a mutex is created free |
| MutexImpl.MutexQueue.TryTake | FreeRTOS/queue.c:865-886 | taking succeeds iff the mutex is free, and is exactly the action Take of a run |
| MutexImpl.MutexQueue.Block | FreeRTOS/queue.c:958-974 | the holder inherits and the caller goes to the event list: exactly the actions StartBlocking and FinishBlocking of a run |
| MutexImpl.MutexQueue.Give | FreeRTOS/queue.c:477-504 | giving succeeds iff the mutex is taken, and is exactly the action Give of a run |
| MutexImpl.MutexQueue.Free | FreeRTOS/queue.c:1090-1101 | disinherits the holder, clears it, counts the mutex free and wakes the first waiter |
| PriorityInheritance.StepKeepsPriorities | FreeRTOS/tasks.c:2409-2462 | no operation but the three on priorities changes a task's priorities |
| PriorityInheritance.InheritedPriorities | FreeRTOS/tasks.c:2409-2436 | inheritance is a maximum and leaves the base priority alone |
| Timeouts.TimeOut.SetTimeOutState | FreeRTOS/tasks.c:1850-1855 | records the wrapped tick and the wrapped rollover count |
| Timeouts.TimeOut.CheckForTimeOut | FreeRTOS/tasks.c:1858-1901 | answers and stores what the specification on absolute time says |
| Timeouts.ReportsExactly | FreeRTOS/tasks.c:1870-1896 | a finite limit is reported as passed exactly when it has passed, unless the counter went round, the rollover count does not show it and the wrapped elapsed time is below the limit: if and only if |
| Timeouts.MissedExample | FreeRTOS/tasks.c:1880-1890 | a concrete wait whose timeout is missed |
| Timeouts.OneRolloverIsExact | FreeRTOS/tasks.c:1880-1890 | with at most one rollover between two checks no timeout is missed |
| Timeouts.ForeverNeverTimesOut | FreeRTOS/tasks.c:1871-1876 | a task that waits for ever never times out |
| Timeouts.Conserved | FreeRTOS/tasks.c:1883-1890 | entry time plus remaining wait is the same before and after a check that lets the caller go on |
| Timeouts.RetriesKeepTheDeadline | FreeRTOS/queue.c:519-539 | over any sequence of retries the timeout is reported by the first check at or after the original deadline |
| QueueImpl.Queue.constructor | FreeRTOS/queue.c:249-297 | an empty queue of any length and item size, or a counting semaphore with its initial count |
| QueueImpl.Queue.Create | FreeRTOS/queue.c:249-297 | no queue is made for length zero |
| QueueImpl.Queue.CopyDataToQueue | FreeRTOS/queue.c:1088-1123 | on the byte ring: to the back appends, to the front prepends, for any length and item size |
| QueueImpl.Queue.CopyDataFromQueue | FreeRTOS/queue.c:1126-1137 | on the byte ring: reads the front item and moves the read position onto it |
| QueueImpl.Queue.TrySend | FreeRTOS/queue.c:477-504 | a send succeeds iff there is room; contents and wake-up as specified; yields iff the woken receiver is at least as urgent |
| QueueImpl.Queue.TryReceive | FreeRTOS/queue.c:865-933 | a receive removes the front item, a peek leaves the contents as they were; fails iff empty; yields iff the woken task is at least as urgent |
| QueueImpl.Queue.SendFromISR | FreeRTOS/queue.c:789-843 | an interrupt's send, on a locked or an unlocked queue; reports iff it woke a task at least as urgent |
| QueueImpl.Queue.ReceiveFromISR | FreeRTOS/queue.c:996-1044 | an interrupt's receive, likewise |
| QueueImpl.Queue.LockQueue | FreeRTOS/queue.c:229-242 | both lock counts start at zero unless already in use |
| QueueImpl.Queue.UnlockQueueTx | FreeRTOS/queue.c:1148-1174 | the loop that wakes receivers for counted messages; notes a missed yield iff one of them is at least as urgent |
| QueueImpl.Queue.UnlockQueueRx | FreeRTOS/queue.c:1177-1199 | the loop that wakes senders for counted free places; likewise |
| QueueImpl.AppendItem | FreeRTOS/queue.c:1105-1112 | writing the slot behind the last message appends exactly that item to the contents |
| QueueImpl.PrependItem | FreeRTOS/queue.c:1114-1120 | writing the slot at the read position and stepping back prepends exactly that item |
| QueueSignals.UnlockTxServes | FreeRTOS/queue.c:1148-1174 | unlocking pays every counted message out to waiting receivers or leaves none waiting |
| QueueSignals.UnlockRxServes | FreeRTOS/queue.c:1177-1199 | likewise for senders and free places |
| QueueSignals.UnlockTxLeaves | FreeRTOS/queue.c:1148-1174 | unlocking takes the first waiters off the list, as many as were counted |
| QueueSignals.UnlockTxWakes | FreeRTOS/queue.c:1148-1174 | the tasks woken by unlocking are exactly those first waiters |
| QueueSignals.UnlockRxLeaves | FreeRTOS/queue.c:1177-1199 | unlocking takes the first waiting senders off the list, as many as were counted |
| QueueSignals.UnlockRxWakes | FreeRTOS/queue.c:1177-1199 | the senders woken by unlocking are exactly those first waiters |
| QueueSignals.InterruptsServe | FreeRTOS/queue.c:789-843 | an interrupt wakes a waiter or leaves a count, so that nobody is left unserved |
| QueueProtocol.NoLostWakeUps | FreeRTOS/queue.c:464-580 | over every interleaving of task steps, interrupts and ticks: if a task waits for a message that is there, or for a free place that is there, a woken task is on its way to take it |
| QueueProtocol.WakeUpsCoverTheQueue | FreeRTOS/queue.c:464-580 | in every reachable state, locked or not: as long as tasks wait to receive there are no more messages than receivers woken for them or arrivals counted for the unlock, likewise for senders and free places, and all those woken will retry |
| QueueProtocol.StepKeepsInv | FreeRTOS/queue.c:846-993 | every step of a blocking send, receive or peek, every interrupt and every expiry keeps the protocol invariant |
| QueueProtocol.BlockedCallWaits | FreeRTOS/queue.c:954-971 | a call that finds the queue still empty, or full, goes to wait: in whatever interleaving, before the task is out of the locked section again it has been on the event list |
| QueueProtocol.OnlyBlockedCallsWait | FreeRTOS/queue.c:952-983 | only such a call does |
| QueueProtocol.TimeUpEndsTheCall | FreeRTOS/queue.c:985-991 | a call whose time is up ends at the first point that it comes to outside the locked section |
| QueueProtocol.TimeIsChecked | FreeRTOS/queue.c:948-952 | no call goes to wait, or round again, without having looked at the time |
| QueueProtocol.CallEndsOnly | FreeRTOS/queue.c:858-993 | a call ends only by proceeding, by finding nothing when it may not wait, or after its time was found to be up in the present stay in the locked section |
| QueueProtocol.TryEndsExactly | FreeRTOS/queue.c:865-937 | a look at the queue ends the call if and only if there is something to proceed with or the call may not wait, and takes or leaves exactly what the call is for |
| QueueProtocol.BeginsAndExpires | FreeRTOS/queue.c:846-858 | a call begins as itself and leaves the queue alone; a tick that ends a wait takes that task, and no other, off the list |
| QueueProtocol.InterruptsExactly | FreeRTOS/queue.c:789-843 | an interrupt moves a message unless the queue is full or empty, and on a locked queue leaves a count instead of a woken task |
| QueueProtocol.ReceivesAfterWaiting | FreeRTOS/queue.c:846-993 | a whole receive on an empty queue, given in full: the task goes to wait, an interrupt sends while the queue is still locked, unlocking wakes the task, and its second look succeeds |
| QueueProtocol.TryServes | FreeRTOS/queue.c:865-933 | a retry takes away from the demand what it takes away from the count; a peek wakes the next receiver instead |
| QueueProtocol.PlaceServes | FreeRTOS/queue.c:541-546 | a task that goes onto an event list has found nothing that was not counted since the lock |
| RecursiveMutex.StepKeepsInv | FreeRTOS/queue.c:351-433 | between any two steps the count is 0 exactly when a holder is recorded, and the call count is takes minus gives |
| RecursiveMutex.Exclusion | FreeRTOS/queue.c:351-433 | over every run: a task with more takes than gives is the holder, nobody else can take the mutex, and a give or take by anybody else changes nothing |
| RecursiveMutex.FreedByMatchingGives | FreeRTOS/queue.c:361-388 | the holder keeps the mutex through all gives but the matching last one, which frees it |
| RecursiveMutex.TakesExactly | FreeRTOS/queue.c:400-433 | a take succeeds exactly if nobody or the caller holds the mutex; it then makes the caller the holder, one take deeper, and otherwise changes nothing |
| RecursiveMutex.TakesCount | FreeRTOS/queue.c:400-433 | from a free mutex, n takes by one task make it the holder with call count n |
| RecursiveMutex.FreeAgain | FreeRTOS/queue.c:351-433 | a whole use: n takes, n gives and the return that the last one performs free the mutex again, and whoever comes next obtains it |
| Timers.DecidesExactly | FreeRTOS/timers.c:452-490 | for a command less than a full turn old: processed now iff expired, else into the current list iff the expiry is in the epoch of now, else into the overflow list |
| Timers.ChangedPeriodIsAhead | FreeRTOS/timers.c:549-553 | the insertion after a change of period never finds the timer expired, so that ignoring its result loses no callback |
| Timers.FireHeadProgresses | FreeRTOS/timers.c:580-615 | the sum of what is left to the rollover, then the length, decreases: the loop of prvSwitchTimerLists ends |
| Timers.CommandProgresses | FreeRTOS/timers.c:504-562 | draining the command queue ends although it adds to the queue |
| TimerServiceImpl.TimerService.Create | FreeRTOS/timers.c:205-241 | a timer with period zero is refused |
| TimerServiceImpl.TimerService.SendCommand | FreeRTOS/timers.c:244-278 | a command is appended unless the queue is full |
| TimerServiceImpl.TimerService.InsertTimerInActiveList | FreeRTOS/timers.c:452-490 | inserts into the list that the decision names and reports whether the timer must be processed at once |
| TimerServiceImpl.TimerService.SwitchTimerLists | FreeRTOS/timers.c:566-620 | the loop and the swap do what the recursive specification says |
| TimerServiceImpl.TimerService.SampleTimeNow | FreeRTOS/timers.c:429-449 | switches the lists exactly when the sampled tick is below the last one |
| TimerServiceImpl.TimerService.ProcessExpiredTimer | FreeRTOS/timers.c:294-327 | the head of the current list is fired and, if it reloads, reinserted relative to its expiry |
| TimerServiceImpl.TimerService.ProcessTimerOrBlockTask | FreeRTOS/timers.c:354-400 | processes the first timer iff it has expired and the lists were not switched; if neither, waits until the next expiry time |
| TimerServiceImpl.TimerService.ProcessReceivedCommands | FreeRTOS/timers.c:493-563 | drains the command queue as the recursive specification says |
| TimerRuns.AutoReloadExactly | FreeRTOS/timers.c:294-400 | over every run in which a few rounds take less than a turn of the counter: an auto-reload timer has exactly one token of its next expiry; when nothing is expired the number of callbacks is the number of expiries so far |
| TimerRuns.NoCallbackIsEarly | FreeRTOS/timers.c:354-384 | over every such run: the k-th callback is not run before its expiry, first expiry plus (k - 1) periods, by the very sample, of the timers or of the commands, that runs it |
| TimerRuns.NoCallbackIsLate | FreeRTOS/timers.c:330-351 | over every such run: after any round, every expiry up to the first sample of as many rounds ago as there are timers has had its callback |
| TimerRuns.WaitsForNextExpiry | FreeRTOS/timers.c:378-391 | the time that the task waits for a command ends exactly at the next expiry of any timer, or, if none is in this epoch, at the rollover |
| TimerRuns.SwitchFiresToRollover | FreeRTOS/timers.c:580-619 | before the swap each remaining timer is fired once for every expiry before the rollover and for none after it |
| TimerRuns.SwitchFiresOneShotOnce | FreeRTOS/timers.c:580-619 | a one-shot timer left in the current list is fired exactly once before the swap |
| TimerRuns.SampledKeeps | FreeRTOS/timers.c:429-449 | both lists keep their epoch meaning across a sample that crosses at most one rollover |
| TimerRuns.ProcessedExpiredKeeps | FreeRTOS/timers.c:294-327 | firing an expired timer moves its single token on by one period |
| TimerRuns.ProcessedCommandKeeps | FreeRTOS/timers.c:531-548 | processing a queued start keeps the single token at the exact next expiry |
| TimerRuns.QueueHasRoom | FreeRTOS/timers.c:318-322 | the command queue is never full when it has a place for each timer |
| TimerRuns.InitialHolds | FreeRTOS/timers.c:205-278 | timers started by queued commands satisfy what runs start from |
| TimerCommands.StopLeavesNothing | FreeRTOS/timers.c:511-544 | after a stop the timer is in neither list and all else is as before |
| TimerCommands.DeleteLeavesNothing | FreeRTOS/timers.c:511-556 | after a delete likewise, and the timer is no more |
| TimerCommands.ChangedPeriodExactly | FreeRTOS/timers.c:546-550 | after a change of period the timer has the new one and is listed once, to expire exactly one new period after the sampled time, in the list of that epoch |
| TimerCommands.StartedExactly | FreeRTOS/timers.c:524-539 | after a start or restart a timer that has yet to expire is listed once, at the exact time, however it was listed before; one that has expired is fired and, if it reloads and the queue has room, asks to be started from that expiry |
| TimerCommands.NeverListedTwice | FreeRTOS/timers.c:504-562 | whatever is commanded, in whatever order, no timer is ever listed twice |
| FlashTable.Store.Mount | FLASH/flashstore.c:304-325 | after a restart the scan finds the end of any table, and the bound of the full test is that of a restart |
| FlashTable.Store.FindOldEntry | FLASH/flashstore.c:471-477 | finds the first entry of the identifier iff there is one |
| FlashTable.Store.ProgramNewEntry | FLASH/flashstore.c:489-510 | after every programmed byte the table is one in which the variable has its old or its new value and all others are unchanged |
| FlashTable.Store.WriteNoRecovery | FLASH/flashstore.c:453-522 | the new value is stored, all others are unchanged, after every programmed byte a restart would read the old or the new value, the fourth byte leaves the new entry beside the old one, and identifiers stay unique |
| FlashTable.Store.ReadInt | FLASH/flashstore.c:591-640 | reads the last entry of the variable; retiring earlier ones changes no value, not even if power fails in between |
| FlashTable.Store.CopyLive | FLASH/flashstore.c:368-412 | compaction into an erased block yields a table with the same values and only live entries |
| FlashTable.Store.WriteInt | FLASH/flashstore.c:749-782 | the value is read back modulo 2^16, all others are unchanged, with or without a compaction; after every byte programmed into the table in use, which is the compacted one after a compaction, the variable has its old or its new value and all others are unchanged; runs out of the block exactly if the table is full before and after the compaction |
| FlashTable.Store.RestartAndRead | FLASH/flashstore.c:304-325 | whichever of the states that a write goes through a power failure leaves behind: after a restart the variable reads as its old or its new value and every other variable as before |
| FlashTable.OverrunExactly | FLASH/flashstore.c:761-776 | a table is full after a compaction exactly if 511 entries are in use, at least 257 of them duplicates that power failures kept from being retired |
| FlashTable.AppendedAddsLive | FLASH/flashstore.c:507-517 | a write that loses power just before it retires the old entry adds a live entry, and no new identifier if the variable was there |
| FlashTable.InterruptedFills | FLASH/flashstore.c:761-776 | such tables arise: 511 writes of one variable into an erased block that all lose power there leave 511 live entries, and a table that a compaction leaves full |
| FlashTable.FullExactly | FLASH/flashstore.c:180-190 | behind any number of entries the full test is exactly that an entry still fits, with the bound of a restart and with that of a compaction, which is one lower; the writer's own test alone would let an entry end two bytes outside, or one |
| FlashTable.CollectionMakesRoom | FLASH/flashstore.c:764-775 | with unique identifiers there are at most 254 live entries, so that a compacted table is not full |
| FlashTable.UniqueKept | FLASH/flashstore.c:471-517 | a write that runs to its end keeps at most one live entry per identifier |
| FlashTable.ProgramId | FLASH/flashstore.c:507-510 | programming the identifier byte switches from the old to the new value in one go |
| Bitmaps.SetBitAdds | co2/scan.c:204-205 | setting a bit adds exactly that identifier to the set |
| Bitmaps.ClearBitRemoves | co2/scan.c:434-435 | clearing a bit removes exactly that identifier |
| NodeDb.CheckedKeeps | co2/scan.c:181-212 | adding a node or finding a conflict keeps db_online equal to the identifiers in the table |
| NodeDb.CheckedExactly | co2/scan.c:181-212 | who is in the table and what is marked after a node has been reported: an unknown node comes in; another node's entry goes, or with plug and play stays and its identifier is marked; the master's stays |
| NodeDb.ConflictingExactly | co2/scan.c:239-251 | who is in the table and what is marked after several nodes have answered for one identifier: without plug and play its entry goes, unless it is the master's |
| NodeDb.RemovedKeeps | co2/scan.c:429-451 | so does removing one |
| NodeDb.MasterChangedKeepsExactly | co2/scan.c:480-491 | changing the master's identifier keeps the database consistent if and only if no other entry has the new one |
| NodeDb.TableSize | co2/scan.c:10-17 | the table has as many entries as there are identifiers online |
| NodeScan.Scanner.constructor | co2/scan.c:378-404 | the database starts with the master alone |
| NodeScan.Scanner.RemoveIdFromDb | co2/scan.c:429-451 | the shifting loop removes exactly one entry, keeps the order of the others, and clears both bits |
| NodeScan.Scanner.CheckIdInDatabase | co2/scan.c:181-212 | adds an unknown identifier, marks or removes one with a different serial number |
| NodeScan.Scanner.BinSearch | co2/scan.c:214-292 | with truthful answers and finitely many busy ones the search ends, leaves every singly used identifier of the range online (with its serial number or marked) and every multiply used one marked, touches nothing outside the range, and has at most one entry for each identifier known before or used by a device; without plug and play, an identifier that several devices use, other than the master's, ends without an entry, one of a single device is online only with its entry, and that entry is there unless another node had the identifier before |
| NodeScan.Scanner.GetIdleId | co2/scan.c:170-179 | the smallest identifier from 1 to 19 that is neither online nor marked, or 0xff iff there is none |
| NodeScan.Scanner.DealWithConflicts | co2/scan.c:294-361 | ends although the try counter wraps, and no known node is lost; given that answers come from nodes with the identifier asked for: a mark is left exactly where all answers for it keep it, the table holds exactly the known nodes and those that the answers bring in, every device is in its place, or known where it was moved, and unless the idle identifiers run out every disputed identifier is asked for |
| NodeScan.Scanner.AskOne | co2/scan.c:313-355 | one question for a disputed identifier: the mark stays exactly for an answer that shows several nodes without naming one, or with plug and play a node other than the known one; no answer and a busy bus clear it |
| NodeScan.Scanner.SettleReply | co2/scan.c:327-346 | whatever identifier the reply carries: the mark comes back iff the identifier is known for another node, with plug and play; the idle identifier comes in iff its node is still disputed and acknowledges it; nothing else changes |
| NodeScan.Scanner.ScanSubNodes | co2/scan.c:364-376 | with plug and play the search leaves every device found or its identifier marked, without it no identifier that several devices use, but the master's, is online; after settling an identifier is so in the final database, with the devices where they then are, if and only if it was not marked, or all answers keep its mark, or the answers account for every device that had it |
| NodeScan.MarksStep | co2/scan.c:313-355 | each answer keeps it true that a mark is left exactly where all answers keep it, and that the entries of a marked identifier are as they were |
| NodeScan.CensusStep | co2/scan.c:327-346 | each answer keeps the account of who is in the table and where the devices are |
| NodeScan.DeviceLost | co2/scan.c:327-355 | a population of two devices with one identifier, and truthful answers, that lose one of them: the known device answers first, or the bus is busy, and the other one ends neither known nor marked |
| NodeScan.BothFound | co2/scan.c:327-355 | the same population with answers that find both |
| NodeScan.Scanner.CheckMasterId | co2/scan.c:453-478 | ends, and gives the first identifier in search order that no other node has |
| NodeScan.Scanner.ModifyMasterId | co2/scan.c:480-491 | the master's entry gets the new identifier and keeps its serial number; every other entry, all marks and the online state of every other identifier stay as they are |
| NodeScan.SomeIdIsFree | co2/scan.c:453-478 | some identifier is always free for the master |

## Left out

- FreeRTOS/croutine.c and the co-routine and alternative queue calls (FreeRTOS/queue.c:583-786): variants of what is modelled, and switched off here.
- Stack set-up, memory allocation, MPU regions, trace and run-time statistics, vTaskList and the queue registry: specific to the port or for debugging.
- Starting and ending the scheduler, and creating, deleting or suspending tasks before it runs: the model starts with the scheduler running and one task created.
- The yields that the operations of tasks.c ask for, where the source returns nothing to tell of them: a switch is a step of its own that may come at any time.
- KernelImpl.Kernel.constructor: the lists that prvInitialiseTaskLists sets up and the first task are one step, after which the scheduler runs.
- KernelImpl.Kernel: its lists are sequences in the order of Lists.Fifo, not heap lists; ReadyLists and DelayedLists prove for the ready and the delayed lists that heap lists behave so, and the suspended, pending, termination and event lists rest on Lists alone.
- QueueProtocol.NoLostWakeUps: a task woken by an event and then suspended or deleted before it retries is not in the protocol, and one task's calls on several queues are taken one queue at a time; event lists are inserted into at any position, which covers the priority order.
- QueueImpl.Queue.UnlockQueueTx: the lock counts are unbounded, so that more than 2^31 interrupts during one lock are not covered.
- QueueImpl.Queue.UnlockQueueRx: likewise.
- QueueImpl.Queue.constructor: creation of a mutex is MutexImpl.MutexQueue.constructor instead.
- QueueImpl.Queue.CopyDataToQueue: the branch for mutexes is MutexImpl.MutexQueue.Free instead.
- QueueImpl.Queue.CopyDataFromQueue: the test for mutexes, from which nothing is copied, is left out.
- QueueImpl.Queue.TryReceive: recording the mutex holder is in MutexImpl.MutexQueue.TryTake instead.
- MutexRuns.HolderRunsAtDemand: a give while the holder is not ready, which the source does not check for although its comment rules it out (FreeRTOS/tasks.c:2451), and blocking on a mutex whose holder has been freed, are no steps of a run. That a blocking call gives up when its time is over is the tick that readies the waiter; what it passed on stays with the holder, as in the source.
- MutexImpl.MutexQueue.Give: asks for a recorded holder that is ready, as the comment at FreeRTOS/tasks.c:2451 does and the code does not check.
- vTaskPlaceOnEventListRestricted (FreeRTOS/tasks.c:1767-1795): puts the only waiter of the timer service's queue at the end of its event list.
- RecursiveMutex.Exclusion: waiting for the mutex is not part of it; a take that cannot succeed at once changes nothing and may be tried again.
- TimerRuns.AutoReloadExactly: no commands from outside the service while it runs; what a single stop, delete, change of period or restart does is in TimerCommands.
- TimerServiceImpl.TimerService.SendCommand: the block time that a caller may allow for a full queue is left out; the service itself sends without one.
- TimerServiceImpl.TimerService.ProcessTimerOrBlockTask: returns how long the task waits for a command; the waiting itself is the scheduler's.
- FlashTable.Store: block selection, the address shifts (FLASH/flashstore.c:223 and FLASH/flashstore.c:353 disagree), erasing (commented out at FLASH/flashstore.c:360) and retries after programming errors.
- FlashTable.Store.WriteInt: identifiers 254 and 255, whose stored bytes are the erased and the retired marker; what is programmed behind the end of the block when it overruns.
- FlashTable.Store.RestartAndRead: what the power failure left is given; that a write leaves nothing else behind is stated by FlashTable.Store.WriteInt. Compaction programs the other block only; which block a restart selects is left out.
- NodeScan.Scanner: the room in scan_db, whose bound the source does not check, is not modelled; NodeScan.Scanner.BinSearch says how much is needed. Replies, checksums and the UART are replaced by the answers of the bus, the current_online and get_para bitmaps are left out.
- Menus, display, keys, network stacks, start-up code, sensors and controllers: user interface, I/O, finite tables or single clamps.

# FreeRTOS kernel model

Dafny models of the FreeRTOS V9.0.0 kernel in this repository, and proofs about them: the
scheduler (`FreeRTOS/src/tasks.c`), queues, mutexes and their blocking protocol
(`FreeRTOS/src/queue.c`), event groups (`FreeRTOS/src/event_groups.c`), the kernel lists
(`FreeRTOS/src/list.c`, `FreeRTOS/include/list.h`) and co-routines (`FreeRTOS/src/croutine.c`).

`dafny verify dfyconfig.toml` verifies the project.

## How it is built

- **Lists.** `IntrusiveList` is the circular list on its pointers. `KernelLists` is its value,
  a sequence and a walk index; `WalkOrder` reasons about turns; `ListHeap` is all lists of one
  scheduler together with the container of each item, and `PointerLists` proves that many
  lists on pointers, with items that move between them, are just that.
- **Scheduler.** `Scheduler` says as functions what each operation makes of the state;
  `TaskScheduler` is the code of `tasks.c` as a class whose methods, with the source's loops,
  are proved to do just that. `SchedulerInvariant`, `SchedulerSteps`, `SchedulerOperations`,
  `SchedulerTasks` and `SchedulerRuns` prove the invariant over all runs, and `SchedulerStart`
  that every start-up leads to such a run. `SchedulerTime` proves that the modular tick count
  and the two delayed lists implement one timeline of unbounded wake times;
  `SchedulerDeadlines`, `SchedulerDeferral`, `SchedulerAccounts` and `SchedulerFrames` draw
  consequences. `SchedulerEffects`, `SchedulerWaiters` and `SchedulerSwitches` say of every
  operation where its task is afterwards, when a switch is asked for, and who runs next. `SchedulerLoops` relates loops over list heads to the
  lists they start from. `Timeouts` is about clocks that wrap. `SchedulerScenes` works out
  short runs from the start, for the lemmas that show a failing input.
- **Queues.** `QueueStorage` is the byte ring buffer; `QueueControl` the counters and waiting
  lists; `QueueProtocol` the interleavings of tasks and interrupts, one step per critical
  section; `QueueLedger` keeps account of messages and sleepers. `Mutexes` and `MutexQueue` put
  mutexes on top of the scheduler, and `MutexService` is about those who wait for them. `EventOrder`
  says whom a waiting list serves, and `EventOrderLimits` where it serves the wrong one.
- **Event groups.** `EventBits` is the bit layout, `EventGroups` and `EventGroup` the calls as
  functions and as a class, `EventSnapshots` what the traversal amounts to, `EventResults` what the
  calls return.
- **Co-routines.** `Coroutines`, `CoroutineEffects` and `CoRoutineScheduler`: a wheel of the same
  make.

A critical section, or a stretch of code that runs with the scheduler suspended and touches
nothing an interrupt can touch, is one step. A step is possible only where the source's
assertions hold; those that do not speak of the caller (`SwitchDelayedLists`, the scan in
`SwitchContext`, `Mutexes.GiverHolds`) are proved. `TICK_MODULUS` is 2^16 or 2^32 and
`MAX_PRIORITIES` any number below 2^15; every statement holds for all of them.
Settings: preemption and time slicing on, mutexes on, `INCLUDE_vTaskSuspend` and
`INCLUDE_vTaskDelete` 1, generic task selection, no tickless idle, no queue sets.

## Where the code does less than it seems to

- A walk over a list can be delayed: `WalkOrder.RemovalThenInsertionDelays` says when.
- A zero-size queue that is overwritten while full counts past its length
  (`QueueStorage.SentFitsExactly`, `QueueStorage.OverwriteSemaphoreTwice`).
- The lock counters are `int8_t`; 128 posts in one lock interval lose wake-ups
  (`QueueProtocol.PostKeepsAccountsExactly`, `QueueProtocol.TooManyPostsLoseAWakeUp`).
- Deleting or suspending a task that waits for clean-up breaks the clean-up count
  (`SchedulerRuns.DeletionKeepsCountsExactly`, `SchedulerRuns.DeletedTwice`).
- A timeout check or a periodic delay that comes a full turn late can go wrong
  (`Timeouts.CheckIsRightExactly`, `Timeouts.LateCheckMissesTimeout`,
  `Timeouts.UntilIsRightExactly`, `Timeouts.LateCallSleepsAgain`); so can a co-routine check
  (`Coroutines.CheckCatchesUpExactly`, `Coroutines.CheckMissesAFullTurn`).
- Setting a base priority above an inherited one leaves a task below its base priority
  (`Mutexes.PrioritySetKeepsOrderExactly`, `Mutexes.PriorityBelowBase`).
- Setting the base priority of a task that runs at an inherited one leaves a wrong value in
  its event item. When it then waits, a task of lower priority is served before it
  (`EventOrder.PrioritySetFaithfulExactly`, `EventOrderLimits.WrongWaiterIsServed`).
- Priority calls on a waiting task rewrite its value in place and can unsort its list
  (`EventOrderLimits.PrioritySetKeepsListExactly`, `EventOrderLimits.InheritKeepsListExactly`,
  `EventOrderLimits.PriorityCallUnsorts`).

## Model

| member | source | states |
|---|---|---|
| `IntrusiveList.List.constructor` | FreeRTOS/src/list.c:79-101 | A new list is well linked and empty, its index on the end marker. |
| `IntrusiveList.List.InsertEnd` | FreeRTOS/src/list.c:116-142 | On the pointers, the new item goes just before the walk index: both link directions, the containers, the count and the index stay right. |
| `IntrusiveList.List.InsertionPoint` | FreeRTOS/src/list.c:164-197 | The search ends, also for the value of the end marker, at the node after which a stable insertion belongs. |
| `IntrusiveList.List.Insert` | FreeRTOS/src/list.c:145-209 | On the pointers, inserts in ascending order behind all equal values; links, containers, count and index stay right. |
| `IntrusiveList.List.Remove` | FreeRTOS/src/list.c:212-238 | On the pointers, takes the item out of the list it is in, moves a walk index off it, and returns the number of items left. |
| `IntrusiveList.List.OwnerOfNextEntry` | FreeRTOS/include/list.h:318-329 | Steps the index, skipping the end marker, and returns the owner of the item it then rests on. |
| `PointerLists.Store.LinkEnd` | FreeRTOS/src/list.c:116-142 | Among many lists on pointers: an item that is in none goes into one, before its index; links, containers and order of all lists are then what ListHeap says, so all others are as they were. |
| `PointerLists.Store.LinkSorted` | FreeRTOS/src/list.c:145-209 | The same for ordered insertion, by the values the items have at that moment. |
| `PointerLists.Store.Unlink` | FreeRTOS/src/list.c:212-238 | The same for removal: the item's own container pointer names the one list that changes. |
| `PointerLists.Store.Step` | FreeRTOS/include/list.h:318-329 | The walk on one of the lists moves on, returns the task of the item it comes to, and leaves all else alone. |
| `PointerLists.Store.SetValue` | FreeRTOS/include/list.h:239 | A new value for an item, in a list or not, changes no list. |
| `PointerLists.Store.AddList` | FreeRTOS/src/list.c:79-101 | A new list is empty and shares nothing with the others. |
| `PointerLists.Store.AddItem` | FreeRTOS/src/list.c:104-113 | A new item is in no list. |
| `PointerLists.Store.MoveState` | FreeRTOS/src/tasks.c:259-263 | An item leaves the list it is in and goes to the end of another: both change as the scheduler's functions say, and no third one does. |
| `PointerLists.Store.MoveTimed` | FreeRTOS/src/tasks.c:4692-4763 | An item leaves its list and goes into another in order of a new value. |
| `PointerLists.Store.ViewIsWf` | FreeRTOS/src/list.c:104-113 | In every state of the pointers, containers and lists agree and no list holds an item twice. |
| `PointerLists.NamedRemove` | FreeRTOS/src/list.c:212-238 | Removing a node from a list of nodes is removing its item from the list of items. |
| `KernelLists.InsertSortedIsStable` | FreeRTOS/src/list.c:156-197 | Ordered insertion keeps the list sorted, puts the item behind exactly those with values not greater, and moves nobody else. |
| `WalkOrder.FullRoundReturnsEachOnce` | FreeRTOS/include/list.h:303-329 | As many selections as there are items return each item exactly once and leave the list as it was. |
| `WalkOrder.SelectionBringsNearer` | FreeRTOS/include/list.h:318-329 | A selection returns an item or brings it exactly one turn nearer. |
| `WalkOrder.InsertionDelaysOnlyTheCurrentItem` | FreeRTOS/src/list.c:126-141 | An insertion at the end delays an item exactly when the walk index rests on it. |
| `WalkOrder.RemovalNeverDelays` | FreeRTOS/src/list.c:212-238 | A removal of another item never delays an item; it brings it nearer exactly when the removed one came first. |
| `WalkOrder.WaitIsBounded` | FreeRTOS/include/list.h:318-329 | Over any run that does not return an item, its distance plus the selections made is at most the distance it had plus the insertions made while the index rested on it. |
| `WalkOrder.ApproachCannotBeOvertaken` | FreeRTOS/include/list.h:318-329 | Once the walk has passed the end marker and not yet reached an item, nothing inserted or removed delays it: it is returned by the selection its distance names. |
| `WalkOrder.EveryWalkApproaches` | FreeRTOS/include/list.h:318-329 | A run that selects more often than there are items left before the end marker has returned an item or comes to approach it. |
| `WalkOrder.RemovalThenInsertionDelays` | FreeRTOS/src/list.c:225-228 | The exact case in which a removal and then an insertion let a new item in before an old one: the removed item was current and the old one stood just before it. |
| `WalkOrder.DistanceCanGrow` | FreeRTOS/src/list.c:225-228 | A concrete list on which that happens, so the distance to an item can grow. |
| `QueueStorage.WriteFollowsRead` | FreeRTOS/src/queue.c:279-292 | The slot after the last message is (read + 1 + count) mod length. |
| `QueueStorage.Queue.constructor` | FreeRTOS/src/queue.c:386-425 | A new queue of any length and item size is valid and empty. |
| `QueueStorage.Queue.CopyToBack` | FreeRTOS/src/queue.c:1723-1734 | At byte level, a send to the back appends one message to the queued sequence. |
| `QueueStorage.Queue.CopyToFront` | FreeRTOS/src/queue.c:1735-1771 | At byte level, a send to the front prepends; an overwrite of a queue of length 1 replaces what was there. |
| `QueueStorage.Queue.CopyDataToQueue` | FreeRTOS/src/queue.c:1697-1773 | Every copy into the queue acts on the sequence of messages as its position says; the count stays within the length unless a zero-size queue is overwritten while full. |
| `QueueStorage.SentFitsExactly` | FreeRTOS/src/queue.c:1704-1773 | A send leaves at most as many messages as the queue has slots exactly when it is not an overwrite of a full queue of item size zero. |
| `QueueStorage.OverwriteSemaphoreTwice` | FreeRTOS/src/queue.c:1704-1773 | A new queue of length 1 and size 0 that holds two messages after two overwrites. |
| `QueueStorage.Queue.CopyDataFromQueue` | FreeRTOS/src/queue.c:1776-1791 | Copying out returns the oldest message and steps the read pointer on, round the end. |
| `QueueStorage.Queue.Send` | FreeRTOS/src/queue.c:746-778 | A send fails on a full queue and otherwise changes the sequence of messages as its position says. |
| `QueueStorage.Queue.Receive` | FreeRTOS/src/queue.c:1262-1318 | A receive removes the oldest message and returns it; a peek returns it and leaves pointer, count and messages as they were. |
| `QueueControl.Queue.TrySend` | FreeRTOS/src/queue.c:739-840 | The critical section of a send: it passes exactly when there is room or it overwrites, and then wakes one receiver. |
| `QueueControl.Queue.TryReceive` | FreeRTOS/src/queue.c:1258-1340 | The critical section of a receive or peek: it passes exactly when there is a message, and wakes one sender, or one more receiver after a peek. |
| `QueueControl.Queue.Lock` | FreeRTOS/src/queue.c:264-276 | Locking starts each counter that is not running yet. |
| `QueueControl.Queue.UnlockTx` | FreeRTOS/src/queue.c:1801-1876 | Unlocking wakes one receiver per counted post, until the list is empty, and stops the counter. |
| `QueueControl.Queue.UnlockRx` | FreeRTOS/src/queue.c:1882-1910 | Unlocking wakes one sender per counted removal, until the list is empty, and stops the counter. |
| `QueueControl.Queue.SendFromISR` | FreeRTOS/src/queue.c:952-1064 | An interrupt posts when there is room or it overwrites, which adds a message unless the queue was full, and wakes a receiver or, on a locked queue, only counts; the count is an int8_t. |
| `QueueControl.Queue.ReceiveFromISR` | FreeRTOS/src/queue.c:1462-1516 | An interrupt removes a message when there is one, and wakes a sender or, on a locked queue, only counts. |
| `QueueProtocol.StepKeepsInv` | FreeRTOS/src/queue.c:723-918 | Every step of every task and interrupt keeps the accounts of messages, spaces, sleepers, woken tasks and counters, as long as no interrupt counts past 127. |
| `QueueProtocol.RunKeepsInv` | FreeRTOS/src/queue.c:723-918 | So does every run, whatever the interleaving. |
| `QueueProtocol.NoLostWakeUp` | FreeRTOS/src/queue.c:1237-1431 | Over all interleavings on a new queue: messages in front of a sleeping receiver are matched by woken tasks and counted posts, dually for senders; once the queue is unlocked and woken tasks have tried again nobody sleeps on a queue it could use. |
| `QueueProtocol.PostKeepsAccountsExactly` | FreeRTOS/src/queue.c:952-1064 | In every state, a post by an interrupt keeps the accounts of sleepers, messages and wake-ups exactly when the count is below 127, or nothing is posted, or no receiver sleeps, or the woken tasks alone match the messages. |
| `QueueProtocol.RemovalKeepsAccountsExactly` | FreeRTOS/src/queue.c:1462-1516 | The dual for a removal by an interrupt and sleeping senders. |
| `QueueProtocol.PostIsSafeBelowTheLimit` | FreeRTOS/src/queue.c:1055-1059 | Knowing the lock count alone, a post keeps these accounts exactly when the count is below 127: at 127 a receiver can be left asleep in front of messages that nothing accounts for. |
| `QueueProtocol.RemovalIsSafeBelowTheLimit` | FreeRTOS/src/queue.c:1505-1509 | The same limit for a removal: at 127 a sender can be left asleep in front of spaces that nothing accounts for. |
| `QueueProtocol.TooManyPostsLoseAWakeUp` | FreeRTOS/src/queue.c:1808-1876 | A whole run in which 128 posts in one lock interval leave a receiver asleep on a full, unlocked queue. |
| `QueueLedger.MessagesAreConserved` | FreeRTOS/src/queue.c:723-918 | Over every interleaving: messages left and messages removed are together the messages there were and those posted, counted by the guards of the calls alone, an overwrite of a full queue adding none. |
| `QueueLedger.NoMessageIsLost` | FreeRTOS/src/queue.c:952-1064 | So on a new queue, also when a lock counter overruns. |
| `QueueLedger.SleepersAreServedFromTheFront` | FreeRTOS/src/queue.c:1801-1910 | Each event of each step wakes the first of those who sleep on the list it is for, and no other; nobody else comes or goes but by parking and leaving. |
| `QueueLedger.ParkingAddsOne` | FreeRTOS/src/queue.c:1397-1399 | A task that parks joins the one list it has to; everybody else keeps his place. |
| `QueueLedger.CountersCount` | FreeRTOS/src/queue.c:1055-1059 | A lock counter goes up by one for each post or removal that is not passed on at once, wraps as an int8_t, and stops when it is unlocked. |
| `QueueLedger.CallsTakeTheirCourse` | FreeRTOS/src/queue.c:1345-1431 | When a call ends, goes on to block, parks, tries again, or looks once more after its time is up. |
| `SchedulerInvariant.DelayedEmptyAtWrap` | FreeRTOS/src/tasks.c:239-251 | When the tick count wraps the delayed list is empty, so the assertion in the list switch never fails. |
| `SchedulerInvariant.ShortcutIsSafe` | FreeRTOS/src/tasks.c:2532-2568 | When the cached unblock time skips the delayed list nothing in it is due: a tick that always scans leaves the same lists. |
| `SchedulerInvariant.TickKeeps` | FreeRTOS/src/tasks.c:2499-2608 | A tick keeps the partition of tasks over lists, the order and bounds of both delayed lists, the cached unblock time and the counts. |
| `SchedulerSteps.ResumeAllKeeps` | FreeRTOS/src/tasks.c:2017-2124 | Resuming the scheduler keeps the invariant, and the outermost resume leaves neither tasks nor ticks pending. |
| `SchedulerOperations.BlockKeeps` | FreeRTOS/src/tasks.c:4692-4801 | Blocking the running task for at least one tick, with or without an event list, keeps the invariant. |
| `SchedulerOperations.RemoveFromEventListKeeps` | FreeRTOS/src/tasks.c:2894-2959 | Taking the first waiter off an event list keeps the invariant, with the scheduler running or suspended. |
| `SchedulerOperations.RemoveFromUnorderedKeeps` | FreeRTOS/src/tasks.c:2962-3004 | Taking any waiter off an unordered event list keeps the invariant. |
| `SchedulerTasks.CreateKeeps` | FreeRTOS/src/tasks.c:963-1043 | Creating a task keeps the invariant. |
| `SchedulerTasks.DeleteSelfKeeps` | FreeRTOS/src/tasks.c:1084-1104 | A task that deletes itself moves to the termination list and is counted; the invariant stays. |
| `SchedulerTasks.DeleteOtherKeeps` | FreeRTOS/src/tasks.c:1105-1113 | Deleting another task that is not waiting for clean-up keeps the invariant. |
| `SchedulerTasks.CleanUpKeeps` | FreeRTOS/src/tasks.c:3365-3406 | Freeing the first task on the termination list keeps the invariant. |
| `SchedulerTasks.SuspendKeeps` | FreeRTOS/src/tasks.c:1566-1649 | Suspending a task that is not waiting for clean-up keeps the invariant. |
| `SchedulerTasks.SuspendSectionsKeep` | FreeRTOS/src/tasks.c:1570-1615 | Of its two critical sections the first keeps the invariant, and the second does in whatever state it comes to run. |
| `SchedulerTasks.ResumeFromISRKeeps` | FreeRTOS/src/tasks.c:1756-1821 | Resuming a task from an interrupt keeps the invariant, with the scheduler running or suspended. |
| `SchedulerTasks.PrioritySetKeeps` | FreeRTOS/src/tasks.c:1402-1559 | A change of priority keeps the invariant: a ready task changes its list with it. |
| `SchedulerTasks.InheritKeeps` | FreeRTOS/src/tasks.c:3706-3765 | Priority inheritance keeps the invariant. |
| `SchedulerTasks.DisinheritKeeps` | FreeRTOS/src/tasks.c:3772-3846 | Giving an inherited priority back keeps the invariant. |
| `SchedulerTasks.ScanFinds` | FreeRTOS/src/tasks.c:174-189 | With anything ready the downward scan ends at a list that is not empty, with all ready tasks at or below it, before its assertion could fail. |
| `SchedulerTasks.SelectionPicksTheBest` | FreeRTOS/src/tasks.c:2761-2817 | An unsuspended context switch selects a ready task whose priority no ready task exceeds, and records that priority. |
| `SchedulerRuns.IdleStaysReady` | FreeRTOS/src/tasks.c:1826-1832 | No operation takes the idle task off its ready list, so there is always something to select. |
| `SchedulerRuns.StepKeepsInv` | FreeRTOS/src/tasks.c:2017-2068 | Every one of the scheduler's operations keeps the whole invariant. |
| `SchedulerRuns.ReachableIsSound` | FreeRTOS/src/tasks.c:963-1043 | In every state reached from the start each task is in exactly one state list, that of its priority when ready, and wheel, counts and deferral are in order. |
| `SchedulerRuns.ReachableSelectionPicksTheBest` | FreeRTOS/src/tasks.c:259-263 | In every reachable state a context switch selects a ready task of greatest priority. |
| `SchedulerRuns.DeletionKeepsCountsExactly` | FreeRTOS/src/tasks.c:1058-1112 | Deleting or suspending another task keeps the invariant exactly when that task is not itself waiting for clean-up. |
| `SchedulerRuns.DeletedTwice` | FreeRTOS/src/tasks.c:1084-1107 | A run that reaches the other case: a task deleted again before the idle task has freed it. |
| `SchedulerStart.LaunchedIsInOrder` | FreeRTOS/src/tasks.c:968-1003 | Before the scheduler starts, after any number of creations: the invariant holds, everybody is ready, and the task to run first is the latest of those with the greatest priority. |
| `SchedulerStart.StartIsSound` | FreeRTOS/src/tasks.c:1826-1905 | Whatever has been created, the scheduler starts with the invariant and the idle task ready, and that task runs first. |
| `SchedulerStart.RunsAreSound` | FreeRTOS/src/tasks.c:1826-1905 | And every run after any such start keeps the invariant. |
| `SchedulerEffects.HeadIsServed` | FreeRTOS/src/tasks.c:2894-2959 | The first waiter is off its event list and ready behind the others of its level, or put aside; nobody else moves; a switch is asked for exactly when it is more important than the running task. |
| `SchedulerEffects.ReleasedIsServed` | FreeRTOS/src/tasks.c:2962-3004 | The same for a waiter of an unordered list, which finds the value it was given. |
| `SchedulerEffects.WaiterJoins` | FreeRTOS/src/tasks.c:2820-2858 | A task that waits is on the event list with its value, and on the suspended list or a delayed one, as its block time says. |
| `SchedulerEffects.DelayedIsTimed` | FreeRTOS/src/tasks.c:1224-1250 | A task that delays itself is on a delayed list; nobody else moves. |
| `SchedulerEffects.CreatedIsReady` | FreeRTOS/src/tasks.c:1005-1010 | A new task is ready with its priority, behind the others of its level; the running task runs on. |
| `SchedulerEffects.DeletedIsGone` | FreeRTOS/src/tasks.c:1048-1133 | A task that deletes itself is on the termination list; another one is on no list and has no control block. |
| `SchedulerEffects.CleanUpFreesOne` | FreeRTOS/src/tasks.c:3365-3406 | While one waits for clean-up, a round of the idle task frees one. |
| `SchedulerEffects.SuspendedIsSuspended` | FreeRTOS/src/tasks.c:1570-1600 | Wherever it was, a suspended task is on the suspended list and waits for no event. |
| `SchedulerEffects.ResumedIsReady` | FreeRTOS/src/tasks.c:1702-1748 | A suspended task other than the running one is ready; a task that is blocked, ready or put aside stays. |
| `SchedulerEffects.ResumedFromISRIsReady` | FreeRTOS/src/tasks.c:1756-1821 | The same from an interrupt, where the task is put aside while the scheduler is suspended. |
| `SchedulerEffects.ReprioritisedGoesLast` | FreeRTOS/src/tasks.c:1515-1540 | A ready task whose priority is set goes behind the others of its new level; any other stays where it is. |
| `SchedulerEffects.LentGoesLast` | FreeRTOS/src/tasks.c:3730-3752 | So does a ready holder that inherits. |
| `SchedulerEffects.FallenBackGoesLast` | FreeRTOS/src/tasks.c:3798-3830 | And one that falls back to its base priority with its last mutex; any other give moves nobody. |
| `SchedulerEffects.ResetGivesBack` | FreeRTOS/src/tasks.c:4162-4173 | A borrowed event item value is set to the running task's priority again; nothing else changes. |
| `SchedulerEffects.SuspensionsNest` | FreeRTOS/src/tasks.c:1944-2030 | Each resume undoes one suspension, only the last does more, and a switch in between is only noted. |
| `SchedulerEffects.ResetIsLeast` | FreeRTOS/src/tasks.c:3635-3656 | A reset unblock time is the least wake time in the delayed list, or the maximum. |
| `SchedulerWaiters.NobodyComesUnasked` | FreeRTOS/src/tasks.c:2820-2858 | Over every operation, nobody comes onto an event list but the running task, by waiting on it. |
| `SchedulerSwitches.TickAsksExactly` | FreeRTOS/src/tasks.c:2570-2668 | A tick asks for a switch exactly when a task whose unbounded wake time is the new time is at least as important as the running one, or the level of that one is shared afterwards, or a yield was pending. |
| `SchedulerSwitches.QuietTickNeedsNoSwitch` | FreeRTOS/src/tasks.c:2585-2625 | If nobody was more important than the running task and a tick asks for no switch, nobody else is as important afterwards. |
| `SchedulerSwitches.ResumeAsksExactly` | FreeRTOS/src/tasks.c:2039-2094 | The yield that the outermost resume leaves pending was pending before, or a task put aside is at least as important as the running one, or a pended tick gives a reason. |
| `SchedulerSwitches.QuietResumeNeedsNoSwitch` | FreeRTOS/src/tasks.c:2052-2094 | If it leaves none pending, everybody it has made ready is less important than the running task. |
| `SchedulerSwitches.SwitchFollowsWalk` | FreeRTOS/src/tasks.c:174-189 | An unsuspended switch makes current the task that the walk over the greatest ready level comes to, and moves no other walk. |
| `SchedulerSwitches.RunnersFollowTheWalk` | FreeRTOS/src/tasks.c:2761-2817 | Over every run that leaves that list alone, the tasks that switches make current are those that the walk selects. |
| `SchedulerSwitches.EveryoneRunsOnce` | FreeRTOS/src/tasks.c:2761-2817 | So as many switches as there are ready tasks on that level run each of them exactly once. |
| `SchedulerAccounts.TasksAreAccountedFor` | FreeRTOS/src/tasks.c:967-969 | The task count is the total length of the state lists, the clean-up count that of the termination list, and each ready list holds its own priority only. |
| `SchedulerAccounts.ReachableTasksAreAccountedFor` | FreeRTOS/src/tasks.c:3390-3394 | Both counts are right in every reachable state. |
| `SchedulerFrames.OnlyTheDeletedDie` | FreeRTOS/src/tasks.c:1084-1091 | Only a task that deletes itself is put on the termination list. |
| `SchedulerFrames.TcbFrame` | FreeRTOS/src/tasks.c:2500-2652 | Ticks, blocking, waking and selection leave all priorities and mutex counts alone. |
| `SchedulerFrames.ReachableIsInRange` | FreeRTOS/src/tasks.c:1410-1418 | Priorities and the top ready priority are always valid indices into the ready lists. |
| `SchedulerTime.WakesAreAhead` | FreeRTOS/src/tasks.c:4730-4760 | No task is ever late: every wake time lies ahead, by less than one turn of the tick count. |
| `SchedulerTime.TickRefinesTimeline` | FreeRTOS/src/tasks.c:2511-2607 | In unbounded time a processed tick makes ready exactly the tasks whose wake time is the new time, also across a wrap, and leaves all others where they are. |
| `SchedulerTime.BlockRefinesTimeline` | FreeRTOS/src/tasks.c:4719-4763 | In unbounded time a task that blocks for n ticks gets wake time now + n; one that blocks indefinitely gets none. |
| `SchedulerTime.ResumeAllRefinesTimeline` | FreeRTOS/src/tasks.c:2041-2094 | In unbounded time the outermost resume takes the pended tasks off and lets each pended tick pass once. |
| `SchedulerTime.StepRefinesTimeline` | FreeRTOS/src/tasks.c:2499-2608 | Every operation does to the modular tick count and the two delayed lists what its counterpart does to one timeline of unbounded wake times. |
| `SchedulerDeadlines.WaitsEndOnTime` | FreeRTOS/src/tasks.c:2528-2571 | Over any run, however often the count wraps, an otherwise undisturbed wait lasts exactly until its wake time. |
| `SchedulerDeadlines.DelayLastsItsTicks` | FreeRTOS/src/tasks.c:1224-1250 | A task that delays itself by n ticks sleeps exactly until n ticks have been processed. |
| `SchedulerDeferral.InterruptsLeaveStateLists` | FreeRTOS/src/tasks.c:2641-2643 | An interrupt that finds the scheduler suspended changes no state list, clock, priority or item value. |
| `SchedulerDeferral.RunConservesTicks` | FreeRTOS/src/tasks.c:2071-2094 | Over any run, the tick interrupts seen are the ticks processed and those pended. |
| `SchedulerDeferral.ReachableClock` | FreeRTOS/src/tasks.c:2499-2524 | Since the start every tick interrupt has been processed or is pended; none is pended while the scheduler runs. |
| `SchedulerDeferral.TickLogIsWhatWakes` | FreeRTOS/src/tasks.c:2534-2607 | The tasks a tick wakes are different ones, and are those due at that time. |
| `SchedulerDeferral.ReplayWakesOnce` | FreeRTOS/src/tasks.c:2076-2093 | Replayed ticks wake each task due within them once, and no other. |
| `SchedulerDeferral.ResumeWakesOnce` | FreeRTOS/src/tasks.c:2039-2094 | The outermost resume makes ready exactly the tasks put aside and those whose time came, each once, even one that is both. |
| `Timeouts.TimeOut.SetState` | FreeRTOS/src/tasks.c:3007-3012 | Stores the present time as entry time. |
| `Timeouts.TimeOut.CheckForTimeOut` | FreeRTOS/src/tasks.c:3015-3073 | One check does what the function Check says to entry time and remaining ticks. |
| `Timeouts.CheckKeepsDeadline` | FreeRTOS/src/tasks.c:3038-3068 | Less than a turn after the last one, a check reports a timeout exactly when the deadline is reached, keeps entry plus remaining, and leaves some ticks otherwise. |
| `Timeouts.CheckIsRightExactly` | FreeRTOS/src/tasks.c:3049-3068 | At any later time the report is right exactly when less than a turn has passed, or the tick is not below the entry tick, or it shows at least the remaining ticks. |
| `Timeouts.LateCheckMissesTimeout` | FreeRTOS/src/tasks.c:3049-3068 | A concrete late check that finds one tick left nearly two turns after entry. |
| `Timeouts.DeadlineIsConserved` | FreeRTOS/src/tasks.c:3015-3073 | Through any number of checks and wraps the first check at or after the original deadline reports the timeout, and none before. |
| `Timeouts.DelayUntil` | FreeRTOS/src/tasks.c:1149-1203 | The branches on wrap-around decide by circular distance: the task sleeps for what is left of the period. |
| `Timeouts.UntilIsExact` | FreeRTOS/src/tasks.c:1153-1203 | Less than a turn after the reference, the task sleeps exactly when the end of the period is still to come, and until then. |
| `Timeouts.UntilIsRightExactly` | FreeRTOS/src/tasks.c:1158-1187 | A later call decides rightly exactly when the tick count shows at least a period since the reference. |
| `Timeouts.LateCallSleepsAgain` | FreeRTOS/src/tasks.c:1170-1187 | A concrete late call that sleeps although its period was over long ago. |
| `Timeouts.ReferenceNeverDrifts` | FreeRTOS/src/tasks.c:1189-1190 | After k calls, however late, the reference has moved by exactly k periods. |
| `Timeouts.WakesAreEquallySpaced` | FreeRTOS/src/tasks.c:1140-1217 | A task that runs its loop within a period wakes at exact multiples of the period. |
| `Mutexes.StepKeepsAccounts` | FreeRTOS/src/tasks.c:4178-4188 | Each task's count of mutexes is the number of mutexes that name it as holder; a mutex has a holder exactly when its message is out and, if recursive, when its call count is not zero. |
| `Mutexes.GiverHolds` | FreeRTOS/src/tasks.c:3777-3786 | The assertions in the give path hold: the giver counts the mutex, and a recursive one has calls to undo. |
| `Mutexes.StepKeepsPriorities` | FreeRTOS/src/tasks.c:3706-3846 | No task falls below its base priority and one without mutexes runs at it, unless a base priority is lifted above an inherited one. |
| `Mutexes.PrioritySetKeepsOrderExactly` | FreeRTOS/src/tasks.c:1484-1499 | A change of priority keeps priority at or above base exactly when the task runs at its base priority or the new one is not above the priority it runs at. |
| `Mutexes.PriorityBelowBase` | FreeRTOS/src/tasks.c:1488-1498 | A run from the start (take, create, inherit) with everything in order, after which setting a base priority leaves the holder below it. |
| `Mutexes.HolderNeverFalls` | FreeRTOS/src/tasks.c:3787-3838 | As long as a task holds some mutex, not always the same one, and nobody sets its priority, its priority never falls. |
| `Mutexes.HoldsSomeExactly` | FreeRTOS/src/tasks.c:4178-4188 | Counting at least one mutex is the same as being the holder of one. |
| `Mutexes.HolderStaysAboveWaiter` | FreeRTOS/src/queue.c:1380-1395 | From the moment a task lends its priority, the holder runs at or above it as long as it holds any mutex, so at least until it gives that one back. |
| `Mutexes.RunKeepsWorldInv` | FreeRTOS/src/queue.c:1706-1722 | Accounts and priorities stay right over every run of mutex calls and other operations. |
| `Mutexes.ReachableWorld` | FreeRTOS/src/queue.c:474-499 | And so in every state reached from the start. |
| `MutexService.TryingTakesTheFree` | FreeRTOS/src/queue.c:1277-1292 | A free mutex goes to the task that tries it; a taken one stays with its holder, who may only count another call. |
| `MutexService.GivingOnceCountsDown` | FreeRTOS/src/queue.c:588-610 | Giving a recursive mutex takes one call back; only the last call gives it, and only the holder can. |
| `MutexService.GivingServesTheHead` | FreeRTOS/src/queue.c:800-812 | Giving a mutex frees it; when anybody waits, the first waiter is off the list, and ready or put aside. |
| `MutexService.GivingServesTheBest` | FreeRTOS/src/queue.c:800-812 | That waiter has the greatest priority of all who wait and, among equals, has waited longest. |
| `MutexService.NobodySleepsOnAFreeMutex` | FreeRTOS/src/queue.c:1345-1400 | Over every run from the start in which tasks wait for a mutex only when they have found it taken: whoever sleeps on a free mutex has a woken task before him that has not tried again yet. |
| `MutexQueueObject.MutexQueue.constructor` | FreeRTOS/src/queue.c:476-499 | A new mutex is available and has no holder. |
| `MutexQueueObject.MutexQueue.TryTake` | FreeRTOS/src/queue.c:1277-1292 | Taking the message makes the running task the holder and counts it. |
| `MutexQueueObject.MutexQueue.LendPriority` | FreeRTOS/src/queue.c:1380-1395 | A task about to block on a mutex lends its priority to the holder, if there still is one. |
| `MutexQueueObject.MutexQueue.Give` | FreeRTOS/src/queue.c:1706-1722 | Giving back takes the inherited priority away when it was the last mutex, frees the mutex and wakes the first waiter. |
| `MutexQueueObject.MutexQueue.TakeRecursive` | FreeRTOS/src/queue.c:627-662 | The holder counts one more call; any other task has to take the mutex first. |
| `MutexQueueObject.MutexQueue.GiveRecursive` | FreeRTOS/src/queue.c:572-620 | Only the holder can give; the mutex is given back with the last call. |
| `EventOrder.FairJoin` | FreeRTOS/src/list.c:156-197 | A waiter that joins in order of value goes behind its equals. |
| `EventOrder.StepKeepsFair` | FreeRTOS/src/tasks.c:2820-2834 | Every operation keeps a waiting list ordered by value and then arrival, if it gives nobody on it another priority. |
| `EventOrder.StepKeepsWaitersFaithful` | FreeRTOS/src/tasks.c:2820-2834 | It also keeps the value of every waiter that of its priority, if a task that joins has the value of its priority; nobody comes onto the list but by waiting. |
| `EventOrder.PrioritySetFaithfulExactly` | FreeRTOS/src/tasks.c:1488-1512 | Setting a priority leaves an unborrowed event item with the priority its task runs at exactly when the task runs at its base priority, or the new one is either of the two it has. |
| `EventOrder.StepKeepsFaithful` | FreeRTOS/src/tasks.c:1506-1515 | Every operation keeps all unborrowed event items with the priorities of their tasks, save a priority call that meets none of these conditions. |
| `EventOrder.JoinersAreFaithful` | FreeRTOS/src/tasks.c:874-876 | So over every run without such a call a running task finds the value of its priority in its event item, unless that is borrowed. |
| `EventOrder.BestWaiterIsServed` | FreeRTOS/src/tasks.c:2902-2914 | The waiter released has the greatest priority of all and, among equals, has waited longest. |
| `EventOrder.WaitersWakeByPriority` | FreeRTOS/src/tasks.c:2894-2914 | So it is after every run from the start in which tasks join that list with the value of their priority and nobody on it is given another priority, whatever priority calls are made on other tasks. |
| `EventOrderLimits.PrioritySetKeepsListExactly` | FreeRTOS/src/tasks.c:1506-1515 | Setting the priority of a waiter keeps its list sorted exactly when the base priority is that already, or the item is borrowed, or the value written lies between those of its neighbours. |
| `EventOrderLimits.InheritKeepsListExactly` | FreeRTOS/src/tasks.c:3718-3730 | Lending a waiter a priority keeps its list sorted exactly when that is not higher, or the item is borrowed, or the value lies between the neighbours'. |
| `EventOrderLimits.BetweenPriorities` | FreeRTOS/src/tasks.c:1508-1511 | Among waiters that carry their priorities, this means that the new priority lies between those of the neighbours. |
| `EventOrderLimits.PriorityCallUnsorts` | FreeRTOS/src/tasks.c:1508-1511 | A run from the start that ends with an unsorted list, a task of priority 0 in front of one of priority 1. |
| `EventOrderLimits.WrongWaiterIsServed` | FreeRTOS/src/tasks.c:1488-1511 | A run from the start in which a task of priority 1 is served while one that runs at priority 2, inherited, waits before it. |
| `TaskSchedulerObject.TaskScheduler.AddTaskToReadyList` | FreeRTOS/src/tasks.c:259-263 | The item goes to the end of the ready list of its priority, and the top priority is raised to it. |
| `TaskSchedulerObject.TaskScheduler.ResetNextTaskUnblockTime` | FreeRTOS/src/tasks.c:3635-3656 | The cached time is that of the head of the delayed list, or the maximum. |
| `TaskSchedulerObject.TaskScheduler.SwitchDelayedLists` | FreeRTOS/src/tasks.c:239-251 | The two lists change roles, given that the one going out of use is empty. |
| `TaskSchedulerObject.TaskScheduler.UnblockExpired` | FreeRTOS/src/tasks.c:2534-2607 | The loop over list heads wakes exactly the tasks that were due at the start, and says whether one is at least as important as the running task. |
| `TaskSchedulerObject.TaskScheduler.IncrementTick` | FreeRTOS/src/tasks.c:2499-2668 | A tick is counted and processed, or pended; the result is whether a switch is due by the wake times, the sharing of the level, and the pending yield. |
| `TaskSchedulerObject.TaskScheduler.SuspendAll` | FreeRTOS/src/tasks.c:1944-1951 | One more level of suspension. |
| `TaskSchedulerObject.TaskScheduler.EmptyPendingList` | FreeRTOS/src/tasks.c:2039-2069 | The loop over list heads wakes exactly the tasks that were put aside. |
| `TaskSchedulerObject.TaskScheduler.ProcessPendedTicks` | FreeRTOS/src/tasks.c:2075-2094 | The loop processes each pended tick once. |
| `TaskSchedulerObject.TaskScheduler.ResumeAll` | FreeRTOS/src/tasks.c:2017-2124 | The outermost resume empties the pending list and processes the pended ticks; it reports whether a yield is pending. |
| `TaskSchedulerObject.TaskScheduler.AddCurrentTaskToDelayedList` | FreeRTOS/src/tasks.c:4692-4801 | The running task goes to the delayed, overflow or suspended list, with the wake time and the cached time set. |
| `TaskSchedulerObject.TaskScheduler.Delay` | FreeRTOS/src/tasks.c:1224-1266 | A delay of no ticks changes nothing; any other blocks the task inside one suspension. |
| `TaskSchedulerObject.TaskScheduler.DelayUntil` | FreeRTOS/src/tasks.c:1140-1217 | The reference moves on by one period and the task blocks for the rest of it, inside one suspension. |
| `TaskSchedulerObject.TaskScheduler.PlaceOnEventList` | FreeRTOS/src/tasks.c:2820-2834 | The running task joins an event list in order of its value, and blocks. |
| `TaskSchedulerObject.TaskScheduler.PlaceOnUnorderedEventList` | FreeRTOS/src/tasks.c:2837-2858 | The running task joins an event list at the end, with a borrowed value, and blocks. |
| `TaskSchedulerObject.TaskScheduler.RemoveFromEventList` | FreeRTOS/src/tasks.c:2894-2959 | The first waiter becomes ready or, with the scheduler suspended, is put aside; the result says whether it is more important. |
| `TaskSchedulerObject.TaskScheduler.RemoveFromUnorderedEventList` | FreeRTOS/src/tasks.c:2962-3004 | The given waiter becomes ready and finds the given value. |
| `TaskSchedulerObject.TaskScheduler.SwitchContext` | FreeRTOS/src/tasks.c:2761-2817 | The scan and the selection, with the assertion in the scan proved; the walk over the greatest level moves on by one and that task runs. |
| `TaskSchedulerObject.TaskScheduler.AddNewTaskToReadyList` | FreeRTOS/src/tasks.c:963-1043 | A new task is counted and ready; before the scheduler has started it becomes the one to run unless an earlier one has a higher priority. |
| `TaskSchedulerObject.TaskScheduler.Delete` | FreeRTOS/src/tasks.c:1048-1133 | A task deleting itself goes to the termination list; another one is freed. |
| `TaskSchedulerObject.TaskScheduler.CheckTasksWaitingTermination` | FreeRTOS/src/tasks.c:3365-3406 | The idle task frees all that wait: the loop ends, with count and list both empty. |
| `TaskSchedulerObject.TaskScheduler.Suspend` | FreeRTOS/src/tasks.c:1566-1649 | The task leaves all its lists for the suspended one. |
| `TaskSchedulerObject.TaskScheduler.TaskIsTaskSuspended` | FreeRTOS/src/tasks.c:1656-1696 | A task counts as suspended exactly when it is on the suspended list and waits for no event. |
| `TaskSchedulerObject.TaskScheduler.Resume` | FreeRTOS/src/tasks.c:1702-1748 | A suspended task other than the running one becomes ready. |
| `TaskSchedulerObject.TaskScheduler.ResumeFromISR` | FreeRTOS/src/tasks.c:1756-1821 | A suspended task becomes ready or, with the scheduler suspended, is put aside. |
| `TaskSchedulerObject.TaskScheduler.PrioritySet` | FreeRTOS/src/tasks.c:1402-1559 | Priorities, event item value and ready list follow the new priority as far as inheritance allows; the result says whether to yield. |
| `TaskSchedulerObject.TaskScheduler.PriorityInherit` | FreeRTOS/src/tasks.c:3706-3765 | A holder of lower priority takes on that of the running task, and changes its ready list. |
| `TaskSchedulerObject.TaskScheduler.PriorityDisinherit` | FreeRTOS/src/tasks.c:3772-3846 | The holder counts one mutex less and with the last one goes back to its base priority. |
| `TaskSchedulerObject.TaskScheduler.IncrementMutexHeldCount` | FreeRTOS/src/tasks.c:4178-4188 | The running task counts one mutex more. |
| `TaskSchedulerObject.TaskScheduler.ResetEventItemValue` | FreeRTOS/src/tasks.c:4162-4173 | The running task reads its event item value and sets it to its priority again. |
| `EventBits.LayoutIsDisjoint` | FreeRTOS/src/event_groups.c:91-103 | For 16-bit and for 32-bit ticks, user bits and control bits share out the value, and the marks, that for values in use among them, are different control bits. |
| `EventBits.PlainExactly` | FreeRTOS/src/event_groups.c:542 | The assertion of the calls: user bits are those values of the width without control bits. |
| `EventBits.PackRoundTrip` | FreeRTOS/src/event_groups.c:91-103 | In either width a stored wish fits, can be read back, and cannot be taken for a release. |
| `EventBits.ReleaseRoundTrip` | FreeRTOS/src/event_groups.c:600-605 | In either width the value of a released task fits, carries the bits, says so, and is marked as in use. |
| `EventBits.MeetsIsMonotone` | FreeRTOS/src/event_groups.c:682-714 | More bits satisfy whatever fewer bits satisfy. |
| `EventGroups.CallKeepsInv` | FreeRTOS/src/event_groups.c:208-496 | Every call, both kinds of timeout and the scheduler's own writes leave no waiter whose wish the bits fulfil. |
| `EventGroups.NoSatisfiedWaiterSleeps` | FreeRTOS/src/event_groups.c:682-714 | In every state between calls, over all runs, no waiter has its condition met. |
| `EventGroups.ReachableGroup` | FreeRTOS/src/event_groups.c:171-203 | So over every run of a new group. |
| `EventSnapshots.SetMeetsSnapshot` | FreeRTOS/src/event_groups.c:530-621 | Setting bits releases exactly the waiters that old and new bits together satisfy, with that value, and clears exactly the masks of those that clear on exit. |
| `EventSnapshots.StayKeepsOrder` | FreeRTOS/src/event_groups.c:556-611 | Waiters that are not released keep their order. |
| `EventSnapshots.OrderDoesNotMatter` | FreeRTOS/src/event_groups.c:556-616 | The outcome does not depend on the order of the waiting list. |
| `EventSnapshots.ReleasedReturnsSnapshot` | FreeRTOS/src/event_groups.c:411-468 | A released waiter returns the bits of the moment of its release, stripped of control bits, however late it runs; its leaving does not touch the group. |
| `EventSnapshots.BitsStayExactly` | FreeRTOS/src/event_groups.c:472-496 | For every call: bits that are set stay set exactly when the call takes none of them, outright, for a waiter it releases, or for itself. |
| `EventSnapshots.SetReturnsWhatIsLeft` | FreeRTOS/src/event_groups.c:613-620 | The bits that xEventGroupSetBits reads after the scheduler has been resumed, with any calls in between: what is missing of old and new bits together was taken by a waiter it released or by one of these calls. |
| `EventSnapshots.SleepEndsExactly` | FreeRTOS/src/event_groups.c:553-611 | What ends a waiter's sleep, for every call: a timeout, a deletion, or a set of bits that together with the old ones fulfils its wish, which leaves these bits to it; nothing else does. |
| `EventSnapshots.LastArrivalReleasesAll` | FreeRTOS/src/event_groups.c:208-240 | On any group, with any waiters, the task that completes a mask goes on with old and new bits together; all who sleep in the same rendezvous are released with that value; it contains the mask; those bits end clear. |
| `EventSnapshots.AllReturnTheSame` | FreeRTOS/src/event_groups.c:266-315 | Each of them returns that value, whatever calls come before it runs. |
| `EventSnapshots.BroughtIsThere` | FreeRTOS/src/event_groups.c:226-228 | While no call or released waiter takes part of the mask, every bit of it that tasks of the rendezvous bring stays set. |
| `EventSnapshots.ArrivedWait` | FreeRTOS/src/event_groups.c:240-263 | While a rendezvous gathers, with other calls and other waiters on the group, everybody who has arrived and not timed out sleeps in it. |
| `EventSnapshots.RendezvousCompletes` | FreeRTOS/src/event_groups.c:208-240 | Any number of tasks arrive, other calls in between: when the last brings what is missing, all have the same value with the whole mask, none of them waits, and those bits end clear. |
| `EventSnapshots.RendezvousReturns` | FreeRTOS/src/event_groups.c:266-315 | And every one of them returns that value, however late it runs. |
| `EventResults.WaitReturns` | FreeRTOS/src/event_groups.c:341-408 | A wait blocks exactly when its wish is not met and it has block time, and sleeps with that wish; else it returns the bits it found, and takes bits exactly when these meet the wish and it is to clear them. |
| `EventResults.SyncReturns` | FreeRTOS/src/event_groups.c:222-264 | A rendezvous blocks exactly when its mask is not complete and it has block time; without block time it returns the bits that are left, which do not contain the mask. |
| `EventResults.TimedOutTestsAgain` | FreeRTOS/src/event_groups.c:424-452 | A task that timed out returns the bits it finds, and takes bits exactly when these meet its wish and it is to clear them. |
| `EventResults.TimeOutIsNoRelease` | FreeRTOS/src/event_groups.c:411-424 | What a waiter has stored is not taken for a release when it times out. |
| `EventResults.ReleasedTakesNothing` | FreeRTOS/src/event_groups.c:453-464 | A released task returns what released it and takes nothing. |
| `EventResults.DeletedReturnNothing` | FreeRTOS/src/event_groups.c:624-663 | When a group is deleted everybody returns with no bits. |
| `EventResults.NewPriorityIsStored` | FreeRTOS/src/tasks.c:1506-1515 | A new priority is stored in an event item that is not borrowed; what a waiter has stored is kept. |
| `EventResults.NoBitsComeUnasked` | FreeRTOS/src/event_groups.c:472-496 | No call sets any bits but those it is given. |
| `EventGroupObject.EventGroup.constructor` | FreeRTOS/src/event_groups.c:171-203 | A new group has no bits and no waiters. |
| `EventGroupObject.EventGroup.Visit` | FreeRTOS/src/event_groups.c:558-611 | One round releases the waiter at a position or passes it, and collects the bits to clear. |
| `EventGroupObject.EventGroup.SetBits` | FreeRTOS/src/event_groups.c:530-621 | The traversal, which removes waiters as it goes and clears bits afterwards, does what the snapshot function says, and the bits that are left are returned. |
| `EventGroupObject.EventGroup.WaitBits` | FreeRTOS/src/event_groups.c:324-408 | A wait returns at once with the bits it found, gives up, or stores its wish and blocks, exactly when that is not met and there is block time. |
| `EventGroupObject.EventGroup.Sync` | FreeRTOS/src/event_groups.c:208-264 | A rendezvous sets its bits, and then goes on, gives up or blocks. |
| `EventGroupObject.EventGroup.Leave` | FreeRTOS/src/event_groups.c:411-468 | After blocking, a task returns what released it, or tests the bits once more after a timeout. |
| `EventGroupObject.EventGroup.ClearBits` | FreeRTOS/src/event_groups.c:472-496 | Clears the bits and returns those before. |
| `EventGroupObject.EventGroup.Delete` | FreeRTOS/src/event_groups.c:624-663 | Releases every waiter with no bits. |
| `Coroutines.DelayedListIsEmptyAtWrap` | FreeRTOS/src/croutine.c:272-282 | When the co-routines' tick counter wraps, their delayed list is empty. |
| `Coroutines.OneTickKeeps` | FreeRTOS/src/croutine.c:267-314 | One round of the catch-up keeps the wheel in order and lets one tick pass in unbounded time. |
| `Coroutines.SameTickAsScheduler` | FreeRTOS/src/croutine.c:267-314 | It leaves the lists that a tick of the task scheduler would leave. |
| `Coroutines.CatchUpIsTickByTick` | FreeRTOS/src/croutine.c:262-317 | Catching up over n ticks in one call leaves the same lists and counters as one call at each tick. |
| `Coroutines.CheckShowsClock` | FreeRTOS/src/croutine.c:266-316 | Afterwards both tick counters show the tick that was sampled. |
| `Coroutines.CheckCatchesUpExactly` | FreeRTOS/src/croutine.c:266-270 | A check brings co-routine time up to the clock exactly when less than a turn has passed since the last one. |
| `Coroutines.CheckMissesAFullTurn` | FreeRTOS/src/croutine.c:266-270 | A concrete check, a full turn after the start, that does nothing and stays a turn behind. |
| `Coroutines.CheckDelayedKeeps` | FreeRTOS/src/croutine.c:262-317 | A check keeps the co-routine invariant. |
| `Coroutines.CheckPendingKeeps` | FreeRTOS/src/croutine.c:239-259 | Emptying the pending list keeps the invariant and leaves nothing pending. |
| `Coroutines.AddToDelayedListKeeps` | FreeRTOS/src/croutine.c:201-236 | A co-routine that waits for at least one tick gets wake time now + ticks; the invariant stays. |
| `Coroutines.RemoveFirstKeeps` | FreeRTOS/src/croutine.c:370-392 | An event that an interrupt delivers keeps the invariant and changes no wake time. |
| `Coroutines.NobodyIsReadiedTwice` | FreeRTOS/src/croutine.c:295-312 | However interrupts cut into a catch-up, no co-routine is made ready twice, also when its event and its timeout both come about. |
| `Coroutines.TimeoutsAreServed` | FreeRTOS/src/croutine.c:284-314 | Once nothing is due, every co-routine whose time came during the catch-up has been made ready. |
| `Coroutines.BestCoRoutineRuns` | FreeRTOS/src/croutine.c:328-341 | The co-routine selected is ready and none that is ready exceeds its priority. |
| `CoroutineEffects.RemovedIsPending` | FreeRTOS/src/croutine.c:370-392 | The first waiter is off its event list and on the pending list, with its timeout still running. |
| `CoroutineEffects.PendingBecomeReady` | FreeRTOS/src/croutine.c:239-259 | Every co-routine that was pending is ready and waits for no event; nobody else moves. |
| `CoroutineEffects.DelayedIsListed` | FreeRTOS/src/croutine.c:201-236 | The running co-routine has a timeout and, if asked, is on the event list. |
| `CoroutineEffects.SelectionFollowsWalk` | FreeRTOS/src/croutine.c:328-341 | The co-routine that runs is the one the walk over the greatest ready level comes to. |
| `CoRoutineSchedulerObject.CoRoutineScheduler.AddToReadyQueue` | FreeRTOS/src/croutine.c:109-116 | The item goes to the end of the ready list of its priority, and the top priority is raised to it. |
| `CoRoutineSchedulerObject.CoRoutineScheduler.AddToDelayedList` | FreeRTOS/src/croutine.c:201-236 | The running co-routine goes to the delayed or overflow list and, if asked, on an event list. |
| `CoRoutineSchedulerObject.CoRoutineScheduler.CheckPendingReadyList` | FreeRTOS/src/croutine.c:239-259 | The loop over list heads wakes exactly the co-routines that were pending. |
| `CoRoutineSchedulerObject.CoRoutineScheduler.ReadyExpired` | FreeRTOS/src/croutine.c:284-313 | The inner loop wakes exactly the co-routines that are due. |
| `CoRoutineSchedulerObject.CoRoutineScheduler.NextTick` | FreeRTOS/src/croutine.c:267-314 | One round: the counter moves on, the lists are swapped on a wrap, and what is due is woken. |
| `CoRoutineSchedulerObject.CoRoutineScheduler.CheckDelayedList` | FreeRTOS/src/croutine.c:262-317 | The nested loops catch up on all ticks that have passed. |
| `CoRoutineSchedulerObject.CoRoutineScheduler.RemoveFromEventList` | FreeRTOS/src/croutine.c:370-392 | The first waiter is put on the pending list; the result says whether it is at least as important. |
| `CoRoutineSchedulerObject.CoRoutineScheduler.SelectNext` | FreeRTOS/src/croutine.c:328-341 | The scan finds the best ready list and steps its index, or reports that there is nothing to run. |

## Left out

- Port layer, interrupt masking, stacks, heap, hooks, trace macros, statistics, MPU wrappers: foreign code or debugging aids; allocation always succeeds.
- Port-optimised selection: a bit map kept by macros of the port layer.
- Tickless idle: the tick count moves by single ticks only; a jump over several at once is not a step.
- Queue sets: a post to a queue that belongs to a set, which notifies the set and not the queue's own waiters, is not a step of the protocol.
- The queue registry, which names queues for debuggers, and the software timer daemon, which is a client of queues and lists.
- Task notifications and xTaskAbortDelay: value updates beside the lists; they are not steps of the scheduler here.
- xQueueGenericReset and vQueueDelete: not steps of the queue protocol.
- SchedulerStart.StartIsSound: before the scheduler starts tasks are created, and nothing else is done with them.
- Wrap-around of xNumOfOverflows, uxPendedTicks, uxSchedulerSuspended and the mutex and message counts: they are unbounded here; ticks and the int8_t lock counters wrap.
- SchedulerRuns.ReachableIsSound: a step by step interleaving inside the loops of xTaskResumeAll and of the idle task is not modelled, because these loops run in a critical section or between suspensions.
- SchedulerTasks.SuspendKeeps: vTaskSuspend is one step, although its reset of the unblock time is a critical section of its own; SuspendSectionsKeep has the two apart.
- MutexService.NobodySleepsOnAFreeMutex: that a task waits for a mutex only after it has found it taken, and that a new mutex has an empty waiting list, is asked of the run (CarefulRun), since a wait is a scheduler operation here; the woken task may time out on its way or be deleted, as in the code.
- MutexQueueObject.MutexQueue.TakeRecursive: a take without a block time; one that blocks is this attempt, LendPriority, the wait, and another attempt, since other tasks run in between.
- QueueProtocol.NoLostWakeUp: a woken task is not deleted or suspended, and a full queue of item size zero is not overwritten; the timeout is a free choice of the step CheckTimeOut.
- Mutexes.ReachableWorld: mutexes are not used from interrupts, are given by their holder, and a holder is not deleted; inheritance that outlives a waiter's timeout is as in the code, and there is none through a chain of mutexes.
- EventGroupObject.EventGroup.SetBits: the method returns the bits at the end of the traversal; what calls of other tasks before the value is read make of it is EventSnapshots.SetReturnsWhatIsLeft. Calls from interrupts go through the timer daemon and count as calls of a task.
- EventGroups.NoSatisfiedWaiterSleeps: the waiting list of one group, with the tasks' event item values beside it; that a tick or a suspension takes a waiter off is the step TimedOut.
- TaskSchedulerObject.TaskScheduler.IncrementTick: the scheduler object holds the value of its lists, a ListHeap; PointerLists proves of every operation on it that the pointers do the same, one operation at a time.
- TaskSchedulerObject.TaskScheduler.Delete: freeing a control block removes it from the map.
- Coroutines.CheckDelayedKeeps: delays of no ticks are not made, as the macros in croutine.h see to; the function a co-routine runs is left out.

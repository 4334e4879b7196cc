# The FreeRTOS kernel, modelled and proved in Dafny

This project models the kernel of FreeRTOS V10.0.0 in the configuration of `FreeRtos/aurix/FreeRTOSConfig.h`
(pre-emption, time slicing and mutexes on, 32-bit ticks, six priorities, generic task selection) and proves what
its parts promise: that the lists of the scheduler are never confused, that tasks wake exactly when they should
although the tick counter wraps, that no wake-up, tick, byte, item or timer expiry is lost between tasks and
interrupts, and that priority inheritance bounds priority inversion.

`dafny verify dfyconfig.toml` checks everything.

## How it is built

Code that changes things in place is modelled in place: linked lists, the scheduler's variables, the queue's
bytes, the timer daemon, the stream buffer and the event group are classes with the source's fields and loops.
Each method is proved to do what a function on values says, and the properties are proved about those functions;
where several tasks and interrupts meet, the protocol is a state machine whose steps are the source's critical
sections, and the properties are proved for every run of it. The 32-bit tick has an unbounded tick beside it in
the proofs.

| file | part of the kernel |
|---|---|
| `Ticks.dfy` | wrapping 32-bit arithmetic against true time |
| `Rings.dfy`, `IntrusiveList.dfy` | the list as a sequence with a rotating index, and the linked list that implements it |
| `KernelState.dfy`, `Kernel.dfy` | the scheduler's critical sections as functions, and as methods on its variables |
| `KernelPlacement.dfy`, `KernelSteps.dfy` | where every task is: the invariant, and every entry point keeping it |
| `KernelOrder.dfy`, `KernelEffects.dfy`, `KernelBits.dfy` | what each entry point achieves for the task it concerns, and that it leaves all else alone, the order of the others included; the bits in event item values |
| `KernelTime.dfy`, `KernelRuns.dfy` | when every task wakes: the two delayed lists against true time, over whole runs |
| `KernelSwitching.dfy`, `KernelPreemption.dfy` | when a switch is asked for, and that a task of the highest ready priority runs |
| `Timeouts.dfy` | time-out budgets and the fixed-rate delay |
| `QueueStorage.dfy`, `QueueProtocol.dfy` | the queue's buffer as a double-ended queue, and blocking on it without losing wake-ups |
| `MutexAccounting.dfy`, `Inversion.dfy` | held counts and recursive mutexes, and the bound on priority inversion |
| `Timers.dfy` | the timer daemon |
| `StreamBuffer.dfy`, `StreamProtocol.dfy`, `MessageRing.dfy` | stream and message buffers, at call granularity and with reader and writer interleaved |
| `EventGroups.dfy`, `Barrier.dfy` | event bits and the rendezvous built on them |

Some promises turned out to hold only under a condition. Each is proved to be exact, and a case in which the promise
fails is given beside it.

- Task placement: a notification from an interrupt keeps every event list item in at most one list exactly when the item
  it is about to link is free (`KernelSteps.NotifyFromIsrKeepsWhen`). A task that waits for ever for a notification
  passes for a suspended one; when an interrupt resumes it while the scheduler is suspended, the next notification meets
  the assertion at tasks.c:4744, and where assertions are compiled out (aurix/FreeRTOSConfig_tc375.h:55) the item is
  linked twice (`KernelSteps.ResumedThenNotified`). A notification from a task always keeps the placement, although
  the assertion at tasks.c:4622, which comes after the lists have been changed, then fails.
- A task of the highest ready priority runs unless a switch has been asked for or is pending, as long as every switch that
  `tasks.c` asks for is made (`KernelPreemption.HighestPriorityRuns`). The comment at tasks.c:3935-3941 wants a switch when
  the last mutex is returned, whether or not a task waits for it; queue.c:820-834 makes it only if none waits. Giving a
  mutex keeps the highest task running or asks for a switch exactly unless the giver's priority falls, a task waits
  that has no higher priority than the giver's own, and another ready task has
  (`KernelPreemption.GiveKeepsHighestWhen`, `KernelPreemption.GiveStrandsReadyTask`).
- Overwriting in a queue of one place keeps the count within the length exactly when the items have bytes or the queue is
  empty (`QueueProtocol.OverwriteKeepsWhen`, `QueueStorage.Queue.CopyDataToQueue`): the source takes the overwritten
  item off the count only for items that have bytes (`QueueProtocol.OverwriteCountsTwo`).
- No wake-up is lost as long as fewer than 128 interrupts use a queue during one lock interval. One more post while the
  counter is full leaves items and wake-ups in balance only if enough tasks had been woken before
  (`QueueProtocol.PostsBalanceWhen`), and the counter can fill up (`QueueProtocol.LockFillsUp`).
- A time-out check is right about a finite wait unless the counter has both run a full turn and come to rest where the
  turn cannot be seen (`Timeouts.CheckIsExactWhen`, `Timeouts.HiddenTurnIsMissed`).
- A timer command is placed correctly exactly when it is less than 2^32 ticks old or the surplus over whole turns reaches
  the period (`Timers.InsertionIsRightWhen`, `Timers.LateCommandIsMisplaced`). A periodic timer whose reload command is
  pending is called for every whole period exactly if the command is less than 2^32 ticks old when the queue is drained
  (`Timers.DrainEnds`); otherwise it falls behind by as many turns of the counter as the command is old. Sampling the
  clock once per turn does not prevent that: a timer that is due early in a turn and not handled in it is switched out
  with a reload command that is too old at once (`Timers.SampledOncePerTurn`).
- The space check of a message buffer finds out whether a message fits exactly when the length with its four bytes does
  not wrap a `size_t`, or wraps to more than the space there is (`StreamBuffer.SpaceCheckIsRightWhen`,
  `StreamBuffer.HugeMessagePassesCheck`).

## Model

| member | source | states |
|---|---|---|
| Ticks.WrapAdd | FreeRtos/tasks.c:4909-4985 | tick sums and differences may be wrapped at any point |
| Ticks.WrapCrossing | FreeRtos/tasks.c:4909-4985 | a wrapped wake time is below the counter exactly when it lies in the next turn of the counter |
| Ticks.SameEpochOrder | FreeRtos/tasks.c:2640-2665 | within one turn the 32-bit order is the true order |
| Rings.InsertThenRemove | FreeRtos/list.c:75-197 | removing an item just inserted restores the list, the index included |
| Rings.NextRotates | FreeRtos/include/list.h:277-288 | taking the next entry returns the front of the rotation and sends it to the back |
| Rings.RemoveKeepsRotation | FreeRtos/list.c:171-197 | removal deletes one element of the rotation and keeps the order of the rest, also when it is the one the index points at |
| Rings.InsertEndIsLast | FreeRtos/list.c:75-101 | an item inserted at the end is picked after all others but the indexed one |
| Rings.RoundRobinIsFair | FreeRtos/include/list.h:277-288 | n picks from n unchanged items visit each exactly once |
| Rings.SortedInsertion | FreeRtos/list.c:104-168 | insertion keeps the list sorted and goes behind all equal values |
| KernelOrder.OrderOfInsert | FreeRtos/list.c:75-168 | wherever an item is linked in, the others are picked in the same order as before |
| KernelOrder.OrderOfRemove | FreeRtos/list.c:171-197 | whichever item is removed, the others are picked in the same order as before |
| IntrusiveList.List.constructor | FreeRtos/list.c:38-60 | a new list is a ring of its end marker alone |
| IntrusiveList.List.InsertEnd | FreeRtos/list.c:75-101 | both link directions, containers, count and index are those of the sequence with the item before the indexed one |
| IntrusiveList.List.FindPlace | FreeRtos/list.c:104-168 | the search ends, at the end marker at the latest, at the place behind all values not greater, portMAX_DELAY included |
| IntrusiveList.List.InsertSorted | FreeRtos/list.c:104-168 | the linked list becomes the sequence with the item at that place |
| IntrusiveList.Remove | FreeRtos/list.c:171-197 | the linked list becomes the sequence without the item, the index stepping back if it stood there; the remaining length is returned |
| IntrusiveList.RemoveInserted | FreeRtos/list.c:75-197 | inserting and removing an item restores every link |
| IntrusiveList.List.NextOwner | FreeRtos/include/list.h:277-288 | returns the owner at the front of the rotation |
| IntrusiveList.List.HeadOwner | FreeRtos/include/list.h:304-307 | returns the owner of the first member |
| Kernel.Scheduler.AddTaskToReadyList | FreeRtos/tasks.c:235-239 | the in-place change is the step of which KernelEffects.ReadiedGoesLast says that the task is picked last of its priority |
| Kernel.Scheduler.ResetNextTaskUnblockTime | FreeRtos/tasks.c:3730-3751 | the in-place change is the step of which KernelTime proves that xNextTaskUnblockTime bounds every wake time in the current list |
| Kernel.Scheduler.AddCurrentTaskToDelayedList | FreeRtos/tasks.c:4909-5018 | the in-place change is the step of which KernelTime.BlockCurrentTimed proves the exact due time and KernelEffects.BlockEffect the list |
| Kernel.Scheduler.UnblockExpiredTasks | FreeRtos/tasks.c:2622-2698 | the loop wakes what the recursive description wakes, and asks for a switch exactly when a woken task has at least the running task's priority (KernelSwitching.PreemptsMeans) |
| Kernel.Scheduler.IncrementTick | FreeRtos/tasks.c:2589-2758 | the in-place change is the step of KernelTime.ProcessTickTimed and KernelSwitching.TickEffect, and a switch is asked for exactly as KernelSwitching.TickSwitches says |
| Kernel.Scheduler.SuspendAll | FreeRtos/tasks.c:2032-2039 | nests: the count rises by one and nothing else changes |
| Kernel.Scheduler.ReadyPendingTasks | FreeRtos/tasks.c:2128-2148 | the loop empties the pending-ready list into the ready lists, of which KernelSwitching.DrainEffect says who moves and when a yield is pending |
| Kernel.Scheduler.ProcessPendedTicks | FreeRtos/tasks.c:2160-2186 | the loop processes as many ticks as were pended |
| Kernel.Scheduler.ResumeAll | FreeRtos/tasks.c:2105-2212 | the in-place change is the step of KernelRuns.ResumptionCatchesUp and KernelSwitching.ResumptionYields; it keeps the invariant and reports a yield exactly when one is pending and the scheduler runs |
| Kernel.Scheduler.HighestReady | FreeRtos/tasks.c:150-165 | the search loop ends at the priority described on values |
| Kernel.Scheduler.SwitchContext | FreeRtos/tasks.c:2851-2907 | the in-place change is the step of which KernelSteps.SelectionIsMaximal proves that it picks the front of the highest ready list, and KernelSwitching.SwitchEffect that it is put off while the scheduler is suspended |
| Kernel.Scheduler.PlaceOnEventList | FreeRtos/tasks.c:2910-2924 | the in-place change is the step of KernelEffects.WaitEffect |
| Kernel.Scheduler.PlaceOnUnorderedEventList | FreeRtos/tasks.c:2927-2948 | the in-place change is the step of KernelEffects.WaitOnBitsEffect |
| Kernel.Scheduler.PlaceOnEventListRestricted | FreeRtos/tasks.c:2953-2980 | the in-place change is the step of KernelEffects.WaitRestrictedEffect |
| Kernel.Scheduler.RemoveFromEventList | FreeRtos/tasks.c:2984-3049 | the in-place change is the step of KernelEffects.SignalEffect, and the result says whether the woken task has a higher priority |
| Kernel.Scheduler.RemoveFromUnorderedEventList | FreeRtos/tasks.c:3052-3083 | the in-place change is the step of KernelEffects.SignalBitsEffect: the task is ready, with the bits it was released with |
| Kernel.Scheduler.AwaitNotification | FreeRtos/tasks.c:4412-4446 | the in-place change is the step of KernelEffects.AwaitEffect, of which KernelRuns.ExactWakeUp proves the time-out |
| Kernel.Scheduler.Notify | FreeRtos/tasks.c:4560-4660 | the in-place change is the step of which KernelEffects.NotifyEffect proves who becomes ready, and the result is whether a task of higher priority was woken |
| Kernel.Scheduler.NotifyFromIsr | FreeRtos/tasks.c:4666-4783 | the in-place change is the step of which KernelEffects.NotifyFromIsrEffect proves who becomes ready or pending |
| Kernel.Scheduler.Create | FreeRtos/tasks.c:1027-1106 | the in-place change is the step of KernelEffects.CreateEffect, and the result is whether the task has a higher priority |
| Kernel.Scheduler.Delete | FreeRtos/tasks.c:1112-1197 | the in-place change is the step of KernelEffects.DeleteEffect |
| Kernel.Scheduler.CheckTasksWaitingTermination | FreeRtos/tasks.c:3468-3493 | every deleted task is forgotten, the task count falls by their number, everything else is kept |
| Kernel.Scheduler.MoveToSuspended | FreeRtos/tasks.c:1634-1676 | the first critical section is the step of KernelEffects.ParkEffect |
| Kernel.Scheduler.Suspend | FreeRtos/tasks.c:1630-1725 | both critical sections, when nothing comes between; KernelSteps has them as two events |
| Kernel.Scheduler.ResetEventItemValue | FreeRtos/tasks.c:4379-4390 | returns the bits a task was released with and restores the coded priority |
| Kernel.Scheduler.Resume | FreeRtos/tasks.c:1777-1822 | the in-place change is the step of KernelEffects.UnparkEffect, and the result is whether a task of at least the running task's priority became ready |
| Kernel.Scheduler.ResumeFromIsr | FreeRtos/tasks.c:1831-1896 | the in-place change is the step of KernelEffects.UnparkFromIsrEffect, and a yield is asked for exactly when the task became ready with at least the running task's priority |
| Kernel.Scheduler.PrioritySet | FreeRtos/tasks.c:1466-1623 | the in-place change is the step of KernelEffects.PriorityEffect; a yield is asked for exactly if another task is raised to the running task's priority or the running task is lowered |
| Kernel.Scheduler.PriorityInherit | FreeRtos/tasks.c:3801-3880 | the in-place change is the step of KernelEffects.InheritEffect: the holder has the larger of its own priority and the running task's; the result says whether it has inherited, now or earlier |
| Kernel.Scheduler.PriorityDisinherit | FreeRtos/tasks.c:3888-3961 | the in-place change is the step of KernelEffects.DisinheritEffect: an inherited priority ends with the last mutex, and a yield is asked for exactly then |
| Kernel.Scheduler.PriorityDisinheritAfterTimeout | FreeRtos/tasks.c:3968-4063 | the in-place change is the step of KernelEffects.WithdrawEffect: the holder falls to the larger of its own priority and the highest that waits |
| KernelPlacement.PlacedPut | FreeRtos/list.c:75-168 | linking an unplaced task into a list keeps containers and lists in agreement |
| KernelPlacement.PlacedTake | FreeRtos/list.c:171-197 | unlinking a task keeps containers and lists in agreement |
| KernelSteps.BlockCurrentKeeps | FreeRtos/tasks.c:4909-5018 | blocking keeps every task in exactly one state list |
| KernelSteps.WaitKeeps | FreeRtos/tasks.c:2910-2924 | waiting for an event keeps the invariant |
| KernelSteps.WaitUnorderedKeeps | FreeRtos/tasks.c:2927-2948 | waiting for event bits keeps the invariant |
| KernelSteps.WaitRestrictedKeeps | FreeRtos/tasks.c:2953-2980 | the timer daemon's wait keeps the invariant |
| KernelSteps.AwaitKeeps | FreeRtos/tasks.c:4412-4540 | waiting for a notification keeps the invariant |
| KernelSteps.SignalKeeps | FreeRtos/tasks.c:2984-3049 | an event wake-up keeps the invariant, the scheduler suspended or not |
| KernelSteps.SignalBitsKeeps | FreeRtos/tasks.c:3052-3083 | a wake-up by event bits keeps the invariant |
| KernelSteps.NotifyKeeps | FreeRtos/tasks.c:4560-4660 | a notification from a task keeps the invariant, whatever the state of the task notified |
| KernelSteps.NotifyFromIsrKeeps | FreeRtos/tasks.c:4666-4783 | a notification from an interrupt keeps the invariant if the event item it links is free |
| KernelSteps.NotifyFromIsrKeepsWhen | FreeRtos/tasks.c:4740-4758 | and only then: the exact condition, a free item, a scheduler that is not suspended, or a task that does not wait for a notification |
| KernelSteps.ResumedThenNotified | FreeRtos/tasks.c:1831-1896 | a run from start-up after which a notification from an interrupt links an event item a second time |
| KernelSteps.WakeExpiredKeeps | FreeRtos/tasks.c:2622-2698 | every pass of the tick's loop keeps the invariant |
| KernelSteps.ProcessTickKeeps | FreeRtos/tasks.c:2589-2698 | a processed tick keeps the invariant, list switch included |
| KernelSteps.DrainPendingKeeps | FreeRtos/tasks.c:2128-2148 | the pending-ready loop keeps the invariant and leaves the list empty |
| KernelSteps.ResumeAllKeeps | FreeRtos/tasks.c:2105-2212 | resuming the scheduler keeps the invariant |
| KernelSteps.SwitchContextKeeps | FreeRtos/tasks.c:2851-2907 | selection keeps the invariant, all ready lists above uxTopReadyPriority being empty |
| KernelSteps.CreateKeeps | FreeRtos/tasks.c:1027-1106 | creation keeps the invariant |
| KernelSteps.DeleteKeeps | FreeRtos/tasks.c:1112-1197 | deletion keeps the invariant, of oneself or another |
| KernelSteps.CleanUpKeeps | FreeRtos/tasks.c:3468-3493 | idle clean-up keeps the invariant |
| KernelSteps.SuspendTaskKeeps | FreeRtos/tasks.c:1630-1676 | the first critical section of suspension keeps the invariant; the second is an event of its own |
| KernelSteps.ResumeTaskKeeps | FreeRtos/tasks.c:1777-1896 | resumption by task or interrupt keeps the invariant |
| KernelSteps.SetPriorityKeeps | FreeRtos/tasks.c:1466-1623 | a priority change keeps ready tasks in the list of their own priority |
| KernelSteps.InheritKeeps | FreeRtos/tasks.c:3801-3880 | inheritance keeps the invariant |
| KernelSteps.DisinheritKeeps | FreeRtos/tasks.c:3888-3961 | disinheritance keeps the invariant |
| KernelSteps.WithdrawKeeps | FreeRtos/tasks.c:3968-4063 | disinheritance after a time-out keeps the invariant |
| KernelSteps.StepKeepsInv | FreeRtos/tasks.c:1027-1896 | every entry point keeps every task in exactly one state list, a ready task in the list of its own priority, its event item in at most one list |
| KernelSteps.PlacementAlwaysHolds | FreeRtos/tasks.c:1027-1896 | the same over every run from start-up |
| KernelSteps.TopPriorityIsHighest | FreeRtos/tasks.c:150-165 | the search finds the highest non-empty ready list and ends |
| KernelSteps.StateListsHoldEveryTask | FreeRtos/tasks.c:1027-1197 | the lengths of the state lists add up to uxCurrentNumberOfTasks |
| KernelSteps.SelectionIsMaximal | FreeRtos/tasks.c:2851-2907 | the selected task has the highest ready priority and is at the front of the rotation of its list |
| KernelEffects.SignalEffect | FreeRtos/tasks.c:2984-3049 | the woken task is ready, to be picked last of its priority, or last in the pending-ready list while the scheduler is suspended; a yield is pending exactly if one was or the task has a higher priority; nothing else changes, not the order of other tasks in any list |
| KernelEffects.SignalBitsEffect | FreeRtos/tasks.c:3052-3083 | a task released with event bits is ready, waits for nothing, and has the bits in its event item below the mark of a value in use; a yield is pending exactly if one was or the task has a higher priority; nothing else changes |
| KernelEffects.SignalOrder | FreeRtos/tasks.c:2984-3049 | the event list keeps its order and the pending-ready list is first come, first served |
| KernelEffects.WaitOrder | FreeRtos/tasks.c:2910-2924 | an event list in order of priority stays so, and a task waits behind every task of its own or a higher priority |
| KernelEffects.BlockEffect | FreeRtos/tasks.c:4909-5018 | a blocked task is in the list of its turn of the counter, behind all that wake no later, or last in the suspended list when it waits for ever; xNextTaskUnblockTime is lowered exactly if the task wakes earlier in this turn; nothing else changes |
| KernelEffects.WaitEffect | FreeRtos/tasks.c:2910-2924 | a task that waits for an event is blocked and in its event list, behind all of its own or a higher priority; the other lists are as they were |
| KernelEffects.WaitOnBitsEffect | FreeRtos/tasks.c:2927-2948 | a task that waits for bits is blocked and last in the event list, with the bits in its event item |
| KernelEffects.WaitRestrictedEffect | FreeRtos/tasks.c:2953-2980 | the timer daemon is blocked and last in the event list, for ever if told so |
| KernelEffects.AwaitEffect | FreeRtos/tasks.c:4412-4540 | a task that waits for a notification is marked and blocked, unless its block time is zero |
| KernelEffects.CollectEffect | FreeRtos/tasks.c:4379-4390 | taking the bits codes the priority in use again, taking the notification takes the mark away, and nothing else changes |
| KernelEffects.NotifyEffect | FreeRtos/tasks.c:4560-4660 | a task waiting for a notification becomes ready, another only remembers it; nothing else changes |
| KernelEffects.NotifyFromIsrEffect | FreeRtos/tasks.c:4666-4783 | the same from an interrupt, pending while the scheduler is suspended; a yield is pending exactly if one was or a task that waited has a higher priority |
| KernelEffects.ParkEffect | FreeRtos/tasks.c:1630-1725 | a suspended task is last in the suspended list, waits for nothing and can be resumed; nothing else changes |
| KernelEffects.UnparkEffect | FreeRtos/tasks.c:1731-1822 | exactly the suspended tasks can be resumed, not those blocked for ever on an event |
| KernelEffects.UnparkFromIsrEffect | FreeRtos/tasks.c:1831-1896 | the same from an interrupt |
| KernelEffects.ResetEffect | FreeRtos/tasks.c:3730-3751 | xNextTaskUnblockTime becomes the least wake time in the current delayed list, or portMAX_DELAY |
| KernelEffects.DeleteEffect | FreeRtos/tasks.c:1112-1197 | a task that deletes itself awaits clean-up, any other is gone at once and xNextTaskUnblockTime is exact again; nothing else changes |
| KernelEffects.CleanUpEffect | FreeRtos/tasks.c:3468-3493 | the idle task forgets a deleted task, and nothing else changes |
| KernelEffects.PriorityEffect | FreeRtos/tasks.c:1466-1623 | the base priority is set, the priority in use only if not inherited, the event item value unless it is in use, and a ready task moves to the end of its new list; nothing else changes |
| KernelEffects.InheritEffect | FreeRtos/tasks.c:3801-3880 | the holder's priority becomes the larger of its own and the running task's, and a ready holder moves to the end of that list; nothing else changes |
| KernelEffects.DisinheritEffect | FreeRtos/tasks.c:3888-3961 | an inherited priority ends with the last mutex held and not before |
| KernelEffects.WithdrawEffect | FreeRtos/tasks.c:3968-4063 | a holder of this mutex only falls to the larger of its own priority and the highest that still waits; a holder of several keeps what it has |
| KernelEffects.CreateEffect | FreeRtos/tasks.c:1027-1106 | a created task is ready at its priority, with its event item coding it and no mutex; nothing else changes |
| KernelEffects.ReadiedGoesLast | FreeRtos/tasks.c:235-239 | a task made ready is picked after the others of its priority but the indexed one |
| KernelBits.BitsAreKept | FreeRtos/tasks.c:250-262 | an event item value that is in use survives every event, priority changes included and whether its task runs or not, but for the few that overwrite it |
| KernelBits.BitsArrive | FreeRtos/tasks.c:2927-3083 | over whole runs, the bits a task waits for or was released with are in its event item until they are taken |
| KernelTime.EarlyEmptyAtWrap | FreeRtos/tasks.c:215-227 | the current delayed list is empty whenever the counter wraps |
| KernelTime.NobodyDueBefore | FreeRtos/tasks.c:2618-2624 | below xNextTaskUnblockTime no task is due, so the scan may be skipped |
| KernelTime.BlockCurrentTimed | FreeRtos/tasks.c:4909-5018 | a block of d ticks makes the task due exactly d true ticks from now, in the list of the right turn, and keeps xNextTaskUnblockTime a lower bound |
| KernelTime.ProcessTickTimed | FreeRtos/tasks.c:2589-2698 | a processed tick makes ready exactly the tasks due at it, across wraps |
| KernelTime.ProcessTicksTimed | FreeRtos/tasks.c:2160-2186 | so does a batch of pended ticks |
| KernelTime.ResumeAllTimed | FreeRtos/tasks.c:2105-2212 | resuming makes ready exactly the pending tasks and those that became due |
| KernelRuns.StepTimed | FreeRtos/tasks.c:2589-2698 | every entry point changes the due times as the unbounded description says |
| KernelRuns.SleepsUntilDue | FreeRtos/tasks.c:4909-5018 | a sleeping task that nothing else unblocks stays asleep until its due tick, over any run |
| KernelRuns.WakesWhenDue | FreeRtos/tasks.c:2589-2758 | the step that processes the due tick makes the task ready |
| KernelRuns.ExactWakeUp | FreeRtos/tasks.c:4909-5018 | a task that blocks for d ticks, in a delay or with a time-out, is ready once the d-th further tick has been processed and not before, through any number of wraps |
| KernelRuns.StepCountsTicks | FreeRtos/tasks.c:2589-2758 | every tick interrupt is processed or pended |
| KernelRuns.NoTickIsLost | FreeRtos/tasks.c:2032-2212 | over every run processed and pended ticks are the interrupts delivered, and nothing is pending while the scheduler runs |
| KernelRuns.ResumptionCatchesUp | FreeRtos/tasks.c:2105-2212 | after the outermost resumption every pending task is ready and no task with a due time up to the new tick is still asleep |
| KernelSwitching.SwitchEffect | FreeRtos/tasks.c:2851-2907 | a switch is put off while the scheduler is suspended; otherwise none is pending after it, and nothing changes but the selection |
| KernelSwitching.TickEffect | FreeRtos/tasks.c:2589-2698 | a processed tick takes exactly the tasks due at it out of their event lists, and the others keep their order in every list |
| KernelSwitching.TickSwitches | FreeRtos/tasks.c:2660-2758 | a tick asks for a switch exactly if one was pending, a task of at least the running task's priority is due, or another task of that priority is ready |
| KernelSwitching.DrainEffect | FreeRtos/tasks.c:2128-2148 | emptying the pending-ready list concerns its tasks only, and leaves a yield pending exactly if one was or one of them has at least the running task's priority |
| KernelSwitching.ResumptionYields | FreeRtos/tasks.c:2105-2212 | after the outermost resumption a yield is pending exactly if one was, or a pending task or one due meanwhile has at least the running task's priority, or ticks were pended and another task of that priority is ready |
| KernelPreemption.StepPreempts | FreeRtos/tasks.c:1027-1896 | every entry point after which the running task is not the highest ready one asks for a switch or leaves one pending |
| KernelPreemption.HighestPriorityRuns | FreeRtos/tasks.c:2851-2907 | over every run from start-up, with interrupts anywhere: unless a switch has been asked for and not been made, or is pending, the running task is ready and no ready task has a higher priority |
| KernelPreemption.GiveKeepsHighestWhen | FreeRtos/queue.c:745-834 | the exact condition under which giving a mutex keeps that: not when the giver's priority falls, a task waits that has no higher priority than the giver's own, and another ready task has |
| KernelPreemption.GiveStrandsReadyTask | FreeRtos/queue.c:798-834 | a state with the scheduler's invariant in which giving a mutex leaves a task of higher priority ready, unasked |
| Timeouts.CheckFinds | FreeRtos/tasks.c:3106-3166 | what the check finds for any elapsed time whatever |
| Timeouts.CheckIsExactWhen | FreeRtos/tasks.c:3106-3166 | the exact condition under which the check is right |
| Timeouts.HiddenTurnIsMissed | FreeRtos/tasks.c:3106-3166 | a finite wait over by more than a turn that the check takes to go on |
| Timeouts.CheckIsExact | FreeRtos/tasks.c:3106-3166 | with at most one wrap it expires exactly when the wait is over, and otherwise keeps the deadline |
| Timeouts.BudgetIsTheRequest | FreeRtos/queue.c:1302-1377 | however often a blocking call goes round its loop, its deadline is the original one |
| Timeouts.InfiniteWaitGoesOn | FreeRtos/tasks.c:3106-3166 | a wait for ever is never over, whenever it is checked |
| Timeouts.TimeOut.CheckForTimeOut | FreeRtos/tasks.c:3106-3166 | the structure updated in place as described on values |
| Timeouts.DelayUntil | FreeRtos/tasks.c:1204-1281 | delays exactly when the wake time is still to come, by exactly what is missing, through wraps |
| Timeouts.PreviousWakeIs | FreeRtos/tasks.c:1204-1281 | the wake time never drifts from start plus k increments |
| Timeouts.DelayTaskUntil | FreeRtos/tasks.c:1204-1281 | a call in time makes the task due at exactly start plus k + 1 increments |
| Timeouts.LoopIsOnTime | FreeRtos/tasks.c:1204-1281 | over any number of rounds, a loop that calls in time wakes at start plus k increments, not before and not later |
| QueueStorage.Queue.constructor | FreeRtos/queue.c:248-298 | a new queue is empty, unlocked, with nobody waiting |
| QueueStorage.Queue.CopyIn | FreeRtos/queue.c:2041-2117 | copying into one slot stays inside the buffer and changes no other slot |
| QueueStorage.Queue.CopyDataToQueue | FreeRtos/queue.c:2041-2117 | an item sent to the back is behind the contents, one sent to the front is before them, an overwriting one replaces them; the count stays within the length exactly when there was room or the overwritten item had bytes |
| QueueStorage.Queue.CopyDataFromQueue | FreeRtos/queue.c:2120-2135 | the front item is copied out and the read position steps on with wrap-around |
| QueueStorage.Queue.Reset | FreeRtos/queue.c:248-298 | empties and unlocks the queue and wakes one sender |
| QueueStorage.Queue.TrySend | FreeRtos/queue.c:745-920 | sends exactly when there is room or by overwriting, to the end asked for, and wakes a receiver |
| QueueStorage.Queue.TryReceive | FreeRtos/queue.c:1265-1378 | takes the front item and wakes a sender |
| QueueStorage.Queue.TryPeek | FreeRtos/queue.c:1629-1668 | copies the front item, leaves the contents unchanged, and wakes the next receiver |
| QueueStorage.Queue.SendFromIsr | FreeRtos/queue.c:924-1069 | sends, to the end asked for; wakes a receiver, or counts in the lock |
| QueueStorage.Queue.ReceiveFromIsr | FreeRtos/queue.c:1751-1836 | receives; wakes a sender, or counts in the lock |
| QueueStorage.Queue.LockQueue | FreeRtos/queue.c:233-245 | locks both sides, keeping counts already there |
| QueueStorage.Queue.UnlockTx | FreeRtos/queue.c:2138-2219 | the loop wakes one receiver for each counted post while any wait |
| QueueStorage.Queue.UnlockRx | FreeRtos/queue.c:2221-2255 | the loop wakes one sender for each counted removal while any wait |
| QueueStorage.FirstInFirstOut | FreeRtos/queue.c:2041-2135 | over any sequence of calls the items sent to the back are received in the order sent, whatever is sent to the front meanwhile, and the rest of them is what is left |
| QueueStorage.ReceivedInOrder | FreeRtos/queue.c:2041-2135 | with sends to the back only, what is received and what is left are what was there and what was sent, in order |
| QueueStorage.FrontIsNext | FreeRtos/queue.c:2074-2092 | an item sent to the front is received next, and then the contents are as before |
| QueueProtocol.SignalTakesHead | FreeRtos/tasks.c:2984-3003 | a wake-up goes to the head of the list and to nobody else |
| QueueProtocol.IsrSignalIs | FreeRtos/queue.c:955-1069 | an interrupt wakes the head at once, or counts, at 127 with a wrap |
| QueueProtocol.UnlockWakes | FreeRtos/queue.c:2138-2255 | unlocking wakes as many as were counted or as there are, from the head on |
| QueueProtocol.TryEffect | FreeRtos/queue.c:1265-1310 | a call succeeds exactly if it finds an item or a place; otherwise it ends or goes on to block |
| QueueProtocol.CallEnds | FreeRtos/queue.c:1265-1378 | a call ends only by succeeding, for want of a block time, or when its time has run out, a receiver then only if the queue is still empty; a task that has blocked always looks again |
| QueueProtocol.UnlockKeeps | FreeRtos/queue.c:2138-2255 | unlocking turns counts into wake-ups without losing one |
| QueueProtocol.IsrSignalKeeps | FreeRtos/queue.c:955-1069 | an interrupt's post is matched by a wake-up or a count |
| QueueProtocol.PeekKeeps | FreeRtos/queue.c:1629-1668 | a peek hands its item's wake-up on to the next waiting task |
| QueueProtocol.StepKeeps | FreeRtos/queue.c:745-920 | every critical section of senders, receivers, peekers and interrupts keeps the balance of items and wake-ups |
| QueueProtocol.NoLostWakeUp | FreeRtos/queue.c:1265-1378 | in every reachable state waiting receivers are matched: items at most woken receivers plus lock count; and senders likewise for free places |
| QueueProtocol.WaitersMeanEmptyOrFull | FreeRtos/queue.c:2138-2255 | with nobody in a blocking section and no woken task outstanding, receivers wait only for an empty queue, senders only for a full one |
| QueueProtocol.OverwriteKeepsWhen | FreeRtos/queue.c:2065-2114 | overwriting keeps the invariant, by task or interrupt, exactly when items have bytes or the queue is empty |
| QueueProtocol.OverwriteCountsTwo | FreeRtos/queue.c:2050-2114 | a full queue of one item of no bytes counts two items after an overwrite |
| QueueProtocol.WrappedLockLosesWakeUps | FreeRtos/queue.c:1058-1058 | an int8_t lock count that wraps wakes nobody |
| QueueProtocol.PostsBalanceWhen | FreeRtos/queue.c:2138-2222 | one more post in a lock interval loses no wake-up exactly when the counter was not full or enough tasks had been woken |
| QueueProtocol.LockFillsUp | FreeRtos/queue.c:955-1069 | a run in which 127 posts fill the counter while a task is blocking, after which the next post loses its wake-up |
| MutexAccounting.SameAsKernel | FreeRtos/tasks.c:3801-4063 | the running task's steps of the accounting change the control blocks exactly as the scheduler's critical sections do |
| MutexAccounting.StepKeeps | FreeRtos/queue.c:1421-1442 | taking, giving, lending and withdrawing keep the accounts |
| MutexAccounting.AccountsAlwaysBalance | FreeRtos/tasks.c:3888-3961 | over every run the held count is the number of mutexes naming the task, priorities are between the base and the maximum, and a task without mutex runs at its base |
| MutexAccounting.FreeOnlyWhenBalanced | FreeRtos/queue.c:575-665 | a recursive mutex is free exactly when every take has been given back |
| Inversion.QueueInOrder | FreeRtos/tasks.c:2910-2924 | the list of waiting tasks stays in order of priority |
| Inversion.GivenIs | FreeRtos/queue.c:2041-2066 | giving restores the giver's priority, readies the head, which has at least the priority of all that still wait, and yields exactly to a higher one or, when nobody waits, after losing an inherited priority |
| Inversion.StepKeeps | FreeRtos/queue.c:1382-1598 | every step of take, block, give, time-out and switch keeps the bound |
| Inversion.InversionIsBounded | FreeRtos/tasks.c:3801-4063 | a waiting task never has a higher priority than the holder, nor, while the mutex is free, than the running task |
| Inversion.InheritanceIsNeeded | FreeRtos/queue.c:1382-1598 | in every reachable state the holder runs at its own priority, or some task of at least the priority it runs at waits for the mutex or has stopped waiting and will take the inheritance back before it leaves |
| Inversion.OnlyTheHolderInherits | FreeRtos/tasks.c:3968-4063 | whoever does not hold the mutex runs at its base priority |
| Timers.DecideFinds | FreeRtos/timers.c:648-686 | insertion says process-now exactly when the time since the command, modulo 2^32, reaches the period |
| Timers.InsertionIsRightWhen | FreeRtos/timers.c:648-686 | the exact condition under which that is right |
| Timers.InsertionIsExact | FreeRtos/timers.c:648-686 | for a command less than 2^32 ticks old: at once if the period is over, otherwise in the list of the expiry's turn; never at once for a command just given |
| Timers.LateCommandIsMisplaced | FreeRtos/timers.c:836-893 | a reload command more than a turn old, for a timer whose period is over, is put in the overflow list |
| Timers.Daemon.InsertTimerInActiveList | FreeRtos/timers.c:648-686 | the lists stay sorted and split by turn, with the timer due at the time its list and value say |
| Timers.Daemon.SwitchTimerLists | FreeRtos/timers.c:836-893 | ends, having handled exactly the expiries of the old turn, touches no timer of the next turn, and leaves every timer on course |
| Timers.Daemon.SampleTimeNow | FreeRtos/timers.c:625-645 | switches the lists exactly when the counter has wrapped |
| Timers.Daemon.ProcessExpiredTimer | FreeRtos/timers.c:463-500 | calls back once and keeps every timer on course: a periodic timer is in a list for one period later, or, if that has passed, has been sent a command with the time it was due |
| Timers.Daemon.ProcessTimerOrBlock | FreeRtos/timers.c:539-596 | waits exactly if the counter has not wrapped and no timer is due, until the first timer of the turn, until the wrap, or for ever if none is active; otherwise, unless the counter has wrapped, calls the first timer once |
| Timers.Daemon.RunUntilWaiting | FreeRtos/timers.c:503-536 | while the clock stands the loop of the daemon ends in a wait, with the queue empty, no timer due, and the callbacks of all timers on course run in full |
| Timers.Daemon.SendCommand | FreeRtos/timers.c:382-422 | an idle timer that is started is on course from the tick its command carries, however much later the command is queued |
| Timers.Daemon.ProcessReceivedCommand | FreeRtos/timers.c:689-830 | does to its timer what the command says, by its age in 32-bit ticks, and keeps every timer on course, but that the command's timer falls behind by the whole turns the command is old |
| Timers.Daemon.ProcessReceivedCommands | FreeRtos/timers.c:689-830 | the loop with a sample for each command follows every timer; while the clock stands it ends with the queue empty |
| Timers.DrainEnds | FreeRtos/timers.c:689-893 | after such a drain a periodic timer whose command was pending has been called for every whole period if and only if the command was less than 2^32 ticks old |
| Timers.SlippedCount | FreeRtos/timers.c:648-686 | falling behind by whole turns costs at least one call |
| Timers.SampledOncePerTurn | FreeRtos/timers.c:836-893 | a run of the daemon, sampling at least once per turn, that leaves a periodic timer with one call after two periods |
| Timers.ReturnsYounger | FreeRtos/timers.c:750-765 | a reload command that comes back is one period younger |
| Timers.Daemon.ChangeTimerPeriod | FreeRtos/timers.c:786-798 | the timer is due exactly one new period from now |
| Timers.CallbacksAreComplete | FreeRtos/timers.c:689-893 | once drained, an auto-reload timer's callback has run exactly once per whole period since its beginning, which is its start unless it has fallen behind |
| StreamBuffer.DecodeEncode | FreeRtos/stream_buffer.c:636-685 | the length in front of a message is recovered |
| StreamBuffer.FramesInjective | FreeRtos/stream_buffer.c:849-896 | the bytes determine the messages |
| StreamBuffer.Buffer.BytesInBuffer | FreeRtos/stream_buffer.c:1118-1135 | counts the contents |
| StreamBuffer.Buffer.SpacesAvailable | FreeRtos/stream_buffer.c:448-469 | bytes and spaces together are always one less than the length |
| StreamBuffer.Buffer.WriteBytes | FreeRtos/stream_buffer.c:1017-1060 | a copy in two pieces appends to the contents |
| StreamBuffer.Buffer.ReadBytes | FreeRtos/stream_buffer.c:1063-1115 | a copy in two pieces takes the front of the contents |
| StreamBuffer.SpaceCheckIsRightWhen | FreeRtos/stream_buffer.c:592-605 | the exact condition under which the space check, whose sum wraps, finds out whether a message fits |
| StreamBuffer.HugeMessagePassesCheck | FreeRtos/stream_buffer.c:592-605 | a message of the largest size passes the check of a buffer with three bytes of space |
| StreamBuffer.Buffer.WriteMessage | FreeRtos/stream_buffer.c:636-685 | a stream takes what fits, a message buffer the whole frame or nothing |
| StreamBuffer.Buffer.Send | FreeRtos/stream_buffer.c:585-633 | the same against the room there is |
| StreamBuffer.Buffer.ReadMessage | FreeRtos/stream_buffer.c:849-896 | the first message whole, or nothing and nothing changed when the caller's buffer is too small |
| StreamBuffer.Buffer.Receive | FreeRtos/stream_buffer.c:792-846 | the same, and nothing from an empty buffer |
| StreamProtocol.StepKeeps | FreeRtos/stream_buffer.c:1017-1115 | copying byte by byte with head and tail published at the end keeps reader and writer apart |
| StreamProtocol.ReadsArePrefixOfWrites | FreeRtos/stream_buffer.c:1017-1135 | in every interleaving the bytes taken are a prefix of the bytes written and no unread byte is overwritten |
| StreamProtocol.LooksAreExact | FreeRtos/stream_buffer.c:448-469 | a look sees exactly the bytes written and not taken, or all the rest of the buffer but one byte |
| MessageProtocol.StepKeeps | FreeRtos/stream_buffer.c:636-896 | the reader sees a length only with its whole message behind it |
| MessageProtocol.MessagesArriveWhole | FreeRtos/stream_buffer.c:849-896 | of a sequence of bytes: the messages received are a prefix of those accepted, whole and in order |
| MessageRing.StepIsStreamStep | FreeRtos/stream_buffer.c:636-896 | after the space check of the sender and the look of the receiver every step of a message buffer is allowed on the ring |
| MessageRing.StepKeeps | FreeRtos/stream_buffer.c:636-1115 | every step on the ring is a step on the sequence of bytes, or changes nothing there |
| MessageRing.LookFinds | FreeRtos/stream_buffer.c:792-846 | a look finds a message exactly if more than a length is there |
| MessageRing.MessagesArriveWhole | FreeRtos/stream_buffer.c:636-1115 | on the ring, in every interleaving of byte copies and publications: messages received are a prefix of those accepted, whole and in order, and the rest lies between tail and head |
| EventGroups.PassIs | FreeRtos/event_groups.c:505-596 | the pass splits the list by each task's own condition |
| EventGroups.PassAppend | FreeRtos/event_groups.c:505-596 | kept and released tasks are in the order in which they waited |
| EventGroups.TestWaitMeans | FreeRtos/event_groups.c:657-689 | bit by bit: every bit waited for is set, or any of them |
| EventGroups.BitsAfterMeans | FreeRtos/event_groups.c:505-596 | bit by bit: a bit is left set exactly if it was set or added, unless a task released waited for it and asked for clearing on exit |
| EventGroups.FoundMeans | FreeRtos/event_groups.c:569-583 | the released tasks find the bits before the clearing, marked as unblocked by bits |
| EventGroups.PassMissesNobody | FreeRtos/event_groups.c:505-596 | after the pass nobody on the list could be released by the bits that are left |
| EventGroups.ClearingSatisfiesNobody | FreeRtos/event_groups.c:447-471 | clearing bits never satisfies a condition |
| EventGroups.CodedMeans | FreeRtos/event_groups.c:657-689 | the event item value with its control bits means the condition the caller asked for |
| EventGroups.EventGroup.SetBits | FreeRtos/event_groups.c:505-596 | the loop releases exactly the satisfied tasks, all with the same value, keeps the rest in order, then clears as EventGroups.BitsAfterMeans says |
| EventGroups.EventGroup.ClearBits | FreeRtos/event_groups.c:447-471 | clears and returns the bits before, and nobody is missed |
| EventGroups.EventGroup.WaitBits | FreeRtos/event_groups.c:315-383 | blocks exactly when the condition is not met and a time was given, and nobody is missed |
| EventGroups.EventGroup.Sync | FreeRtos/event_groups.c:177-245 | returns at once exactly when its bits complete the rendezvous, nobody is missed, and bits and list change as in the rounds of Barrier |
| EventGroups.EventGroup.TimeOut | FreeRtos/event_groups.c:383-444 | one timed-out task leaves the list |
| EventGroups.EventGroup.AfterTimeOut | FreeRtos/event_groups.c:400-444 | a timed-out task tests its condition once more and clears only if it holds |
| Barrier.LastFindsAllWaiting | FreeRtos/event_groups.c:177-294 | the call that completes the bits finds every other task waiting |
| Barrier.StepKeeps | FreeRtos/event_groups.c:177-294 | entering and returning keep the count of rounds |
| Barrier.NobodyPassesEarly | FreeRtos/event_groups.c:177-294 | no task is more than one round ahead, nobody finishes a round before all have entered it, and every call returns all the bits |

## Left out

- Drivers, demos, start-up code, the port layer, stack set-up, MPU wrappers, trace macros, run-time statistics and text formatting: not part of this model.
- Co-routines, queue sets, the queue registry, tickless idle, static allocation and pended callbacks: disabled in this configuration. Memory allocation always succeeds with a fresh object.
- Critical sections and the parts of a call under scheduler suspension are atomic steps; assertions on arguments and on the caller (`configASSERT`) are preconditions of the steps.
- `portmacro.h` is not part of this model: `portMAX_DELAY` is taken as 2^32 - 1, `size_t` as four bytes, least significant first.
- The scheduler is modelled from its start on: creation, suspension and context switches before `vTaskStartScheduler` are not.
- Priorities outside `configMAX_PRIORITIES` are excluded where the source asserts, so the clamping after those assertions is not modelled.
- Notification values, thread-local storage, task names and handles returned to callers are not modelled; only the notification state is.
- The timer daemon's queue is a sequence of commands in Timers; that its wait on that queue is the restricted wait of KernelSteps is not connected formally.
- KernelState keeps list items apart from the control blocks, as maps from tasks to containers; that linked lists refine the sequences used there is proved in IntrusiveList, one list at a time.
- xNumOfOverflows, uxPendedTicks, uxMutexesHeld and uxRecursiveCallCount are unbounded in the model; the source's own integers would wrap after 2^32 steps.
- Exact wake-up is about block times above zero. The timer daemon can ask to wait for no time at all when the tick is zero and only the overflow list is populated.
- KernelSteps.PlacementAlwaysHolds: an interrupt notifies a task only if the event item it would link is free, which KernelSteps.NotifyFromIsrKeepsWhen proves to be exactly what is needed.
- Event lists are not claimed to stay in priority order when the priority of a waiting task changes: the source rewrites the item's value in place without moving it. KernelEffects.WaitOrder is about an ordered list.
- No claim is made that the priority in use is at least the base priority after `vTaskPrioritySet` on a task that has inherited one; MutexAccounting and Inversion have fixed base priorities.
- Inheritance is not transitive in the source, and with several mutexes a yield can be skipped when a waiting task exists that is not of higher priority; Inversion is about one mutex and does not claim immediate pre-emption; KernelPreemption says when it fails. A task does not take a non-recursive mutex that it holds.
- The assertion in `xQueueSemaphoreTake` that no inheritance has occurred at a zero block time is not a theorem: a time-out followed by a failed retry reaches it.
- KernelPreemption.HighestPriorityRuns: interrupts and tasks are assumed to make the switches they are told to, and a time-out not to raise the holder of a mutex, which Inversion proves for one mutex.
- KernelPreemption.GiveStrandsReadyTask: that a run from start-up leads to the state is not proved.
- In which order tasks that become ready in the same step are picked among themselves is not stated.
- QueueProtocol.NoLostWakeUp: fewer than 128 interrupts per lock interval and no reset of a queue in use are assumed; PostsBalanceWhen and LockFillsUp show what the first is needed for. The order in which tasks are put on a waiting list is left open, so the result holds for any.
- QueueStorage.Queue.CopyDataToQueue: for mutexes the copy step also gives back an inherited priority, which is modelled in MutexAccounting and Inversion.
- Timers.CallbacksAreComplete: the command queue never overflows, and callbacks send no commands. The beginning the calls are counted from is the one the timer has after falling behind, if it has. Resetting, stopping or changing a timer while a command for it is pending takes it off course in the model: a stale reload command may then restart it.
- Deleting a timer is treated as stopping it.
- MessageProtocol.StepKeeps: about a sequence of bytes without head, tail or space check; MessageRing.StepKeeps is the same on the ring.
- MessageProtocol.MessagesArriveWhole: likewise; MessageRing.MessagesArriveWhole is the result about the source's ring.
- StreamBuffer.Buffer.Send: a message of 2^32 - 4 bytes or more is sent only if the space check refuses it, as StreamBuffer.SpaceCheckHolds says; otherwise the assertions of the copy fail.
- MessageRing.MessagesArriveWhole: the reader's buffers are large enough. When one is not, the source moves the tail and moves it back, which is modelled only at call granularity (StreamBuffer.Buffer.ReadMessage). Writes are not empty.
- Waiting of stream-buffer readers and writers on task notifications, trigger levels and resets are not modelled.
- Deleting an event group and setting bits from interrupts through the timer daemon are not modelled.
- Barrier.NobodyPassesEarly: nobody else touches the bits of the rendezvous, and no call times out.

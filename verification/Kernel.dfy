/** The scheduler as tasks.c writes it: variables updated in place and loops over the lists. Every method
    is proved to have exactly the effect of the function of the same critical section in KernelState. */
module Kernel {
  import opened Ticks
  import opened Rings
  import opened KernelState
  import opened KernelPlacement
  import opened KernelSteps
  import opened KernelPreemption

  class Scheduler {
    var tick: nat
    var overflows: nat
    var tcb: map<Task, Tcb>
    var lists: map<ListId, Line>
    var place: map<Task, ListId>
    var wake: map<Task, nat>
    var events: map<EventId, seq<Task>>
    var waiting: map<Task, EventId>
    var delayed: ListId
    var overflow: ListId
    var nextUnblock: nat
    var suspended: nat
    var pended: nat
    var yieldPending: bool
    var current: Task
    var topReady: nat
    var tasks: nat
    var cleanups: nat

    function View(): State
      reads this
    {
      State(tick, overflows, tcb, lists, place, wake, events, waiting, delayed, overflow, nextUnblock,
            suspended, pended, yieldPending, current, topReady, tasks, cleanups)
    }

    /** vTaskStartScheduler with one application task. */
    constructor (t: Task, priority: nat)
      requires priority < PRIORITIES
      ensures View() == Boot(t, priority) && Inv(View())
    {
      tick, overflows := 0, 0;
      tcb := map[t := Tcb(priority, priority, 0, PRIORITIES - priority, NotWaiting)];
      lists, place, wake := map[Ready(priority) := Ring([t], 0)], map[t := Ready(priority)], map[];
      events, waiting := map[], map[];
      delayed, overflow, nextUnblock := Delayed1, Delayed2, MAX_DELAY;
      suspended, pended, yieldPending := 0, 0, false;
      current, topReady, tasks, cleanups := t, priority, 1, 0;
      BootOk(t, priority);
    }

    // ---- list items -------------------------------------------------------------------------

    method RemoveStateItem(t: Task)
      requires t in place
      modifies `lists, `place
      ensures View() == TakeOff(old(View()), t)
    {
      var line := L(lists, place[t]);
      if t in line.items {
        line := Remove(line, t);
      }
      lists := lists[place[t] := line];
      place := place - {t};
    }

    method RemoveEventItem(t: Task)
      modifies `events, `waiting
      ensures View() == DropEvent(old(View()), t)
    {
      if t in waiting {
        var line := E(events, waiting[t]);
        if t in line {
          line := Without(line, Find(line, t));
        }
        events := events[waiting[t] := line];
        waiting := waiting - {t};
      }
    }

    /** prvAddTaskToReadyList */
    method AddTaskToReadyList(t: Task)
      requires t in tcb
      modifies `lists, `place, `topReady
      ensures View() == MakeReady(old(View()), t)
    {
      var p := tcb[t].priority;
      if p > topReady {
        topReady := p;
      }
      lists := lists[Ready(p) := InsertEnd(L(lists, Ready(p)), t)];
      place := place[t := Ready(p)];
    }

    /** prvResetNextTaskUnblockTime */
    method ResetNextTaskUnblockTime()
      modifies `nextUnblock
      ensures View() == ResetNextUnblock(old(View()))
    {
      var line := L(lists, delayed).items;
      if line == [] {
        nextUnblock := MAX_DELAY;
      } else {
        nextUnblock := WakeOf(wake, line[0]);
      }
    }

    /** vListInsertEnd of a state list item */
    method InsertStateItemEnd(id: ListId, t: Task)
      modifies `lists, `place
      ensures View() == PutEnd(old(View()), id, t)
    {
      lists := lists[id := InsertEnd(L(lists, id), t)];
      place := place[t := id];
    }

    // ---- blocking ---------------------------------------------------------------------------

    /** prvAddCurrentTaskToDelayedList */
    method AddCurrentTaskToDelayedList(ticks: nat, canBlockIndefinitely: bool)
      requires current in tcb && current in place
      modifies `lists, `place, `wake, `nextUnblock
      ensures View() == BlockCurrent(old(View()), ticks, canBlockIndefinitely)
    {
      hide TakeOff, PutEnd, PutSorted, L, Wrap;
      var constTick := tick;
      RemoveStateItem(current);
      if ticks == MAX_DELAY && canBlockIndefinitely {
        InsertStateItemEnd(Suspended, current);
      } else {
        var timeToWake := Wrap(constTick + ticks);
        wake := wake[current := timeToWake];
        if timeToWake < constTick {
          InsertStateItemSorted(overflow, current);
        } else {
          PutSortedAside(View(), delayed, current, if timeToWake < nextUnblock then timeToWake else nextUnblock);
          InsertStateItemSorted(delayed, current);
          if timeToWake < nextUnblock {
            nextUnblock := timeToWake;
          }
        }
      }
    }

    /** vListInsert of a state list item; the search for the place is List.InsertSorted of IntrusiveList. */
    method InsertStateItemSorted(id: ListId, t: Task)
      modifies `lists, `place
      ensures View() == PutSorted(old(View()), id, t)
    {
      var line := L(lists, id);
      lists := lists[id := InsertAt(line, FirstAbove(Wakes(line.items, wake), WakeOf(wake, t)), t)];
      place := place[t := id];
    }

    // ---- the tick ---------------------------------------------------------------------------

    /** One pass of the loop of xTaskIncrementTick. */
    method UnblockExpiredTask(t: Task)
      requires t in tcb && t in place
      modifies `lists, `place, `topReady, `events, `waiting
      ensures View() == Expire(old(View()), t)
    {
      hide DropEvent, TakeOff, MakeReady;
      RemoveStateItem(t);
      RemoveEventItem(t);
      AddTaskToReadyList(t);
    }

    /** The loop of xTaskIncrementTick. */
    method UnblockExpiredTasks() returns (switchRequired: bool)
      requires Inv(View())
      modifies `lists, `place, `topReady, `events, `waiting, `nextUnblock
      ensures View() == WakeExpired(old(View()), |L(old(lists), delayed).items|)
      ensures Inv(View()) && switchRequired == Preempts(old(View()), View())
    {
      hide Inv, Expire, Preempts, ResetNextUnblock, WakeExpired, Unblocking, L, WakeOf;
      switchRequired := false;
      ghost var n: nat := |L(lists, delayed).items|;
      ghost var start := View();
      UnblockingStarts(start);
      while L(lists, delayed).items != [] && WakeOf(wake, L(lists, delayed).items[0]) <= tick
        invariant Unblocking(start, View(), n, switchRequired)
        decreases n
      {
        var t := L(lists, delayed).items[0];
        UnblockingGoesOn(start, View(), n, switchRequired);
        UnblockExpiredTask(t);
        if tcb[t].priority >= tcb[current].priority {
          switchRequired := true;
        }
        n := n - 1;
      }
      UnblockingEnds(start, View(), n, switchRequired);
      ResetNextTaskUnblockTime();
    }

    /** Count the tick; when the counter wraps, taskSWITCH_DELAYED_LISTS. */
    method CountTick()
      modifies `tick, `overflows, `delayed, `overflow, `nextUnblock
      ensures View() == Counted(old(View()))
    {
      hide L, Wrap, WakeOf;
      tick := Wrap(tick + 1);
      if tick == 0 {
        delayed, overflow := overflow, delayed;
        overflows := overflows + 1;
        ResetNextTaskUnblockTime();
      }
    }

    /** xTaskIncrementTick */
    method IncrementTick() returns (switchRequired: bool)
      requires Inv(View())
      modifies `tick, `overflows, `delayed, `overflow, `lists, `place, `topReady, `events, `waiting, `nextUnblock,
        `pended
      ensures View() == Tick(old(View())) && Inv(View())
      ensures switchRequired == SwitchRequired(old(View()), View())
    {
      hide Inv, WakeExpired, Preempts, TimeSliceEnds, L, Counted, ProcessTick;
      switchRequired := false;
      if suspended == 0 {
        CountedTick(View());
        CountedKeeps(View());
        CountTick();
        ghost var counted := View();
        if tick >= nextUnblock {
          switchRequired := UnblockExpiredTasks();
        }
        CountedSwitch(old(View()), counted, View());
        if TimeSliceEnds(View()) {
          switchRequired := true;
        }
      } else {
        TcbFieldPended(View());
        pended := pended + 1;
      }
      if yieldPending {
        switchRequired := true;
      }
    }

    // ---- suspension of the scheduler ----------------------------------------------------------

    /** vTaskSuspendAll */
    method SuspendAll()
      modifies `suspended
      ensures View() == KernelState.SuspendAll(old(View())) && suspended == old(suspended) + 1
    {
      suspended := suspended + 1;
    }

    /** One pass of the pending-ready loop of xTaskResumeAll. */
    method ReadyPendingTask(t: Task)
      requires t in tcb && t in place && current in tcb
      modifies `lists, `place, `topReady, `events, `waiting, `yieldPending
      ensures View() == ReadyPending(old(View()), t)
    {
      hide DropEvent, TakeOff, MakeReady, ReadyPending;
      ReadyPendingSteps(View(), t);
      RemoveEventItem(t);
      RemoveStateItem(t);
      AddTaskToReadyList(t);
      if tcb[t].priority >= tcb[current].priority {
        yieldPending := true;
      }
    }

    /** The pending-ready loop of xTaskResumeAll. */
    method ReadyPendingTasks() returns (any: bool)
      requires Resuming(View())
      modifies `lists, `place, `topReady, `events, `waiting, `yieldPending
      ensures View() == DrainPending(old(View()), |E(old(events), Pending)|)
      ensures Inv(View()) && any == (E(old(events), Pending) != [])
    {
      hide Inv, Resuming, ReadyPending;
      any := false;
      ghost var n := |E(events, Pending)|;
      ghost var start := View();
      PendingFront(start);
      while E(events, Pending) != []
        invariant Resuming(View()) && n == |E(events, Pending)|
        invariant E(events, Pending) != [] ==>
                    E(events, Pending)[0] in tcb && E(events, Pending)[0] in place && current in tcb
        invariant DrainPending(View(), n) == DrainPending(start, |E(start.events, Pending)|)
        invariant any == (n < |E(start.events, Pending)|)
        decreases n
      {
        any := true;
        PendingFront(View());
        ReadyPendingTask(E(events, Pending)[0]);
        n := n - 1;
        PendingFront(View());
      }
      NoPending(View());
    }

    /** The loop of xTaskResumeAll over the pended ticks. */
    method ProcessPendedTicks()
      requires Inv(View()) && suspended == 0
      modifies this
      ensures View() == ProcessTicks(old(View()), old(pended)).(pended := 0)
      ensures Inv(View()) && suspended == 0
    {
      hide Inv, PendedTick, ProcessTick, SwitchRequired;
      var pendedCounts := pended;
      while pendedCounts > 0
        invariant Inv(View()) && suspended == 0
        invariant ProcessTicks(View(), pendedCounts) == ProcessTicks(old(View()), old(pended))
      {
        ghost var before := View();
        var switchRequired := IncrementTick();
        ghost var ticked := View();
        if switchRequired {
          yieldPending := true;
        }
        PendedTickSteps(before, ticked, View(), switchRequired);
        pendedCounts := pendedCounts - 1;
      }
      ResetKeeps(View());
      pended := 0;
    }

    /** The part of xTaskResumeAll done when the last suspension ends. */
    method CatchUp()
      requires Resuming(View()) && suspended == 0
      modifies this
      ensures View() == Reopen(old(View())) && suspended == 0
    {
      hide Inv, DrainPending, ProcessTicks, ResetNextUnblock, Resuming, E;
      var any := ReadyPendingTasks();
      ResetKeeps(View());
      if any {
        ResetNextTaskUnblockTime();
      }
      ProcessPendedTicks();
    }

    /** xTaskResumeAll; the result says whether the running task has already yielded. */
    method ResumeAll() returns (alreadyYielded: bool)
      requires Inv(View()) && suspended > 0
      modifies this
      ensures View() == KernelState.ResumeAll(old(View())) && Inv(View())
      ensures alreadyYielded == (suspended == 0 && yieldPending)
    {
      hide Inv, Reopen, Resuming;
      alreadyYielded := false;
      ResumeAllKeeps(View());
      ReopeningStarts(View());
      suspended := suspended - 1;
      if suspended == 0 && tasks > 0 {
        CatchUp();
        alreadyYielded := yieldPending;
      }
    }

    // ---- selection ------------------------------------------------------------------------------

    /** The search loop of taskSELECT_HIGHEST_PRIORITY_TASK */
    method HighestReady() returns (p: nat)
      ensures p == TopPriority(View(), topReady)
    {
      p := topReady;
      while p > 0 && L(lists, Ready(p)).items == []
        invariant TopPriority(View(), p) == TopPriority(View(), topReady)
      {
        p := p - 1;
      }
    }

    /** vTaskSwitchContext */
    method SwitchContext()
      requires suspended > 0 || L(lists, Ready(TopPriority(View(), topReady))).items != []
      modifies `yieldPending, `topReady, `lists, `current
      ensures View() == KernelState.SwitchContext(old(View()))
    {
      hide TopPriority, L;
      if suspended > 0 {
        yieldPending := true;
      } else {
        var p := HighestReady();
        yieldPending := false;
        topReady := p;
        var line := Next(L(lists, Ready(p)));
        lists := lists[Ready(p) := line];
        current := Picked(line);
      }
    }

    // ---- events -----------------------------------------------------------------------------

    /** vTaskPlaceOnEventList */
    method PlaceOnEventList(obj: nat, ticks: nat)
      requires current in tcb && current in place
      modifies `events, `waiting, `lists, `place, `wake, `nextUnblock
      ensures View() == KernelState.PlaceOnEventList(old(View()), obj, ticks)
    {
      hide BlockCurrent, E;
      var line := E(events, Object(obj));
      var place := FirstAbove(EventValues(line, tcb), EventValueOf(tcb, current));
      events := events[Object(obj) := Insert(line, place, current)];
      waiting := waiting[current := Object(obj)];
      AddCurrentTaskToDelayedList(ticks, true);
    }

    /** vListInsertEnd of an event list item */
    method InsertEventItemEnd(e: EventId, t: Task)
      modifies `events, `waiting
      ensures View() == PutEventEnd(old(View()), e, t)
    {
      events := events[e := E(events, e) + [t]];
      waiting := waiting[t := e];
    }

    /** vTaskPlaceOnUnorderedEventList */
    method PlaceOnUnorderedEventList(obj: nat, value: nat, ticks: nat)
      requires current in tcb && current in place
      modifies `tcb, `events, `waiting, `lists, `place, `wake, `nextUnblock
      ensures View() == KernelState.PlaceOnUnorderedEventList(old(View()), obj, value, ticks)
    {
      hide BlockCurrent, PutEventEnd;
      tcb := tcb[current := tcb[current].(eventValue := InUse(value))];
      InsertEventItemEnd(Object(obj), current);
      AddCurrentTaskToDelayedList(ticks, true);
    }

    /** vTaskPlaceOnEventListRestricted */
    method PlaceOnEventListRestricted(obj: nat, ticks: nat, waitIndefinitely: bool)
      requires current in tcb && current in place
      modifies `events, `waiting, `lists, `place, `wake, `nextUnblock
      ensures View() == KernelState.PlaceOnEventListRestricted(old(View()), obj, ticks, waitIndefinitely)
    {
      hide BlockCurrent, PutEventEnd;
      InsertEventItemEnd(Object(obj), current);
      AddCurrentTaskToDelayedList(if waitIndefinitely then MAX_DELAY else ticks, waitIndefinitely);
    }

    /** The choice between the ready list and the pending-ready list in the interrupt-safe functions. */
    method UnblockTask(t: Task)
      requires t in tcb && t in place
      modifies `lists, `place, `topReady, `events, `waiting
      ensures View() == Unblock(old(View()), t)
    {
      hide TakeOff, MakeReady, PutEventEnd;
      if suspended == 0 {
        RemoveStateItem(t);
        AddTaskToReadyList(t);
      } else {
        InsertEventItemEnd(Pending, t);
      }
    }

    /** xTaskRemoveFromEventList; the result tells the caller to yield. */
    method RemoveFromEventList(obj: nat) returns (higher: bool)
      requires E(events, Object(obj)) != [] && E(events, Object(obj))[0] in tcb && E(events, Object(obj))[0] in place
      requires current in tcb
      modifies `lists, `place, `topReady, `events, `waiting, `yieldPending
      ensures View() == KernelState.RemoveFromEventList(old(View()), E(old(events), Object(obj))[0])
      ensures higher == Outranks(old(View()), E(old(events), Object(obj))[0])
    {
      hide DropEvent, Unblock, E;
      var t := E(events, Object(obj))[0];
      RemoveEventItem(t);
      UnblockTask(t);
      higher := tcb[t].priority > tcb[current].priority;
      if higher {
        yieldPending := true;
      }
    }

    /** vTaskRemoveFromUnorderedEventList */
    method RemoveFromUnorderedEventList(t: Task, value: nat)
      requires t in tcb && t in place && current in tcb
      modifies `tcb, `lists, `place, `topReady, `events, `waiting, `yieldPending
      ensures View() == KernelState.RemoveFromUnorderedEventList(old(View()), t, value)
    {
      hide DropEvent, TakeOff, MakeReady;
      tcb := tcb[t := tcb[t].(eventValue := InUse(value))];
      RemoveEventItem(t);
      RemoveStateItem(t);
      AddTaskToReadyList(t);
      if tcb[t].priority > tcb[current].priority {
        yieldPending := true;
      }
    }

    /** uxTaskResetEventItemValue */
    method ResetEventItemValue() returns (value: nat)
      requires current in tcb && tcb[current].priority < PRIORITIES
      modifies `tcb
      ensures View() == ResetEventValue(old(View())) && value == old(tcb)[current].eventValue
    {
      value := tcb[current].eventValue;
      tcb := tcb[current := tcb[current].(eventValue := PRIORITIES - tcb[current].priority)];
    }

    // ---- notifications ----------------------------------------------------------------------

    /** The first critical section of ulTaskNotifyTake and xTaskNotifyWait, when no notification is there. */
    method AwaitNotification(ticks: nat)
      requires current in tcb && current in place
      modifies `tcb, `lists, `place, `wake, `nextUnblock
      ensures View() == WaitForNotification(old(View()), ticks)
    {
      hide BlockCurrent;
      tcb := tcb[current := tcb[current].(notify := Waiting)];
      if ticks > 0 {
        AddCurrentTaskToDelayedList(ticks, true);
      }
    }

    /** xTaskGenericNotify; the result is whether it yields. */
    method Notify(t: Task) returns (yieldRequired: bool)
      requires t in tcb && t in place && current in tcb
      modifies `tcb, `lists, `place, `topReady
      ensures View() == KernelState.Notify(old(View()), t)
      ensures yieldRequired == (old(tcb)[t].notify == Waiting && old(tcb)[t].priority > old(tcb)[current].priority)
    {
      hide TakeOff, MakeReady;
      var original := tcb[t].notify;
      tcb := tcb[t := tcb[t].(notify := Received)];
      yieldRequired := false;
      if original == Waiting {
        RemoveStateItem(t);
        AddTaskToReadyList(t);
        yieldRequired := tcb[t].priority > tcb[current].priority;
      }
    }

    /** xTaskGenericNotifyFromISR */
    method NotifyFromIsr(t: Task)
      requires t in tcb && t in place && current in tcb
      modifies `tcb, `lists, `place, `topReady, `events, `waiting, `yieldPending
      ensures View() == KernelState.NotifyFromIsr(old(View()), t)
    {
      hide Unblock;
      var original := tcb[t].notify;
      tcb := tcb[t := tcb[t].(notify := Received)];
      if original == Waiting {
        UnblockTask(t);
        if tcb[t].priority > tcb[current].priority {
          yieldPending := true;
        }
      }
    }

    // ---- creation, deletion, suspension and priorities of tasks -----------------------------

    /** prvAddNewTaskToReadyList, once the scheduler runs; the result is whether it yields. */
    method Create(t: Task, priority: nat) returns (yieldRequired: bool)
      requires t !in tcb && priority < PRIORITIES && current in tcb
      modifies `tcb, `tasks, `lists, `place, `topReady
      ensures View() == KernelState.Create(old(View()), t, priority)
      ensures yieldRequired == Asks(old(View()), CreateTask(t, priority))
    {
      hide MakeReady;
      tasks := tasks + 1;
      tcb := tcb[t := Tcb(priority, priority, 0, PRIORITIES - priority, NotWaiting)];
      AddTaskToReadyList(t);
      yieldRequired := tcb[current].priority < tcb[t].priority;
    }

    /** vTaskDelete */
    method Delete(t: Task)
      requires t in tcb && t in place && tasks > 0
      modifies `tcb, `lists, `place, `events, `waiting, `tasks, `cleanups, `nextUnblock
      ensures View() == KernelState.Delete(old(View()), t)
    {
      hide DropEvent, TakeOff, PutEnd, ResetNextUnblock;
      RemoveStateItem(t);
      RemoveEventItem(t);
      if t == current {
        InsertStateItemEnd(Termination, t);
        cleanups := cleanups + 1;
      } else {
        tasks := tasks - 1;
        tcb := tcb - {t};
        ResetNextTaskUnblockTime();
      }
    }

    /** One pass of the loop of prvCheckTasksWaitingTermination. */
    method CleanUpTask(t: Task)
      requires t in tcb && t in place && tasks > 0 && cleanups > 0
      modifies `tcb, `lists, `place, `tasks, `cleanups
      ensures View() == CleanUp(old(View()), t) && cleanups == old(cleanups) - 1
    {
      hide TakeOff;
      RemoveStateItem(t);
      tasks := tasks - 1;
      cleanups := cleanups - 1;
      tcb := tcb - {t};
    }

    /** prvCheckTasksWaitingTermination, run by the idle task: every deleted task is forgotten. */
    method CheckTasksWaitingTermination()
      requires Inv(View()) && current !in L(lists, Termination).items
      modifies `tcb, `lists, `place, `tasks, `cleanups
      ensures Inv(View()) && cleanups == 0 && L(lists, Termination).items == []
      ensures tasks == old(tasks) - old(cleanups)
      ensures tcb == old(tcb) - Elements(L(old(lists), Termination).items)
    {
      hide Inv, CleanUp, Cleaning, L;
      ghost var start := View();
      CleaningStarts(start);
      while cleanups > 0
        invariant Cleaning(start, View())
      {
        CleaningGoesOn(start, View());
        CleanUpTask(L(lists, Termination).items[0]);
      }
      CleaningEnds(start, View());
    }

    /** vTaskSuspend, when no interrupt comes between its two critical sections */
    method Suspend(t: Task)
      requires t in tcb && t in place
      modifies `tcb, `lists, `place, `events, `waiting, `nextUnblock
      ensures View() == ResetNextUnblock(SuspendTask(old(View()), t))
    {
      hide SuspendTask, ResetNextUnblock;
      MoveToSuspended(t);
      ResetNextTaskUnblockTime();
    }

    /** The first critical section of vTaskSuspend. */
    method MoveToSuspended(t: Task)
      requires t in tcb && t in place
      modifies `tcb, `lists, `place, `events, `waiting
      ensures View() == SuspendTask(old(View()), t)
    {
      hide DropEvent, TakeOff, PutEnd;
      RemoveStateItem(t);
      RemoveEventItem(t);
      InsertStateItemEnd(Suspended, t);
      if tcb[t].notify == Waiting {
        tcb := tcb[t := tcb[t].(notify := NotWaiting)];
      }
    }

    /** xTaskResumeFromISR; the result tells the interrupt to yield. */
    method ResumeFromIsr(t: Task) returns (yieldRequired: bool)
      requires current in tcb
      modifies `lists, `place, `topReady, `events, `waiting
      ensures View() == KernelState.ResumeFromIsr(old(View()), t)
      ensures yieldRequired == (TaskIsSuspended(old(View()), t) && suspended == 0
                                && old(tcb)[t].priority >= old(tcb)[current].priority)
    {
      hide Unblock;
      yieldRequired := false;
      if TaskIsSuspended(View(), t) {
        yieldRequired := suspended == 0 && tcb[t].priority >= tcb[current].priority;
        UnblockTask(t);
      }
    }

    /** vTaskResume; the result is whether it yields. */
    method Resume(t: Task) returns (yieldRequired: bool)
      requires current in tcb
      modifies `lists, `place, `topReady
      ensures View() == ResumeTask(old(View()), t)
      ensures yieldRequired == Asks(old(View()), Unpark(t))
    {
      hide TakeOff, MakeReady;
      yieldRequired := false;
      if t != current && TaskIsSuspended(View(), t) {
        RemoveStateItem(t);
        AddTaskToReadyList(t);
        yieldRequired := tcb[t].priority >= tcb[current].priority;
      }
    }

    /** The common part of the functions that change uxPriority. */
    method Retune(t: Task, changed: Tcb)
      requires t in tcb
      modifies `tcb, `lists, `place, `topReady
      ensures View() == Reprioritise(old(View()), t, changed)
    {
      hide TakeOff, MakeReady;
      if t in place && place[t] == Ready(tcb[t].priority) {
        RemoveStateItem(t);
        tcb := tcb[t := changed];
        AddTaskToReadyList(t);
      } else {
        tcb := tcb[t := changed];
      }
    }

    /** vTaskPrioritySet; the result is whether it yields. */
    method PrioritySet(t: Task, priority: nat) returns (yieldRequired: bool)
      requires t in tcb && current in tcb && priority < PRIORITIES
      modifies `tcb, `lists, `place, `topReady
      ensures View() == SetPriority(old(View()), t, priority)
      ensures yieldRequired == SettingAsks(old(View()), t, priority)
    {
      hide Reprioritise, CodedPriority;
      var c := tcb[t];
      yieldRequired := false;
      if c.basePriority != priority {
        if priority > c.basePriority {
          if t != current {
            yieldRequired := priority >= tcb[current].priority;
          }
        } else if t == current {
          yieldRequired := true;
        }
        Retune(t, c.(priority := if c.basePriority == c.priority then priority else c.priority,
                     basePriority := priority, eventValue := CodedPriority(c, priority)));
      }
    }

    /** xTaskPriorityInherit */
    method PriorityInherit(holder: Task) returns (inherited: bool)
      requires holder in tcb && current in tcb
      modifies `tcb, `lists, `place, `topReady
      ensures View() == Inherit(old(View()), holder)
      ensures inherited == (old(tcb)[holder].priority < old(tcb)[current].priority
                            || old(tcb)[holder].basePriority < old(tcb)[current].priority)
    {
      hide Reprioritise, CodedPriority;
      var p := tcb[current].priority;
      if tcb[holder].priority < p {
        Retune(holder, tcb[holder].(priority := p, eventValue := CodedPriority(tcb[holder], p)));
        inherited := true;
      } else {
        inherited := tcb[holder].basePriority < p;
      }
    }

    /** xTaskPriorityDisinherit, called by the holder */
    method PriorityDisinherit() returns (yieldRequired: bool)
      requires current in tcb && tcb[current].mutexesHeld > 0
      modifies `tcb, `lists, `place, `topReady
      ensures View() == Disinherit(old(View()))
      ensures yieldRequired == (old(tcb)[current].priority != old(tcb)[current].basePriority
                                && old(tcb)[current].mutexesHeld == 1)
    {
      hide Reprioritise;
      var c := tcb[current].(mutexesHeld := tcb[current].mutexesHeld - 1);
      yieldRequired := false;
      if c.priority != c.basePriority && c.mutexesHeld == 0 {
        var coded := if c.basePriority <= PRIORITIES then PRIORITIES - c.basePriority else 0;
        Retune(current, c.(priority := c.basePriority, eventValue := coded));
        yieldRequired := true;
      } else {
        tcb := tcb[current := c];
      }
    }

    /** vTaskPriorityDisinheritAfterTimeout */
    method PriorityDisinheritAfterTimeout(holder: Task, highestWaiting: nat)
      requires holder in tcb
      modifies `tcb, `lists, `place, `topReady
      ensures View() == DisinheritAfterTimeout(old(View()), holder, highestWaiting)
    {
      hide Reprioritise, CodedPriority;
      var c := tcb[holder];
      var p := c.basePriority;
      if p < highestWaiting {
        p := highestWaiting;
      }
      if c.priority != p && c.mutexesHeld == 1 {
        Retune(holder, c.(priority := p, eventValue := CodedPriority(c, p)));
      }
    }
  }

  // ---- lemmas for the loops ---------------------------------------------------------------------

  lemma DelayedHead(s: State)
    requires Inv(s)
    ensures L(s.lists, s.delayed).items != [] ==>
              var t := L(s.lists, s.delayed).items[0];
              && t in s.tcb && t in s.place && s.place[t] == s.delayed && !s.delayed.Ready?
              && s.current in s.tcb && Inv(Expire(s, t))
              && |L(Expire(s, t).lists, s.delayed).items| == |L(s.lists, s.delayed).items| - 1
  {
    if L(s.lists, s.delayed).items != [] {
      var t := L(s.lists, s.delayed).items[0];
      assert t in L(s.lists, s.delayed).items;
      ExpireKeeps(s, t);
    }
  }

  lemma WakeExpiredSteps(s: State, t: Task, n: nat)
    requires n > 0 && L(s.lists, s.delayed).items != [] && t == L(s.lists, s.delayed).items[0]
    requires t in s.tcb && t in s.place && WakeOf(s.wake, t) <= s.tick
    ensures WakeExpired(s, n) == WakeExpired(Expire(s, t), n - 1)
  {
    hide Expire, L, WakeOf;
  }

  lemma WakeExpiredStops(s: State, n: nat)
    requires L(s.lists, s.delayed).items == [] || WakeOf(s.wake, L(s.lists, s.delayed).items[0]) > s.tick
    ensures WakeExpired(s, n) == ResetNextUnblock(s)
  {
    hide ResetNextUnblock, L, WakeOf, Expire;
  }

  /** The loop of xTaskIncrementTick with n tasks left in the delayed list. */
  ghost predicate Unblocking(start: State, s: State, n: nat, switchRequired: bool) {
    && Inv(s) && n == |L(s.lists, s.delayed).items|
    && WakeExpired(s, n) == WakeExpired(start, |L(start.lists, start.delayed).items|)
    && MovedToReady(start, s) && switchRequired == Preempts(start, s)
  }

  lemma UnblockingStarts(s: State)
    requires Inv(s)
    ensures Unblocking(s, s, |L(s.lists, s.delayed).items|, false)
  {
    hide Inv, WakeExpired;
    NoneMoved(s);
  }

  lemma UnblockingGoesOn(start: State, s: State, n: nat, switchRequired: bool)
    requires Unblocking(start, s, n, switchRequired)
    requires L(s.lists, s.delayed).items != [] && WakeOf(s.wake, L(s.lists, s.delayed).items[0]) <= s.tick
    ensures var t := L(s.lists, s.delayed).items[0];
            && n > 0 && t in s.tcb && t in s.place && s.current in s.tcb
            && Unblocking(start, Expire(s, t), n - 1, switchRequired || s.tcb[t].priority >= s.tcb[s.current].priority)
  {
    hide Inv, WakeExpired, Expire, MovedToReady, Preempts, WakeOf;
    DelayedHead(s);
    var t := L(s.lists, s.delayed).items[0];
    WakeExpiredSteps(s, t, n);
    OneMoreMoved(start, s, t);
  }

  lemma UnblockingEnds(start: State, s: State, n: nat, switchRequired: bool)
    requires Unblocking(start, s, n, switchRequired)
    requires L(s.lists, s.delayed).items == [] || WakeOf(s.wake, L(s.lists, s.delayed).items[0]) > s.tick
    ensures ResetNextUnblock(s) == WakeExpired(start, |L(start.lists, start.delayed).items|)
    ensures Inv(ResetNextUnblock(s)) && switchRequired == Preempts(start, ResetNextUnblock(s))
  {
    hide Inv, WakeExpired, Preempts, WakeOf, ResetNextUnblock, MovedToReady;
    WakeExpiredStops(s, n);
    ResetKeeps(s);
    ResetMovesNone(start, s);
  }

  lemma CurrentIsLive(s: State)
    requires Inv(s)
    ensures s.current in s.tcb
  {
    hide Core;
  }

  /** The tasks whose place differs between s and r are all in ready lists in r. */
  predicate MovedToReady(s: State, r: State) {
    && r.place.Keys == s.place.Keys && r.tcb == s.tcb && r.current == s.current
    && forall t | t in s.place :: r.place[t] == s.place[t] || r.place[t].Ready?
  }

  lemma NoneMoved(s: State)
    ensures MovedToReady(s, s) && !Preempts(s, s)
  {
  }

  lemma OneMoreMoved(start: State, s: State, t: Task)
    requires MovedToReady(start, s) && t in s.tcb && t in s.place && !s.place[t].Ready? && s.current in s.tcb
    ensures MovedToReady(start, Expire(s, t))
    ensures Preempts(start, Expire(s, t))
         == (Preempts(start, s) || s.tcb[t].priority >= s.tcb[s.current].priority)
  {
    hide Expire;
    var r := Expire(s, t);
    assert r.place[t] != start.place[t];
    if Preempts(start, s) {
      var u :| u in start.place && u in s.place && s.place[u] != start.place[u]
                && u in start.tcb && start.current in start.tcb
                && start.tcb[u].priority >= start.tcb[start.current].priority;
      assert r.place[u] != start.place[u];
    }
  }

  lemma ResetMovesNone(start: State, s: State)
    ensures Preempts(start, ResetNextUnblock(s)) == Preempts(start, s)
  {
  }

  /** The state between counting a tick and waking the tasks due at it. */
  function Counted(s: State): State {
    var s1 := s.(tick := Wrap(s.tick + 1));
    if s1.tick == 0 then SwitchDelayedLists(s1) else s1
  }

  lemma CountedTick(s: State)
    ensures var c := Counted(s);
            && ProcessTick(s) == (if c.tick >= c.nextUnblock then WakeExpired(c, |L(c.lists, c.delayed).items|) else c)
            && c.place == s.place && c.tcb == s.tcb && c.current == s.current
  {
    hide WakeExpired, L, Wrap;
  }

  lemma CountedKeeps(s: State)
    requires Inv(s)
    ensures Inv(Counted(s))
  {
    hide Inv, SwitchDelayedLists;
    SwitchDelayedListsKeeps(s);
  }

  lemma CountedSwitch(s: State, c: State, r: State)
    requires c == Counted(s)
    ensures Preempts(s, r) == Preempts(c, r)
    ensures !Preempts(c, c)
  {
    CountedTick(s);
    hide Counted, ProcessTick;
  }

  lemma PendingFront(s: State)
    requires Resuming(s)
    ensures E(s.events, Pending) != [] ==>
              var t := E(s.events, Pending)[0];
              && t in s.tcb && t in s.place && s.current in s.tcb && Resuming(ReadyPending(s, t))
              && |E(ReadyPending(s, t).events, Pending)| == |E(s.events, Pending)| - 1
  {
    if E(s.events, Pending) != [] {
      PendingHead(s, E(s.events, Pending)[0]);
      ReadyPendingKeeps(s, E(s.events, Pending)[0]);
    }
  }

  lemma ReadyPendingSteps(s: State, t: Task)
    requires t in s.tcb && t in s.place && s.current in s.tcb
    ensures var r := MakeReady(TakeOff(DropEvent(s, t), t), t);
            ReadyPending(s, t) == r.(yieldPending := s.yieldPending || s.tcb[t].priority >= s.tcb[s.current].priority)
  {
    hide DropEvent, TakeOff, MakeReady;
  }

  lemma ReopeningStarts(s: State)
    requires Inv(s) && s.suspended > 0
    ensures s.tasks > 0 && (s.suspended == 1 ==> Resuming(s.(suspended := s.suspended - 1)))
  {
    hide Core;
    var s1 := s.(suspended := s.suspended - 1);
    assert s1.(suspended := s1.suspended + 1) == s;
    TaskCountPositive(s);
  }

  lemma PendedTickSteps(s: State, ticked: State, r: State, switchRequired: bool)
    requires Inv(ticked) && s.suspended == 0 && ticked == Tick(s) && switchRequired == SwitchRequired(s, ticked)
    requires r == ticked.(yieldPending := ticked.yieldPending || switchRequired)
    ensures r == PendedTick(s) && Inv(r) && r.suspended == 0
  {
    hide Inv, ProcessTick, SwitchRequired;
    CurrentIsLive(ticked);
    TcbFieldKeeps(ticked, r, ticked.current);
    ProcessTickLeaves(s);
  }

  lemma PutSortedAside(s: State, id: ListId, t: Task, n: nat)
    ensures PutSorted(s.(nextUnblock := n), id, t) == PutSorted(s, id, t).(nextUnblock := n)
  {
  }

  /** The loop of prvCheckTasksWaitingTermination, begun in start and now in s. */
  ghost predicate Cleaning(start: State, s: State) {
    var before, now := L(start.lists, Termination).items, L(s.lists, Termination).items;
    && Inv(s) && s.current !in now && start.cleanups == |before|
    && s.tasks + |before| == start.tasks + |now|
    && Elements(now) <= Elements(before) && s.tcb == start.tcb - (Elements(before) - Elements(now))
  }

  lemma CleaningStarts(s: State)
    requires Inv(s) && s.current !in L(s.lists, Termination).items
    ensures Cleaning(s, s)
  {
    assert s.cleanups == |L(s.lists, Termination).items|;
    hide Core;
    assert s.tcb == s.tcb - {};
  }

  lemma TerminationHead(s: State, t: Task)
    requires Inv(s) && s.cleanups > 0 && s.current !in L(s.lists, Termination).items
    requires L(s.lists, Termination).items != [] ==> t == L(s.lists, Termination).items[0]
    ensures L(s.lists, Termination).items != [] && t in s.tcb && t in s.place && s.tasks > 0
    ensures Inv(CleanUp(s, t)) && CleanUp(s, t).current == s.current
    ensures CleanUp(s, t).tcb == s.tcb - {t} && CleanUp(s, t).tasks == s.tasks - 1
    ensures L(CleanUp(s, t).lists, Termination).items == Without(L(s.lists, Termination).items, 0)
    ensures Elements(Without(L(s.lists, Termination).items, 0)) == Elements(L(s.lists, Termination).items) - {t}
  {
    assert t in L(s.lists, Termination).items;
    TaskCountPositive(s);
    CleanUpKeeps(s, t);
    WithoutMembers(L(s.lists, Termination).items, 0);
    assert Find(L(s.lists, Termination).items, t) == 0;
  }

  lemma CleaningGoesOn(start: State, s: State)
    requires Cleaning(start, s) && s.cleanups > 0
    ensures L(s.lists, Termination).items != []
    ensures var t := L(s.lists, Termination).items[0];
            t in s.tcb && t in s.place && s.tasks > 0 && Cleaning(start, CleanUp(s, t))
  {
    hide Inv, CleanUp, L;
    var items := L(s.lists, Termination).items;
    TerminationHead(s, if items != [] then items[0] else 0);
    var t := items[0];
    assert t in Elements(items);
    ForgetOneMore(start.tcb, Elements(L(start.lists, Termination).items), Elements(items), t);
  }

  lemma ForgetOneMore(tcb: map<Task, Tcb>, before: set<Task>, now: set<Task>, t: Task)
    requires now <= before && t in now
    ensures tcb - (before - (now - {t})) == tcb - (before - now) - {t}
  {
  }

  lemma CleaningEnds(start: State, s: State)
    requires Cleaning(start, s) && s.cleanups == 0
    ensures Inv(s) && L(s.lists, Termination).items == [] && s.tasks == start.tasks - start.cleanups
    ensures s.tcb == start.tcb - Elements(L(start.lists, Termination).items)
  {
    assert s.cleanups == |L(s.lists, Termination).items|;
    assert Elements(L(s.lists, Termination).items) == {};
  }
}

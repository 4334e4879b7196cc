/** The state of the scheduler of tasks.c and the effect of each of its critical sections, as functions.
    A task is named by a number, and tcb holds the plain fields of its control block. The list items inside
    the control blocks are kept apart: place and wake are the container and the item value of
    xStateListItem, waiting is the container of xEventListItem; a task outside the map is in no list. */
module KernelState {
  import opened Ticks
  import opened Rings

  type Task = nat

  /** configMAX_PRIORITIES */
  const PRIORITIES: nat := 6
  /** taskEVENT_LIST_ITEM_VALUE_IN_USE: bit 31 of the event item value. */
  const VALUE_IN_USE: nat := 0x8000_0000

  /** The lists an xStateListItem can be in. */
  datatype ListId = Ready(priority: nat) | Delayed1 | Delayed2 | Suspended | Termination
  /** The lists an xEventListItem can be in: xPendingReadyList or the event list of a kernel object. */
  datatype EventId = Pending | Object(id: nat)
  datatype NotifyState = NotWaiting | Waiting | Received

  datatype Tcb = Tcb(priority: nat, basePriority: nat, mutexesHeld: nat, eventValue: nat, notify: NotifyState)

  type Line = r: Ring<Task> | r.index <= |r.items| witness Ring([], 0)

  datatype State = State(
    tick: nat, overflows: nat,
    tcb: map<Task, Tcb>,
    lists: map<ListId, Line>, place: map<Task, ListId>, wake: map<Task, nat>,
    events: map<EventId, seq<Task>>, waiting: map<Task, EventId>,
    delayed: ListId, overflow: ListId, nextUnblock: nat,
    suspended: nat, pended: nat, yieldPending: bool,
    current: Task, topReady: nat,
    tasks: nat, cleanups: nat)

  function L(lists: map<ListId, Line>, id: ListId): Line {
    if id in lists then lists[id] else Ring([], 0)
  }

  function E(events: map<EventId, seq<Task>>, e: EventId): seq<Task> {
    if e in events then events[e] else []
  }

  function WakeOf(wake: map<Task, nat>, t: Task): nat {
    if t in wake then wake[t] else 0
  }

  function EventValueOf(tcb: map<Task, Tcb>, t: Task): nat {
    if t in tcb then tcb[t].eventValue else 0
  }

  function Wakes(line: seq<Task>, wake: map<Task, nat>): (r: seq<nat>)
    ensures |r| == |line|
  {
    seq(|line|, i requires 0 <= i < |line| => WakeOf(wake, line[i]))
  }

  function EventValues(line: seq<Task>, tcb: map<Task, Tcb>): (r: seq<nat>)
    ensures |r| == |line|
  {
    seq(|line|, i requires 0 <= i < |line| => EventValueOf(tcb, line[i]))
  }

  // ---- list.c operations on the two list items of a TCB -----------------------------

  /** uxListRemove( &( pxTCB->xStateListItem ) ) */
  function TakeOff(s: State, t: Task): (r: State)
    requires t in s.place
    ensures r == s.(lists := r.lists, place := s.place - {t})
  {
    var line := L(s.lists, s.place[t]);
    s.(lists := s.lists[s.place[t] := if t in line.items then Remove(line, t) else line],
       place := s.place - {t})
  }

  /** vListInsertEnd( list, &( pxTCB->xStateListItem ) ) */
  function PutEnd(s: State, id: ListId, t: Task): (r: State)
    ensures r == s.(lists := r.lists, place := s.place[t := id])
  {
    s.(lists := s.lists[id := InsertEnd(L(s.lists, id), t)], place := s.place[t := id])
  }

  /** vListInsert( list, &( pxTCB->xStateListItem ) ) */
  function PutSorted(s: State, id: ListId, t: Task): (r: State)
    ensures r == s.(lists := r.lists, place := s.place[t := id])
  {
    var line := L(s.lists, id);
    s.(lists := s.lists[id := InsertAt(line, FirstAbove(Wakes(line.items, s.wake), WakeOf(s.wake, t)), t)],
       place := s.place[t := id])
  }

  /** uxListRemove( &( pxTCB->xEventListItem ) ), done only when the item is in a list */
  function DropEvent(s: State, t: Task): (r: State)
    ensures r == s.(events := r.events, waiting := s.waiting - {t})
  {
    if t !in s.waiting then assert s.waiting - {t} == s.waiting; s else
      var line := E(s.events, s.waiting[t]);
      s.(events := s.events[s.waiting[t] := if t in line then Without(line, Find(line, t)) else line],
         waiting := s.waiting - {t})
  }

  /** vListInsertEnd( list, &( pxTCB->xEventListItem ) ); pxIndex of an event list never moves */
  function PutEventEnd(s: State, e: EventId, t: Task): (r: State)
    ensures r == s.(events := r.events, waiting := s.waiting[t := e])
  {
    s.(events := s.events[e := E(s.events, e) + [t]], waiting := s.waiting[t := e])
  }

  /** vListInsert( list, &( pxTCB->xEventListItem ) ) */
  function PutEventSorted(s: State, e: EventId, t: Task): (r: State)
    ensures r == s.(events := r.events, waiting := s.waiting[t := e])
  {
    var line := E(s.events, e);
    s.(events := s.events[e := Insert(line, FirstAbove(EventValues(line, s.tcb), EventValueOf(s.tcb, t)), t)],
       waiting := s.waiting[t := e])
  }

  /** prvAddTaskToReadyList */
  function MakeReady(s: State, t: Task): (r: State)
    requires t in s.tcb
    ensures r == s.(lists := r.lists, topReady := r.topReady, place := s.place[t := Ready(s.tcb[t].priority)])
  {
    var p := s.tcb[t].priority;
    PutEnd(s.(topReady := if p > s.topReady then p else s.topReady), Ready(p), t)
  }

  /** uxListRemove followed by prvAddTaskToReadyList */
  function Readied(s: State, t: Task): (r: State)
    requires t in s.tcb && t in s.place
    ensures r == s.(lists := r.lists, topReady := r.topReady, place := (s.place - {t})[t := Ready(s.tcb[t].priority)])
  {
    MakeReady(TakeOff(s, t), t)
  }

  // ---- blocking -----------------------------------------------------------------------

  /** prvResetNextTaskUnblockTime */
  function ResetNextUnblock(s: State): State {
    var line := L(s.lists, s.delayed).items;
    s.(nextUnblock := if line == [] then MAX_DELAY else WakeOf(s.wake, line[0]))
  }

  /** prvAddCurrentTaskToDelayedList */
  function BlockCurrent(s: State, ticks: nat, forEver: bool): State
    requires s.current in s.tcb && s.current in s.place
  {
    var wake := Wrap(s.tick + ticks);
    if ticks == MAX_DELAY && forEver then
      PutEnd(TakeOff(s, s.current), Suspended, s.current)
    else if wake < s.tick then
      PutDelayed(s, s.overflow, wake, s.nextUnblock)
    else
      PutDelayed(s, s.delayed, wake, if wake < s.nextUnblock then wake else s.nextUnblock)
  }

  /** The wake time is written before the item is linked in. */
  function WithWake(s: State, t: Task, wake: nat, nextUnblock: nat): (r: State)
    ensures r == s.(wake := r.wake, nextUnblock := nextUnblock)
  {
    s.(wake := s.wake[t := wake], nextUnblock := nextUnblock)
  }

  /** Move the current task from its ready list to a delayed list. */
  function PutDelayed(s: State, id: ListId, wake: nat, nextUnblock: nat): State
    requires s.current in s.place
  {
    PutSorted(WithWake(TakeOff(s, s.current), s.current, wake, nextUnblock), id, s.current)
  }

  /** vTaskPlaceOnEventList */
  function PlaceOnEventList(s: State, obj: nat, ticks: nat): State
    requires s.current in s.tcb && s.current in s.place
  {
    BlockCurrent(PutEventSorted(s, Object(obj), s.current), ticks, true)
  }

  /** value | taskEVENT_LIST_ITEM_VALUE_IN_USE, for a 32-bit value: bit 31 is set, the bits below are those of value. */
  function InUse(value: nat): (r: nat)
    ensures r >= VALUE_IN_USE && r % VALUE_IN_USE == value % VALUE_IN_USE
    ensures IsTick(value) ==> IsTick(r)
  {
    if value < VALUE_IN_USE then value + VALUE_IN_USE else value
  }

  /** vTaskPlaceOnUnorderedEventList */
  function PlaceOnUnorderedEventList(s: State, obj: nat, value: nat, ticks: nat): State
    requires s.current in s.tcb && s.current in s.place
  {
    var t := s.current;
    var s1 := s.(tcb := s.tcb[t := s.tcb[t].(eventValue := InUse(value))]);
    BlockCurrent(PutEventEnd(s1, Object(obj), t), ticks, true)
  }

  /** vTaskPlaceOnEventListRestricted, used by the timer daemon on its command queue */
  function PlaceOnEventListRestricted(s: State, obj: nat, ticks: nat, forEver: bool): State
    requires s.current in s.tcb && s.current in s.place
  {
    BlockCurrent(PutEventEnd(s, Object(obj), s.current), if forEver then MAX_DELAY else ticks, forEver)
  }

  /** uxTaskResetEventItemValue */
  function ResetEventValue(s: State): State
    requires s.current in s.tcb
  {
    var c := s.tcb[s.current];
    s.(tcb := s.tcb[s.current := c.(eventValue := if c.priority <= PRIORITIES then PRIORITIES - c.priority else 0)])
  }

  function SetNotifyState(s: State, t: Task, n: NotifyState): State
    requires t in s.tcb
  {
    s.(tcb := s.tcb[t := s.tcb[t].(notify := n)])
  }

  /** The first critical section of ulTaskNotifyTake and xTaskNotifyWait, when no notification is there. */
  function WaitForNotification(s: State, ticks: nat): State
    requires s.current in s.tcb && s.current in s.place
  {
    var s1 := SetNotifyState(s, s.current, Waiting);
    if ticks > 0 then BlockCurrent(s1, ticks, true) else s1
  }

  // ---- unblocking ---------------------------------------------------------------------

  /** The last step of the interrupt-safe unblocking functions: straight to the ready list, or to the
      pending-ready list while the scheduler is suspended. */
  function Unblock(s: State, t: Task): State
    requires t in s.tcb && t in s.place
  {
    if s.suspended == 0 then Readied(s, t) else PutEventEnd(s, Pending, t)
  }

  function Outranks(s: State, t: Task): bool {
    t in s.tcb && s.current in s.tcb && s.tcb[t].priority > s.tcb[s.current].priority
  }

  /** xTaskRemoveFromEventList for the task at the head of a non-empty event list */
  function RemoveFromEventList(s: State, t: Task): State
    requires t in s.tcb && t in s.place
  {
    var s1 := Unblock(DropEvent(s, t), t);
    s1.(yieldPending := s.yieldPending || Outranks(s, t))
  }

  /** vTaskRemoveFromUnorderedEventList */
  function RemoveFromUnorderedEventList(s: State, t: Task, value: nat): State
    requires t in s.tcb && t in s.place
  {
    var s1 := s.(tcb := s.tcb[t := s.tcb[t].(eventValue := InUse(value))]);
    Readied(DropEvent(s1, t), t).(yieldPending := s.yieldPending || Outranks(s, t))
  }

  /** xTaskGenericNotify, as far as the lists are concerned */
  function Notify(s: State, t: Task): State
    requires t in s.tcb && t in s.place
  {
    var s1 := SetNotifyState(s, t, Received);
    if s.tcb[t].notify == Waiting then Readied(s1, t) else s1
  }

  /** xTaskGenericNotifyFromISR and vTaskNotifyGiveFromISR, without a woken-flag parameter */
  function NotifyFromIsr(s: State, t: Task): State
    requires t in s.tcb && t in s.place
  {
    var s1 := SetNotifyState(s, t, Received);
    if s.tcb[t].notify == Waiting then
      Unblock(s1, t).(yieldPending := s.yieldPending || Outranks(s, t))
    else s1
  }

  // ---- the tick -----------------------------------------------------------------------

  /** taskSWITCH_DELAYED_LISTS */
  function SwitchDelayedLists(s: State): State {
    ResetNextUnblock(s.(delayed := s.overflow, overflow := s.delayed, overflows := s.overflows + 1))
  }

  /** One pass of the loop of xTaskIncrementTick over the head of the delayed list. */
  function Expire(s: State, t: Task): (r: State)
    requires t in s.tcb && t in s.place
    ensures r == s.(lists := r.lists, topReady := r.topReady,
                place := (s.place - {t})[t := Ready(s.tcb[t].priority)], events := r.events, waiting := s.waiting - {t})
  {
    MakeReady(DropEvent(TakeOff(s, t), t), t)
  }

  predicate HeadExpired(s: State) {
    var line := L(s.lists, s.delayed).items;
    line != [] && line[0] in s.tcb && line[0] in s.place && WakeOf(s.wake, line[0]) <= s.tick
  }

  /** The loop of xTaskIncrementTick; n bounds the number of passes and is the length of the list. */
  function WakeExpired(s: State, n: nat): (r: State)
    decreases n
    ensures r == s.(lists := r.lists, topReady := r.topReady,
                place := r.place, events := r.events, waiting := r.waiting, nextUnblock := r.nextUnblock)
  {
    var line := L(s.lists, s.delayed).items;
    if n > 0 && HeadExpired(s) then WakeExpired(Expire(s, line[0]), n - 1) else ResetNextUnblock(s)
  }

  /** xTaskIncrementTick while the scheduler is running */
  function ProcessTick(s: State): State {
    var s1 := s.(tick := Wrap(s.tick + 1));
    var s2 := if s1.tick == 0 then SwitchDelayedLists(s1) else s1;
    if s2.tick >= s2.nextUnblock then WakeExpired(s2, |L(s2.lists, s2.delayed).items|) else s2
  }

  /** xTaskIncrementTick */
  function Tick(s: State): State {
    if s.suspended == 0 then ProcessTick(s) else s.(pended := s.pended + 1)
  }

  // ---- scheduler suspension -------------------------------------------------------------

  /** vTaskSuspendAll */
  function SuspendAll(s: State): State {
    s.(suspended := s.suspended + 1)
  }

  /** One pass of the pending-ready loop of xTaskResumeAll. */
  function ReadyPending(s: State, t: Task): (r: State)
    requires t in s.tcb && t in s.place
    ensures r == s.(lists := r.lists, topReady := r.topReady,
                place := (s.place - {t})[t := Ready(s.tcb[t].priority)], events := r.events,
                waiting := s.waiting - {t}, yieldPending := r.yieldPending)
  {
    var s1 := Readied(DropEvent(s, t), t);
    s1.(yieldPending := s.yieldPending
                     || (s.current in s.tcb && s.tcb[t].priority >= s.tcb[s.current].priority))
  }

  function DrainPending(s: State, n: nat): (r: State)
    decreases n
    ensures r == s.(lists := r.lists, topReady := r.topReady,
                place := r.place, events := r.events, waiting := r.waiting, yieldPending := r.yieldPending)
  {
    var queue := E(s.events, Pending);
    if n > 0 && queue != [] && queue[0] in s.tcb && queue[0] in s.place then
      DrainPending(ReadyPending(s, queue[0]), n - 1)
    else s
  }

  /** A task moved between s and r has at least the priority of the running task. */
  predicate Preempts(s: State, r: State) {
    exists t :: t in s.place && t in r.place && r.place[t] != s.place[t]
                && t in s.tcb && s.current in s.tcb && s.tcb[t].priority >= s.tcb[s.current].priority
  }

  /** Another task of the running task's priority is ready. */
  predicate TimeSliceEnds(s: State) {
    s.current in s.tcb && |L(s.lists, Ready(s.tcb[s.current].priority)).items| > 1
  }

  /** The value xTaskIncrementTick returns when it takes s to r. */
  predicate SwitchRequired(s: State, r: State) {
    r.yieldPending || (s.suspended == 0 && (Preempts(s, r) || TimeSliceEnds(r)))
  }

  /** One pass of the loop of xTaskResumeAll over the pended ticks. */
  function PendedTick(s: State): State {
    var r := ProcessTick(s);
    r.(yieldPending := r.yieldPending || SwitchRequired(s, r))
  }

  function ProcessTicks(s: State, n: nat): State
    decreases n
  {
    if n == 0 then s else ProcessTicks(PendedTick(s), n - 1)
  }

  /** What xTaskResumeAll does when the last suspension ends. */
  function Reopen(s: State): State {
    var n := |E(s.events, Pending)|;
    var s2 := DrainPending(s, n);
    var s3 := if n > 0 then ResetNextUnblock(s2) else s2;
    ProcessTicks(s3, s3.pended).(pended := 0)
  }

  /** xTaskResumeAll */
  function ResumeAll(s: State): State
    requires s.suspended > 0
  {
    var s1 := s.(suspended := s.suspended - 1);
    if s1.suspended > 0 || s1.tasks == 0 then s1 else Reopen(s1)
  }

  // ---- selection ------------------------------------------------------------------------

  /** The search loop of taskSELECT_HIGHEST_PRIORITY_TASK */
  function TopPriority(s: State, p: nat): nat {
    if p == 0 || L(s.lists, Ready(p)).items != [] then p else TopPriority(s, p - 1)
  }

  /** vTaskSwitchContext */
  function SwitchContext(s: State): State {
    if s.suspended > 0 then s.(yieldPending := true) else
      var p := TopPriority(s, s.topReady);
      var line := L(s.lists, Ready(p));
      if line.items == [] then s else
        s.(yieldPending := false, topReady := p,
           lists := s.lists[Ready(p) := Next(line)], current := Picked(Next(line)))
  }

  // ---- creation, deletion, suspension of tasks -----------------------------------------

  /** prvAddNewTaskToReadyList, once the scheduler runs */
  function Create(s: State, t: Task, priority: nat): State
    requires priority < PRIORITIES
  {
    var created := Tcb(priority, priority, 0, PRIORITIES - priority, NotWaiting);
    MakeReady(s.(tcb := s.tcb[t := created], tasks := s.tasks + 1), t)
  }

  /** vTaskDelete */
  function Delete(s: State, t: Task): State
    requires t in s.tcb && t in s.place
  {
    var s1 := DropEvent(TakeOff(s, t), t);
    if t == s.current then
      PutEnd(s1, Termination, t).(cleanups := s.cleanups + 1)
    else
      ResetNextUnblock(s1.(tcb := s1.tcb - {t}, tasks := if s.tasks > 0 then s.tasks - 1 else 0))
  }

  /** One pass of the loop of prvCheckTasksWaitingTermination over the head of the termination list. */
  function CleanUp(s: State, t: Task): State
    requires t in s.tcb && t in s.place
  {
    var s1 := TakeOff(s, t);
    s1.(tcb := s1.tcb - {t},
        tasks := if s.tasks > 0 then s.tasks - 1 else 0,
        cleanups := if s.cleanups > 0 then s.cleanups - 1 else 0)
  }

  /** The first critical section of vTaskSuspend; the second, once the scheduler runs, is ResetNextUnblock. */
  function SuspendTask(s: State, t: Task): State
    requires t in s.tcb && t in s.place
  {
    var s1 := PutEnd(DropEvent(TakeOff(s, t), t), Suspended, t);
    if s.tcb[t].notify == Waiting then SetNotifyState(s1, t, NotWaiting) else s1
  }

  /** prvTaskIsTaskSuspended */
  predicate TaskIsSuspended(s: State, t: Task) {
    t in s.tcb && t in s.place && s.place[t] == Suspended && t !in s.waiting
  }

  /** vTaskResume */
  function ResumeTask(s: State, t: Task): State {
    if t != s.current && TaskIsSuspended(s, t) then Readied(s, t) else s
  }

  /** xTaskResumeFromISR */
  function ResumeFromIsr(s: State, t: Task): State {
    if TaskIsSuspended(s, t) then Unblock(s, t) else s
  }

  // ---- priorities -----------------------------------------------------------------------

  function CodedPriority(tcb: Tcb, p: nat): nat {
    if tcb.eventValue < VALUE_IN_USE && p <= PRIORITIES then PRIORITIES - p else tcb.eventValue
  }

  /** The common tail of the four functions that change uxPriority: a task in the ready list of its old
      priority moves to the end of the one of its new priority. */
  function Reprioritise(s: State, t: Task, changed: Tcb): State
    requires t in s.tcb
  {
    var moved := t in s.place && s.place[t] == Ready(s.tcb[t].priority);
    var s1 := if moved then TakeOff(s, t) else s;
    var s2 := s1.(tcb := s1.tcb[t := changed]);
    if moved then MakeReady(s2, t) else s2
  }

  /** vTaskPrioritySet */
  function SetPriority(s: State, t: Task, priority: nat): State
    requires t in s.tcb
  {
    var c := s.tcb[t];
    if c.basePriority == priority then s else
      Reprioritise(s, t, c.(priority := if c.basePriority == c.priority then priority else c.priority,
                            basePriority := priority,
                            eventValue := CodedPriority(c, priority)))
  }

  /** The control block of a mutex holder after a task of priority p has blocked on the mutex. */
  function Lent(c: Tcb, p: nat): Tcb {
    if c.priority < p then c.(priority := p, eventValue := CodedPriority(c, p)) else c
  }

  /** The control block of a task that has given a mutex back. */
  function Returned(c: Tcb): Tcb
    requires c.mutexesHeld > 0
  {
    var d := c.(mutexesHeld := c.mutexesHeld - 1);
    if d.priority != d.basePriority && d.mutexesHeld == 0 then
      d.(priority := d.basePriority,
         eventValue := if d.basePriority <= PRIORITIES then PRIORITIES - d.basePriority else 0)
    else d
  }

  /** The control block of a mutex holder after a waiting task has timed out; highestWaiting is the
      priority of the first task still waiting. */
  function Withdrawn(c: Tcb, highestWaiting: nat): Tcb {
    var p := if c.basePriority < highestWaiting then highestWaiting else c.basePriority;
    if c.priority != p && c.mutexesHeld == 1 then c.(priority := p, eventValue := CodedPriority(c, p)) else c
  }

  /** xTaskPriorityInherit */
  function Inherit(s: State, holder: Task): State
    requires holder in s.tcb && s.current in s.tcb
  {
    var c := Lent(s.tcb[holder], s.tcb[s.current].priority);
    if c != s.tcb[holder] then Reprioritise(s, holder, c) else s
  }

  /** xTaskPriorityDisinherit, called by the holder itself */
  function Disinherit(s: State): State
    requires s.current in s.tcb && s.tcb[s.current].mutexesHeld > 0
  {
    var c := Returned(s.tcb[s.current]);
    if c.priority != s.tcb[s.current].priority then Reprioritise(s, s.current, c)
    else s.(tcb := s.tcb[s.current := c])
  }

  /** vTaskPriorityDisinheritAfterTimeout */
  function DisinheritAfterTimeout(s: State, holder: Task, highestWaiting: nat): State
    requires holder in s.tcb
  {
    var c := Withdrawn(s.tcb[holder], highestWaiting);
    if c != s.tcb[holder] then Reprioritise(s, holder, c) else s
  }

  /** pvTaskIncrementMutexHeldCount */
  function HoldMutex(s: State): State
    requires s.current in s.tcb
  {
    var c := s.tcb[s.current];
    s.(tcb := s.tcb[s.current := c.(mutexesHeld := c.mutexesHeld + 1)])
  }
}

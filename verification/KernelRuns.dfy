/** Whole runs of the scheduler: exact wake-up across counter wraps, and no tick or wake-up lost while
    the scheduler is suspended. */
module KernelRuns {
  import opened Ticks
  import opened KernelState
  import opened KernelPlacement
  import opened KernelSteps
  import opened KernelTime

  /** How many ticks an event processes. */
  function TicksIn(s: State, e: Event): nat {
    match e
    case TickInterrupt => if s.suspended == 0 then 1 else 0
    case ResumeScheduler => if s.suspended == 1 then s.pended else 0
    case _ => 0
  }

  function Sleep(s: State, now: nat, due: Dues, ticks: nat, forEver: bool): Dues {
    if ticks == MAX_DELAY && forEver then due else due[s.current := now + ticks]
  }

  function Drop(due: Dues, t: Task, gone: bool): Dues {
    if gone then due - {t} else due
  }

  /** Who sleeps until when, apart from the passing of time: a blocking call adds the caller, an event
      that unblocks a task takes it out. */
  function Sleepers(s: State, e: Event, now: nat, due: Dues): Dues
    requires Enabled(s, e)
  {
    match e
    case DelayFor(ticks) => Sleep(s, now, due, ticks, false)
    case AwaitNotification(ticks) => if ticks == 0 then due else Sleep(s, now, due, ticks, true)
    case WaitOnEvent(_, ticks) => Sleep(s, now, due, ticks, true)
    case WaitOnBits(_, _, ticks) => Sleep(s, now, due, ticks, true)
    case WaitRestricted(_, ticks, forEver) => Sleep(s, now, due, if forEver then MAX_DELAY else ticks, forEver)
    case SignalEvent(obj) => Drop(due, E(s.events, Object(obj))[0], s.suspended == 0)
    case SignalBits(t, _) => Drop(due, t, true)
    case NotifyTask(t) => Drop(due, t, s.tcb[t].notify == Waiting)
    case NotifyTaskFromIsr(t) => Drop(due, t, s.tcb[t].notify == Waiting && s.suspended == 0)
    case DeleteTask(t) => Drop(due, t, true)
    case Park(t) => Drop(due, t, true)
    case ResumeScheduler => if s.suspended == 1 then due - PendingTasks(s) else due
    case _ => due
  }

  function NextDue(s: State, e: Event, now: nat, due: Dues): Dues
    requires Enabled(s, e)
  {
    After(Sleepers(s, e, now, due), now + TicksIn(s, e))
  }

  // ---- one step -----------------------------------------------------------------------------

  lemma WaitTimed(s: State, obj: nat, d: nat, now: nat, due: Dues)
    requires Inv(s) && Running(s) && s.current !in s.waiting && Timed(s, now, due) && BlockTime(d)
    ensures Timed(PlaceOnEventList(s, obj, d), now, Sleep(s, now, due, d, true))
  {
    hide Timed, PutEventSorted, Core, BlockCurrent, EventValues;
    var s1 := PutEventSorted(s, Object(obj), s.current);
    InvIsCore(s);
    PutEventSortedKeeps(s, Object(obj), s.current);
    SameTimesTimed(s, s1, now, due);
    BlockCurrentTimed(s1, d, true, now, due);
  }

  lemma WaitUnorderedTimed(s: State, obj: nat, value: nat, d: nat, now: nat, due: Dues)
    requires Inv(s) && Running(s) && s.current !in s.waiting && Timed(s, now, due) && BlockTime(d)
    ensures Timed(PlaceOnUnorderedEventList(s, obj, value, d), now, Sleep(s, now, due, d, true))
  {
    hide Inv, Timed, PutEventEnd, Core, BlockCurrent;
    var t := s.current;
    var s1 := s.(tcb := s.tcb[t := s.tcb[t].(eventValue := InUse(value))]);
    TcbFieldKeeps(s, s1, t);
    InvIsCore(s1);
    PutEventEndKeeps(s1, Object(obj), t);
    SameTimesTimed(s, PutEventEnd(s1, Object(obj), t), now, due);
    BlockCurrentTimed(PutEventEnd(s1, Object(obj), t), d, true, now, due);
  }

  lemma WaitRestrictedTimed(s: State, obj: nat, d: nat, forEver: bool, now: nat, due: Dues)
    requires Inv(s) && Running(s) && s.current !in s.waiting && Timed(s, now, due) && (forEver || BlockTime(d))
    ensures Timed(PlaceOnEventListRestricted(s, obj, d, forEver), now,
                  Sleep(s, now, due, if forEver then MAX_DELAY else d, forEver))
  {
    hide Timed, PutEventEnd, Core, BlockCurrent;
    var s1 := PutEventEnd(s, Object(obj), s.current);
    InvIsCore(s);
    PutEventEndKeeps(s, Object(obj), s.current);
    SameTimesTimed(s, s1, now, due);
    BlockCurrentTimed(s1, if forEver then MAX_DELAY else d, forEver, now, due);
  }

  lemma AwaitTimed(s: State, d: nat, now: nat, due: Dues)
    requires Inv(s) && Running(s) && Timed(s, now, due) && (d == 0 || BlockTime(d))
    ensures Timed(WaitForNotification(s, d), now, if d == 0 then due else Sleep(s, now, due, d, true))
  {
    hide Inv, Timed, Core, BlockCurrent;
    var s1 := SetNotifyState(s, s.current, Waiting);
    TcbFieldKeeps(s, s1, s.current);
    InvIsCore(s1);
    SameTimesTimed(s, s1, now, due);
    if d > 0 {
      BlockCurrentTimed(s1, d, true, now, due);
    }
  }

  lemma BlockingTimed(s: State, e: Event, now: nat, due: Dues)
    requires Inv(s) && Enabled(s, e) && Timed(s, now, due)
    requires e.DelayFor? || e.AwaitNotification? || e.CollectNotification? || e.CollectBits?
             || e.WaitOnEvent? || e.WaitOnBits? || e.WaitRestricted?
    ensures Timed(Step(s, e), now, Sleepers(s, e, now, due))
  {
    hide Inv, Timed, BlockCurrent, WaitForNotification, PlaceOnEventList, PlaceOnUnorderedEventList,
      PlaceOnEventListRestricted, Core;
    InvIsCore(s);
    match e
    case DelayFor(d) => BlockCurrentTimed(s, d, false, now, due);
    case AwaitNotification(d) => AwaitTimed(s, d, now, due);
    case CollectNotification => SameTimesTimed(s, SetNotifyState(s, s.current, NotWaiting), now, due);
    case CollectBits => SameTimesTimed(s, ResetEventValue(s), now, due);
    case WaitOnEvent(obj, d) => WaitTimed(s, obj, d, now, due);
    case WaitOnBits(obj, value, d) => WaitUnorderedTimed(s, obj, value, d, now, due);
    case WaitRestricted(obj, d, forEver) => WaitRestrictedTimed(s, obj, d, forEver, now, due);
  }

  lemma SignalTimed(s: State, t: Task, now: nat, due: Dues)
    requires Inv(s) && t in s.tcb && t in s.place && Timed(s, now, due)
    ensures Timed(RemoveFromEventList(s, t), now, Drop(due, t, s.suspended == 0))
  {
    hide Inv, Timed, Core, Unblock, DropEvent, Outranks;
    InvIsCore(s);
    var s1 := DropEvent(s, t);
    DropEventKeeps(s, t);
    SameTimesTimed(s, s1, now, due);
    UnblockTimed(s1, t, now, due);
    SameTimesTimed(Unblock(s1, t), RemoveFromEventList(s, t), now, Drop(due, t, s.suspended == 0));
  }

  lemma SignalBitsTimed(s: State, t: Task, value: nat, now: nat, due: Dues)
    requires Inv(s) && t in s.tcb && t in s.place && Timed(s, now, due)
    ensures Timed(RemoveFromUnorderedEventList(s, t, value), now, due - {t})
  {
    hide Inv, Timed, Core, Readied, DropEvent, Outranks;
    var s1 := s.(tcb := s.tcb[t := s.tcb[t].(eventValue := InUse(value))]);
    TcbFieldKeeps(s, s1, t);
    InvIsCore(s1);
    DropEventKeeps(s1, t);
    SameTimesTimed(s, DropEvent(s1, t), now, due);
    ReadiedTimed(DropEvent(s1, t), t, now, due);
    SameTimesTimed(Readied(DropEvent(s1, t), t), RemoveFromUnorderedEventList(s, t, value), now, due - {t});
  }

  lemma NotifyTimed(s: State, t: Task, now: nat, due: Dues)
    requires Inv(s) && t in s.tcb && t in s.place && Timed(s, now, due)
    ensures Timed(Notify(s, t), now, Drop(due, t, s.tcb[t].notify == Waiting))
    ensures Timed(NotifyFromIsr(s, t), now, Drop(due, t, s.tcb[t].notify == Waiting && s.suspended == 0))
  {
    hide Inv, Timed, Core, Readied, Unblock, Outranks;
    var s1 := SetNotifyState(s, t, Received);
    TcbFieldKeeps(s, s1, t);
    InvIsCore(s1);
    SameTimesTimed(s, s1, now, due);
    ReadiedTimed(s1, t, now, due);
    UnblockTimed(s1, t, now, due);
    SameTimesTimed(Unblock(s1, t), Unblock(s1, t).(yieldPending := s.yieldPending || Outranks(s, t)), now,
                   Drop(due, t, s.suspended == 0));
  }

  lemma WakingTimed(s: State, e: Event, now: nat, due: Dues)
    requires Inv(s) && Enabled(s, e) && Timed(s, now, due)
    requires e.SignalEvent? || e.SignalBits? || e.NotifyTask? || e.NotifyTaskFromIsr?
    ensures Timed(Step(s, e), now, Sleepers(s, e, now, due))
  {
    hide Inv, Timed, RemoveFromEventList, RemoveFromUnorderedEventList, Notify, NotifyFromIsr;
    match e
    case SignalEvent(obj) => SignalTimed(s, E(s.events, Object(obj))[0], now, due);
    case SignalBits(t, value) => SignalBitsTimed(s, t, value, now, due);
    case NotifyTask(t) => NotifyTimed(s, t, now, due);
    case NotifyTaskFromIsr(t) => NotifyTimed(s, t, now, due);
  }

  lemma DeleteTimed(s: State, t: Task, now: nat, due: Dues)
    requires Inv(s) && t in s.tcb && t in s.place && Timed(s, now, due)
    ensures Timed(Delete(s, t), now, due - {t})
  {
    hide Inv, Timed, Core, TakeOff, DropEvent, PutEnd, ResetNextUnblock;
    InvIsCore(s);
    ParkTimed(s, t, now, due);
    var s1 := DropEvent(TakeOff(s, t), t);
    DelayedIdsKept(s, t);
    PutEndTimed(s1, Termination, t, now, due - {t});
    SameTimesTimed(PutEnd(s1, Termination, t), PutEnd(s1, Termination, t).(cleanups := s.cleanups + 1), now, due - {t});
    var s2 := s1.(tcb := s1.tcb - {t}, tasks := if s.tasks > 0 then s.tasks - 1 else 0);
    SameTimesTimed(s1, s2, now, due - {t});
    ResetKeepsTimed(s2, now, due - {t});
  }

  lemma CleanUpTimed(s: State, t: Task, now: nat, due: Dues)
    requires Inv(s) && t in s.tcb && t in s.place && Timed(s, now, due)
    ensures Timed(CleanUp(s, t), now, due - {t})
  {
    hide Inv, Timed, Core, TakeOff;
    InvIsCore(s);
    TakeOffKeepsTimed(s, t, now, due);
    SameTimesTimed(TakeOff(s, t), CleanUp(s, t), now, due - {t});
  }

  lemma DelayedIdsKept(s: State, t: Task)
    requires Core(s) && t in s.place
    ensures DelayedIds(DropEvent(TakeOff(s, t), t)) && DelayedIds(TakeOff(s, t)) && DelayedIds(s)
  {
  }

  lemma SuspendTaskTimed(s: State, t: Task, now: nat, due: Dues)
    requires Inv(s) && t in s.tcb && t in s.place && Timed(s, now, due)
    ensures Timed(SuspendTask(s, t), now, due - {t})
  {
    hide Timed, Core, TakeOff, DropEvent, PutEnd;
    InvIsCore(s);
    ParkTimed(s, t, now, due);
    var s1 := PutEnd(DropEvent(TakeOff(s, t), t), Suspended, t);
    SameTimesTimed(s1, SetNotifyState(s1, t, NotWaiting), now, due - {t});
  }

  lemma ResumeTaskTimed(s: State, t: Task, now: nat, due: Dues)
    requires Inv(s) && Timed(s, now, due)
    ensures Timed(ResumeTask(s, t), now, due) && Timed(ResumeFromIsr(s, t), now, due)
  {
    hide Timed, Readied, Unblock, Placed, EventsPlaced, PrioritiesOk;
    if TaskIsSuspended(s, t) {
      ReadyIsNotDue(s, t, now, due);
      ReadiedTimed(s, t, now, due);
      UnblockTimed(s, t, now, due);
    }
  }

  lemma NotReadyIsNotMoved(s: State, t: Task, now: nat, due: Dues)
    requires Core(s) && Timed(s, now, due) && t in s.place && s.place[t].Ready?
    ensures t !in due && due - {t} == due && DelayedIds(TakeOff(s, t))
  {
    ReadyIsNotDue(s, t, now, due);
  }

  lemma ReprioritiseTimed(s: State, t: Task, changed: Tcb, now: nat, due: Dues)
    requires Inv(s) && t in s.tcb && Timed(s, now, due)
    ensures Timed(Reprioritise(s, t, changed), now, due)
  {
    hide Inv, Timed, Core, TakeOff, MakeReady;
    InvIsCore(s);
    var s1 := if t in s.place && s.place[t] == Ready(s.tcb[t].priority) then TakeOff(s, t) else s;
    if t in s.place && s.place[t] == Ready(s.tcb[t].priority) {
      NotReadyIsNotMoved(s, t, now, due);
      TakeOffKeepsTimed(s, t, now, due);
      var s2 := s1.(tcb := s1.tcb[t := changed]);
      SameTimesTimed(s1, s2, now, due);
      MakeReadyTimed(s2, t, now, due);
    } else {
      SameTimesTimed(s, s.(tcb := s.tcb[t := changed]), now, due);
    }
  }

  lemma TakeOffKeepsTimed(s: State, t: Task, now: nat, due: Dues)
    requires Core(s) && t in s.place && Timed(s, now, due)
    ensures Timed(TakeOff(s, t), now, due - {t})
  {
    ParkTimed(s, t, now, due);
  }

  lemma PriorityTimed(s: State, e: Event, now: nat, due: Dues)
    requires Inv(s) && Enabled(s, e) && Timed(s, now, due)
    requires e.ChangePriority? || e.TakeMutex? || e.GiveMutex? || e.LendPriority? || e.WithdrawPriority?
    ensures Timed(Step(s, e), now, due)
  {
    hide Inv, Timed, Reprioritise, CodedPriority, Lent, Returned, Withdrawn;
    match e
    case ChangePriority(t, p) =>
      var c := s.tcb[t];
      ReprioritiseTimed(s, t, c.(priority := if c.basePriority == c.priority then p else c.priority,
                                 basePriority := p, eventValue := CodedPriority(c, p)), now, due);
    case TakeMutex => SameTimesTimed(s, HoldMutex(s), now, due);
    case GiveMutex =>
      var c := Returned(s.tcb[s.current]);
      ReprioritiseTimed(s, s.current, c, now, due);
      SameTimesTimed(s, s.(tcb := s.tcb[s.current := c]), now, due);
    case LendPriority(t) => ReprioritiseTimed(s, t, Lent(s.tcb[t], s.tcb[s.current].priority), now, due);
    case WithdrawPriority(t, p) => ReprioritiseTimed(s, t, Withdrawn(s.tcb[t], p), now, due);
  }

  lemma CreateTimed(s: State, t: Task, priority: nat, now: nat, due: Dues)
    requires Inv(s) && priority < PRIORITIES && Timed(s, now, due)
    ensures Timed(Create(s, t, priority), now, due)
  {
    hide Timed, Placed, EventsPlaced, PrioritiesOk, MakeReady;
    var created := Tcb(priority, priority, 0, PRIORITIES - priority, NotWaiting);
    var s1 := s.(tcb := s.tcb[t := created], tasks := s.tasks + 1);
    SameTimesTimed(s, s1, now, due);
    MakeReadyTimed(s1, t, now, due);
  }

  lemma TerminationIsNotDue(s: State, now: nat, due: Dues)
    requires Inv(s) && Timed(s, now, due) && L(s.lists, Termination).items != []
    ensures due - {L(s.lists, Termination).items[0]} == due
  {
    var t := L(s.lists, Termination).items[0];
    assert t in L(s.lists, Termination).items;
    ReadyIsNotDue(s, t, now, due);
  }

  lemma TaskSetTimed(s: State, e: Event, now: nat, due: Dues)
    requires Inv(s) && Enabled(s, e) && Timed(s, now, due)
    requires e.CreateTask? || e.DeleteTask? || e.IdleCleanUp? || e.Park? || e.RefreshUnblockTime? || e.Unpark?
             || e.UnparkFromIsr?
    ensures Timed(Step(s, e), now, Sleepers(s, e, now, due))
  {
    hide Inv, Timed, Create, Delete, CleanUp, SuspendTask, ResumeTask, ResumeFromIsr, ResetNextUnblock;
    match e
    case CreateTask(t, p) => CreateTimed(s, t, p, now, due);
    case DeleteTask(t) => DeleteTimed(s, t, now, due);
    case IdleCleanUp =>
      TerminationIsNotDue(s, now, due);
      CleanUpTimed(s, L(s.lists, Termination).items[0], now, due);
    case Park(t) => SuspendTaskTimed(s, t, now, due);
    case RefreshUnblockTime => ResetKeepsTimed(s, now, due);
    case Unpark(t) => ResumeTaskTimed(s, t, now, due);
    case UnparkFromIsr(t) => ResumeTaskTimed(s, t, now, due);
  }

  lemma SwitchContextTimed(s: State, now: nat, due: Dues)
    requires Inv(s) && Timed(s, now, due)
    ensures Timed(SwitchContext(s), now, due)
  {
    hide Timed, Placed, EventsPlaced, PrioritiesOk, TopPriority;
    SameTimesTimed(s, SwitchContext(s), now, due);
  }

  lemma SchedulerTimed(s: State, e: Event, now: nat, due: Dues)
    requires Inv(s) && Enabled(s, e) && Timed(s, now, due)
    requires e.TickInterrupt? || e.SuspendScheduler? || e.ResumeScheduler? || e.Yield?
    ensures Timed(Step(s, e), now + TicksIn(s, e), NextDue(s, e, now, due))
  {
    hide Inv, Ticking, Bounded, ProcessTick, SwitchContext, DrainPending, ProcessTicks, ResetNextUnblock,
      PendingTasks, After, AllFrom;
    WokenNone(s, now, due);
    match e
    case TickInterrupt =>
      ProcessTickTimed(s, now, due);
      SuspendedAside(s, now, due, s.pended + 1);
    case SuspendScheduler => SuspendedAside(s, now, due, s.suspended + 1);
    case ResumeScheduler =>
      SuspendedAside(s, now, due, s.suspended - 1);
      if s.suspended == 1 {
        ResumeAllTimed(s, now, due);
      }
    case Yield => SwitchContextTimed(s, now, due);
  }

  /** Time over one step: the 32-bit state keeps describing the unbounded one. */
  lemma StepTimed(s: State, e: Event, now: nat, due: Dues)
    requires Inv(s) && Enabled(s, e) && Timed(s, now, due)
    ensures Timed(Step(s, e), now + TicksIn(s, e), NextDue(s, e, now, due))
  {
    hide Inv, Step, Enabled, Sleepers, After, Ticking, Bounded, AllFrom;
    match e
    case TickInterrupt | SuspendScheduler | ResumeScheduler | Yield => SchedulerTimed(s, e, now, due);
    case CreateTask(_, _) | DeleteTask(_) | IdleCleanUp | Park(_) | RefreshUnblockTime | Unpark(_) | UnparkFromIsr(_) =>
      TaskSetTimed(s, e, now, due);
      WokenNone(Step(s, e), now, Sleepers(s, e, now, due));
    case ChangePriority(_, _) | TakeMutex | GiveMutex | LendPriority(_) | WithdrawPriority(_, _) =>
      PriorityTimed(s, e, now, due);
      PrioritySleepers(s, e, now, due);
      WokenNone(Step(s, e), now, due);
    case SignalEvent(_) | SignalBits(_, _) | NotifyTask(_) | NotifyTaskFromIsr(_) =>
      WakingTimed(s, e, now, due);
      WokenNone(Step(s, e), now, Sleepers(s, e, now, due));
    case _ =>
      BlockingTimed(s, e, now, due);
      WokenNone(Step(s, e), now, Sleepers(s, e, now, due));
  }

  lemma PrioritySleepers(s: State, e: Event, now: nat, due: Dues)
    requires Enabled(s, e)
    requires e.ChangePriority? || e.TakeMutex? || e.GiveMutex? || e.LendPriority? || e.WithdrawPriority?
    ensures Sleepers(s, e, now, due) == due
  {
  }

  // ---- runs: exact wake-up ------------------------------------------------------------------

  /** The ticks processed along a run. */
  ghost function Ticked(s: State, es: seq<Event>): nat
    requires Allowed(s, es)
    decreases |es|
  {
    if es == [] then 0 else TicksIn(s, es[0]) + Ticked(Step(s, es[0]), es[1..])
  }

  /** The event unblocks t for a reason other than time. An event or a notification that comes while the scheduler is
      suspended leaves t pending, and it is the resumption of the scheduler that unblocks it. */
  predicate Disturbs(s: State, e: Event, t: Task)
    requires Enabled(s, e)
  {
    match e
    case SignalEvent(obj) => t == E(s.events, Object(obj))[0] && s.suspended == 0
    case SignalBits(u, _) => t == u
    case NotifyTask(u) => t == u && s.tcb[u].notify == Waiting
    case NotifyTaskFromIsr(u) => t == u && s.tcb[u].notify == Waiting && s.suspended == 0
    case DeleteTask(u) => t == u
    case Park(u) => t == u
    case ResumeScheduler => t in PendingTasks(s) && s.suspended == 1
    case _ => false
  }

  ghost predicate Undisturbed(s: State, es: seq<Event>, t: Task)
    requires Allowed(s, es)
    decreases |es|
  {
    es == [] || (!Disturbs(s, es[0], t) && Undisturbed(Step(s, es[0]), es[1..], t))
  }

  /** The task is in one of the two delayed lists. */
  predicate Asleep(s: State, t: Task) {
    t in s.place && (s.place[t] == Delayed1 || s.place[t] == Delayed2)
  }

  lemma DueIsAsleep(s: State, t: Task, now: nat, due: Dues)
    requires Inv(s) && Timed(s, now, due) && t in due
    ensures Asleep(s, t) && t in s.tcb && due[t] > now && t !in (if Running(s) then {s.current} else {})
  {
    assert t in Early(s) || t in Late(s);
  }

  lemma UndisturbedStaysDue(s: State, e: Event, t: Task, now: nat, due: Dues)
    requires Inv(s) && Enabled(s, e) && Timed(s, now, due) && t in due && !Disturbs(s, e, t)
    ensures t in Sleepers(s, e, now, due) && Sleepers(s, e, now, due)[t] == due[t]
  {
    hide Inv, Timed;
    DueIsAsleep(s, t, now, due);
  }

  /** A sleeping task that nothing else unblocks stays asleep until its due time. */
  lemma {:induction false} SleepsUntilDue(s: State, es: seq<Event>, t: Task, now: nat, due: Dues) returns (later: Dues)
    requires Inv(s) && Timed(s, now, due) && t in due && Allowed(s, es) && Undisturbed(s, es, t)
    requires now + Ticked(s, es) < due[t]
    ensures Inv(Run(s, es)) && Timed(Run(s, es), now + Ticked(s, es), later)
    ensures t in later && later[t] == due[t] && Asleep(Run(s, es), t)
    decreases |es|
  {
    hide Inv, Timed, Step, Enabled, Sleepers, Disturbs, TicksIn, Asleep;
    if es == [] {
      later := due;
      DueIsAsleep(s, t, now, due);
    } else {
      UndisturbedStaysDue(s, es[0], t, now, due);
      StepTimed(s, es[0], now, due);
      StepKeepsInv(s, es[0]);
      later := SleepsUntilDue(Step(s, es[0]), es[1..], t, now + TicksIn(s, es[0]), NextDue(s, es[0], now, due));
    }
  }

  /** The step that processes the due tick moves the task to the ready list of its priority. */
  lemma WakesWhenDue(s: State, e: Event, t: Task, now: nat, due: Dues)
    requires Inv(s) && Timed(s, now, due) && t in due && Enabled(s, e) && !Disturbs(s, e, t)
    requires now + TicksIn(s, e) >= due[t]
    ensures t in s.tcb && t in Step(s, e).place && Step(s, e).place[t] == Ready(s.tcb[t].priority)
  {
    hide Inv, Timed, ProcessTick, ResumeAll, PendingTasks;
    DueIsAsleep(s, t, now, due);
    match e
    case TickInterrupt => ProcessTickTimed(s, now, due);
    case ResumeScheduler => ResumeAllTimed(s, now, due);
    case _ =>
  }

  /** The finite time a blocking call asks for; zero for every other event. */
  function BlockTicks(e: Event): nat {
    match e
    case DelayFor(ticks) => ticks
    case AwaitNotification(ticks) => if ticks == MAX_DELAY then 0 else ticks
    case WaitOnEvent(_, ticks) => if ticks == MAX_DELAY then 0 else ticks
    case WaitOnBits(_, _, ticks) => if ticks == MAX_DELAY then 0 else ticks
    case WaitRestricted(_, ticks, forEver) => if forEver then 0 else ticks
    case _ => 0
  }

  lemma BlockedIsDue(s: State, e: Event, now: nat, due: Dues)
    requires Enabled(s, e) && BlockTicks(e) > 0
    ensures s.current in NextDue(s, e, now, due) && NextDue(s, e, now, due)[s.current] == now + BlockTicks(e)
    ensures TicksIn(s, e) == 0
  {
  }

  /** What may happen while t sleeps, and what happens next, none of it waking t for a reason other than time. */
  ghost predicate LeavesAsleep(s: State, es: seq<Event>, e: Event, t: Task) {
    Allowed(s, es) && Undisturbed(s, es, t) && Enabled(Run(s, es), e) && !Disturbs(Run(s, es), e, t)
  }

  /** Exact wake-up. A task that blocks for d ticks at processed tick now, in a delay or with a time-out, and is not
      unblocked by anything else, is asleep as long as fewer than d further ticks have been processed, however often
      the counter wraps, and is ready in the list of its priority once the d-th has been. */
  lemma ExactWakeUp(s: State, block: Event, now: nat, due: Dues, es: seq<Event>, e: Event)
    requires Inv(s) && Timed(s, now, due) && Enabled(s, block) && BlockTicks(block) > 0
    requires LeavesAsleep(Step(s, block), es, e, s.current) && Ticked(Step(s, block), es) < BlockTicks(block)
    ensures var t, r := s.current, Run(Step(s, block), es);
            && Asleep(r, t)
            && (Ticked(Step(s, block), es) + TicksIn(r, e) >= BlockTicks(block) ==>
                  t in r.tcb && t in Step(r, e).place && Step(r, e).place[t] == Ready(r.tcb[t].priority))
  {
    hide Inv, Timed, Run, TicksIn, Disturbs, Step, Asleep, Enabled, Sleepers, BlockTicks;
    var s1 := Step(s, block);
    StepKeepsInv(s, block);
    StepTimed(s, block, now, due);
    BlockedIsDue(s, block, now, due);
    var later := SleepsUntilDue(s1, es, s.current, now, NextDue(s, block, now, due));
    if Ticked(s1, es) + TicksIn(Run(s1, es), e) >= BlockTicks(block) {
      WakesWhenDue(Run(s1, es), e, s.current, now + Ticked(s1, es), later);
    }
  }

  // ---- runs: no tick is lost ----------------------------------------------------------------

  /** The tick interrupts along a run. */
  function Delivered(es: seq<Event>): nat {
    if es == [] then 0 else (if es[0].TickInterrupt? then 1 else 0) + Delivered(es[1..])
  }

  predicate Settled(s: State) {
    s.suspended == 0 ==> s.pended == 0
  }

  lemma BlockCurrentCounters(s: State, d: nat, forEver: bool)
    requires s.current in s.tcb && s.current in s.place
    ensures SameCounters(s, BlockCurrent(s, d, forEver))
  {
    hide TakeOff, WithWake, PutSorted, PutEnd, Wrap;
  }

  /** The suspension count and the pended ticks are as they were. */
  predicate SameCounters(s: State, r: State) {
    r.suspended == s.suspended && r.pended == s.pended
  }

  lemma BlockingCounters(s: State, e: Event)
    requires Enabled(s, e)
    requires e.DelayFor? || e.AwaitNotification? || e.CollectNotification? || e.CollectBits?
             || e.WaitOnEvent? || e.WaitOnBits? || e.WaitRestricted?
    ensures SameCounters(s, Step(s, e))
  {
    hide BlockCurrent, PutEventSorted, PutEventEnd;
    match e
    case DelayFor(d) => BlockCurrentCounters(s, d, false);
    case AwaitNotification(d) => BlockCurrentCounters(SetNotifyState(s, s.current, Waiting), d, true);
    case CollectNotification | CollectBits =>
    case WaitOnEvent(obj, d) => BlockCurrentCounters(PutEventSorted(s, Object(obj), s.current), d, true);
    case WaitOnBits(obj, value, d) =>
      var s1 := s.(tcb := s.tcb[s.current := s.tcb[s.current].(eventValue := InUse(value))]);
      BlockCurrentCounters(PutEventEnd(s1, Object(obj), s.current), d, true);
    case WaitRestricted(obj, d, forEver) =>
      BlockCurrentCounters(PutEventEnd(s, Object(obj), s.current), if forEver then MAX_DELAY else d, forEver);
  }

  lemma WakingCounters(s: State, e: Event)
    requires Enabled(s, e)
    requires e.SignalEvent? || e.SignalBits? || e.NotifyTask? || e.NotifyTaskFromIsr?
    ensures SameCounters(s, Step(s, e))
  {
    hide DropEvent, Readied, PutEventEnd, L, Outranks;
  }

  lemma ReprioritiseCounters(s: State, t: Task, changed: Tcb)
    requires t in s.tcb
    ensures SameCounters(s, Reprioritise(s, t, changed))
  {
    hide TakeOff, MakeReady;
  }

  lemma PriorityCounters(s: State, e: Event)
    requires Enabled(s, e)
    requires e.ChangePriority? || e.TakeMutex? || e.GiveMutex? || e.LendPriority? || e.WithdrawPriority?
    ensures SameCounters(s, Step(s, e))
  {
    hide Reprioritise, CodedPriority;
    forall t, changed | t in s.tcb
      ensures SameCounters(s, Reprioritise(s, t, changed))
    {
      ReprioritiseCounters(s, t, changed);
    }
  }

  lemma OtherCounters(s: State, e: Event)
    requires Enabled(s, e)
    requires e.CreateTask? || e.DeleteTask? || e.IdleCleanUp? || e.Park? || e.RefreshUnblockTime? || e.Unpark?
             || e.UnparkFromIsr? || e.Yield?
    ensures SameCounters(s, Step(s, e))
  {
    hide DropEvent, TakeOff, MakeReady, PutEnd, Readied, PutEventEnd, L, TopPriority, TaskIsSuspended;
  }

  lemma {:induction false} ProcessTicksCounters(s: State, n: nat)
    ensures ProcessTicks(s, n).suspended == s.suspended
    decreases n
  {
    hide ProcessTick, SwitchRequired;
    if n > 0 {
      ProcessTickLeaves(s);
      ProcessTicksCounters(PendedTick(s), n - 1);
    }
  }

  lemma ResumeAllCounters(s: State)
    requires s.suspended > 0 && s.tasks > 0
    ensures ResumeAll(s).suspended == s.suspended - 1
    ensures ResumeAll(s).pended == if s.suspended == 1 then 0 else s.pended
  {
    hide DrainPending, ProcessTicks, L;
    var s1 := s.(suspended := s.suspended - 1);
    var n := |E(s1.events, Pending)|;
    var s2 := DrainPending(s1, n);
    var s3 := if n > 0 then ResetNextUnblock(s2) else s2;
    ProcessTicksCounters(s3, s3.pended);
  }

  /** A tick interrupt is either processed or pended, and pended ticks are processed when the scheduler resumes. */
  lemma StepCountsTicks(s: State, e: Event)
    requires Inv(s) && Enabled(s, e) && Settled(s)
    ensures Step(s, e).pended + TicksIn(s, e) == s.pended + (if e.TickInterrupt? then 1 else 0)
    ensures Settled(Step(s, e))
  {
    hide Inv, ResumeAll, ProcessTick;
    TaskCountPositive(s);
    if e.TickInterrupt? {
      ProcessTickLeaves(s);
    } else if e.ResumeScheduler? {
      ResumeAllCounters(s);
    } else {
      hide Step, Enabled;
      match e
      case SuspendScheduler => SuspendAllCounters(s);
      case DelayFor(_) | AwaitNotification(_) | CollectNotification | CollectBits | WaitOnEvent(_, _)
        | WaitOnBits(_, _, _) | WaitRestricted(_, _, _) =>
        BlockingCounters(s, e);
      case SignalEvent(_) | SignalBits(_, _) | NotifyTask(_) | NotifyTaskFromIsr(_) => WakingCounters(s, e);
      case ChangePriority(_, _) | TakeMutex | GiveMutex | LendPriority(_) | WithdrawPriority(_, _) =>
        PriorityCounters(s, e);
      case _ => OtherCounters(s, e);
    }
  }

  lemma SuspendAllCounters(s: State)
    ensures var r := Step(s, SuspendScheduler); r.suspended == s.suspended + 1 && r.pended == s.pended
  {
  }

  lemma {:induction false} RunTimed(s: State, es: seq<Event>, now: nat, due: Dues) returns (later: Dues)
    requires Inv(s) && Timed(s, now, due) && Settled(s) && Allowed(s, es)
    ensures Inv(Run(s, es)) && Timed(Run(s, es), now + Ticked(s, es), later) && Settled(Run(s, es))
    ensures Ticked(s, es) + Run(s, es).pended == s.pended + Delivered(es)
    decreases |es|
  {
    hide Inv, Timed, Step, Enabled, TicksIn, Settled;
    if es == [] {
      later := due;
    } else {
      StepTimed(s, es[0], now, due);
      StepKeepsInv(s, es[0]);
      StepCountsTicks(s, es[0]);
      later := RunTimed(Step(s, es[0]), es[1..], now + TicksIn(s, es[0]), NextDue(s, es[0], now, due));
    }
  }

  lemma BootTimed(t: Task, priority: nat)
    requires priority < PRIORITIES
    ensures Timed(Boot(t, priority), 0, map[]) && Settled(Boot(t, priority)) && Boot(t, priority).pended == 0
  {
    var s := Boot(t, priority);
    assert Early(s) == [] && Late(s) == [];
  }

  ghost predicate NothingLost(s: State, delivered: nat) {
    && s.pended <= delivered
    && s.tick == Wrap(delivered - s.pended) && s.overflows == Epoch(delivered - s.pended)
    && (s.suspended == 0 ==> s.pended == 0 && E(s.events, Pending) == [])
  }

  lemma NoTickIsLostFrom(s: State, es: seq<Event>)
    requires Inv(s) && Timed(s, 0, map[]) && Settled(s) && s.pended == 0 && Allowed(s, es)
    ensures NothingLost(Run(s, es), Delivered(es))
  {
    hide Inv, Timed, Run, Allowed, Wrap, Epoch, Delivered, Ticked;
    var later := RunTimed(s, es, 0, map[]);
    TimedCounters(Run(s, es), Ticked(s, es), later);
    PendingOnlyWhileSuspended(Run(s, es));
  }

  /** Scheduler suspension loses nothing, over every run from start-up: the processed and the pended ticks
      together are the tick interrupts delivered, the 32-bit counter and its overflow count are those of
      the processed ticks, and while the scheduler is not suspended no tick and no task is pending. */
  lemma NoTickIsLost(t: Task, priority: nat, es: seq<Event>)
    requires priority < PRIORITIES && Allowed(Boot(t, priority), es)
    ensures NothingLost(Run(Boot(t, priority), es), Delivered(es))
  {
    hide Inv, Timed, Run, Allowed, NothingLost, Boot, Delivered;
    BootOk(t, priority);
    BootTimed(t, priority);
    NoTickIsLostFrom(Boot(t, priority), es);
  }

  lemma TimedCounters(s: State, now: nat, due: Dues)
    requires Timed(s, now, due)
    ensures s.tick == Wrap(now) && s.overflows == Epoch(now)
  {
    hide Schedule, Wrap, Epoch;
  }

  lemma PendingOnlyWhileSuspended(s: State)
    requires Inv(s)
    ensures s.suspended == 0 ==> E(s.events, Pending) == []
  {
    if E(s.events, Pending) != [] {
      assert E(s.events, Pending)[0] in E(s.events, Pending);
    }
  }

  /** After the outermost xTaskResumeAll every task that was pending is ready, and no task that is
      still asleep has a due time at or before the new tick. */
  lemma ResumptionCatchesUp(s: State, now: nat, due: Dues)
    requires Inv(s) && s.suspended == 1 && Timed(s, now, due)
    ensures var r := ResumeAll(s);
            && E(r.events, Pending) == [] && r.suspended == 0 && r.pended == 0
            && (forall t | t in E(s.events, Pending) ::
                  t in s.tcb && t in r.place && r.place[t] == Ready(s.tcb[t].priority))
            && (forall t | t in r.place && Asleep(r, t) :: t in due && due[t] > now + s.pended)
  {
    ResumeAllTimed(s, now, due);
    ResumeAllKeeps(s);
    TaskCountPositive(s);
    ResumeAllCounters(s);
    PendingOnlyWhileSuspended(ResumeAll(s));
    forall t | t in E(s.events, Pending)
      ensures t in s.tcb && t in s.place && t in PendingTasks(s)
    {
    }
    AsleepIsDue(ResumeAll(s), now + s.pended, After(due - PendingTasks(s), now + s.pended));
    hide Inv, Timed, ResumeAll;
  }

  lemma AsleepIsDue(s: State, now: nat, due: Dues)
    requires Inv(s) && Timed(s, now, due)
    ensures forall t | t in s.place && Asleep(s, t) :: t in due && due[t] > now
  {
    forall t | t in s.place && Asleep(s, t)
      ensures t in due && due[t] > now
    {
      assert t in L(s.lists, s.place[t]).items;
      assert t in Early(s) || t in Late(s);
    }
  }
}
/** Pre-emption: as long as every switch that an entry point asks for is made, a task of the highest ready priority
    runs. Asking is one thing and switching another: between the two any number of interrupts may come, and while
    the scheduler is suspended a switch is put off until it is resumed. */
module KernelPreemption {
  import opened Ticks
  import opened Rings
  import opened KernelState
  import opened KernelPlacement
  import opened KernelOrder
  import opened KernelSteps
  import opened KernelTime
  import opened KernelRuns
  import opened KernelEffects
  import opened KernelSwitching

  /** The running task is ready, and no ready task has a higher priority. */
  ghost predicate HighestRuns(s: State) {
    && Running(s)
    && forall t | t in s.place && t in s.tcb && s.place[t].Ready? :: s.tcb[t].priority <= s.tcb[s.current].priority
  }

  predicate Below(s: State, t: Task) {
    t in s.tcb && s.current in s.tcb && s.tcb[t].priority < s.tcb[s.current].priority
  }

  /** vTaskPrioritySet asks for a switch when it raises another task to the running task's priority or lowers the
      running task. */
  predicate SettingAsks(s: State, t: Task, p: nat)
    requires t in s.tcb && s.current in s.tcb
  {
    var base := s.tcb[t].basePriority;
    if p > base then t != s.current && p >= s.tcb[s.current].priority else p < base && t == s.current
  }

  /** Whether the entry point asks for a switch, by yielding or by telling its caller to; those that set xYieldPending
      need not. */
  predicate Asks(s: State, e: Event)
    requires s.current in s.tcb && Enabled(s, e)
  {
    match e
    case TickInterrupt => SwitchRequired(s, Tick(s))
    case DelayFor(_) | WaitOnEvent(_, _) | WaitOnBits(_, _, _) | WaitRestricted(_, _, _) => true
    case AwaitNotification(ticks) => ticks > 0
    case ResumeScheduler => s.suspended == 1 && ResumeAll(s).yieldPending
    case NotifyTask(t) => s.tcb[t].notify == Waiting && Outranks(s, t)
    case CreateTask(_, p) => p > s.tcb[s.current].priority
    case DeleteTask(t) => t == s.current
    case Park(t) => t == s.current
    case Unpark(t) => t != s.current && TaskIsSuspended(s, t) && !Below(s, t)
    case UnparkFromIsr(t) => s.suspended == 0 && TaskIsSuspended(s, t) && !Below(s, t)
    case ChangePriority(t, p) => SettingAsks(s, t, p)
    case GiveMutex => s.tcb[s.current].mutexesHeld == 1 && s.tcb[s.current].priority != s.tcb[s.current].basePriority
    case _ => false
  }

  /** Taking back an inherited priority does not raise the holder, and is not done by the holder. */
  predicate Proper(s: State, e: Event)
    requires Enabled(s, e)
  {
    match e
    case WithdrawPriority(t, p) =>
      t != s.current && p <= s.tcb[t].priority && s.tcb[t].basePriority <= s.tcb[t].priority
    case _ => true
  }

  /** A switch has been asked for and not been made, or is pending, or none is needed. */
  ghost predicate Preempting(s: State, asked: bool) {
    asked || s.yieldPending || HighestRuns(s)
  }

  predicate AskedAfter(s: State, e: Event, asked: bool)
    requires s.current in s.tcb && Enabled(s, e)
  {
    !e.Yield? && (asked || Asks(s, e))
  }

  // ---- one task at a time ---------------------------------------------------------------------------

  lemma OneMoves(s: State, r: State, t: Task)
    requires HighestRuns(s) && SameElsewhere(s.tcb, r.tcb, t) && SameElsewhere(s.place, r.place, t)
    requires r.current == s.current
    requires t == s.current ==> Running(r) && r.tcb[t].priority >= s.tcb[t].priority
    requires t in r.place && t in r.tcb && r.place[t].Ready? ==> r.tcb[t].priority <= r.tcb[r.current].priority
    ensures HighestRuns(r)
  {
  }

  lemma NobodyMoves(s: State, r: State)
    requires HighestRuns(s) && r.tcb == s.tcb && r.place == s.place && r.current == s.current
    ensures HighestRuns(r)
  {
  }

  lemma SignalPreempts(s: State, e: Event)
    requires Inv(s) && Enabled(s, e) && Proper(s, e) && (e.SignalEvent? || e.SignalBits?)
    requires s.yieldPending || HighestRuns(s)
    ensures Preempting(Step(s, e), false)
  {
    hide Inv, OrderStays, PickedLast, IsLast, RemoveFromEventList, RemoveFromUnorderedEventList;
    RunningIsLive(s);
    if e.SignalEvent? {
      var t := E(s.events, Object(e.obj))[0];
      SignalEffect(s, t);
      if HighestRuns(s) && !Outranks(s, t) {
        OneMoves(s, Step(s, e), t);
      }
    } else {
      SignalBitsEffect(s, e.task, e.value);
      if HighestRuns(s) && !Outranks(s, e.task) {
        OneMoves(s, Step(s, e), e.task);
      }
    }
  }

  lemma NotifyPreempts(s: State, e: Event)
    requires Inv(s) && Enabled(s, e) && (e.NotifyTask? || e.NotifyTaskFromIsr?)
    requires s.yieldPending || HighestRuns(s)
    ensures s.current in s.tcb && Preempting(Step(s, e), Asks(s, e))
  {
    hide Inv, OrderStays, PickedLast, IsLast, Notify, NotifyFromIsr;
    RunningIsLive(s);
    if e.NotifyTask? {
      NotifyTaskPreempts(s, e.task);
    } else {
      NotifyFromIsrEffect(s, e.task);
      if HighestRuns(s) && !(s.tcb[e.task].notify == Waiting && Outranks(s, e.task)) {
        OneMoves(s, NotifyFromIsr(s, e.task), e.task);
      }
    }
  }

  lemma NotifyTaskPreempts(s: State, t: Task)
    requires t in s.tcb && t in s.place && s.current in s.tcb && (s.yieldPending || HighestRuns(s))
    ensures Preempting(Notify(s, t), s.tcb[t].notify == Waiting && Outranks(s, t))
  {
    hide OrderStays, PickedLast, Notify;
    NotifyEffect(s, t);
    if HighestRuns(s) && !(s.tcb[t].notify == Waiting && Outranks(s, t)) {
      OneMoves(s, Notify(s, t), t);
    }
  }

  lemma TaskSetPreempts(s: State, e: Event)
    requires Inv(s) && InWakeOrder(s) && Enabled(s, e) && (e.CreateTask? || e.DeleteTask? || e.IdleCleanUp?)
    requires s.yieldPending || HighestRuns(s)
    ensures s.current in s.tcb && Preempting(Step(s, e), Asks(s, e))
  {
    hide Inv, OrderStays, PickedLast, Create, Delete, CleanUp, SameElsewhere, InWakeOrder, UnblocksNext, NewlyReady;
    RunningIsLive(s);
    TaskCountPositive(s);
    match e
    case CreateTask(t, p) => CreatePreempts(s, t, p);
    case DeleteTask(t) =>
      DeleteEffect(s, t);
      if HighestRuns(s) && t != s.current {
        OneMoves(s, Step(s, e), t);
      }
    case IdleCleanUp =>
      var t := L(s.lists, Termination).items[0];
      CleanUpsLeft(s);
      CleanUpEffect(s, t);
      if HighestRuns(s) {
        OneMoves(s, Step(s, e), t);
      }
  }

  lemma CreatePreempts(s: State, t: Task, p: nat)
    requires s.current in s.tcb && t !in s.tcb && p < PRIORITIES && (s.yieldPending || HighestRuns(s))
    ensures p > s.tcb[s.current].priority || Create(s, t, p).yieldPending || HighestRuns(Create(s, t, p))
  {
    hide OrderStays, PickedLast, Create;
    CreateEffect(s, t, p);
    if HighestRuns(s) && p <= s.tcb[s.current].priority {
      OneMoves(s, Create(s, t, p), t);
    }
  }

  lemma CleanUpsLeft(s: State)
    requires Inv(s)
    ensures s.cleanups == |L(s.lists, Termination).items|
  {
    hide Core;
  }

  lemma ParkPreempts(s: State, e: Event)
    requires Inv(s) && Enabled(s, e) && (e.Park? || e.RefreshUnblockTime? || e.Unpark? || e.UnparkFromIsr?)
    requires s.yieldPending || HighestRuns(s)
    ensures s.current in s.tcb && Preempting(Step(s, e), Asks(s, e))
  {
    hide Inv, OrderStays, PickedLast, IsLast, SuspendTask, ResumeTask, ResumeFromIsr, SameElsewhere, L, WakeOf;
    RunningIsLive(s);
    if e.RefreshUnblockTime? {
      if HighestRuns(s) {
        NobodyMoves(s, Step(s, e));
      }
    } else if e.Park? {
      ParkEffect(s, e.task);
      if HighestRuns(s) && e.task != s.current {
        OneMoves(s, Step(s, e), e.task);
      }
    } else if e.Unpark? {
      UnparkEffect(s, e.task);
      if HighestRuns(s) && e.task != s.current && TaskIsSuspended(s, e.task) && Below(s, e.task) {
        OneMoves(s, Step(s, e), e.task);
      }
    } else {
      UnparkFromIsrEffect(s, e.task);
      if HighestRuns(s) && TaskIsSuspended(s, e.task) && (Below(s, e.task) || s.suspended > 0) {
        OneMoves(s, Step(s, e), e.task);
      }
    }
  }

  lemma ReprioritisedPreempts(s: State, r: State, t: Task, c: Tcb)
    requires HighestRuns(s) && Reprioritised(s, r, t, c) && t in s.tcb
    requires t == s.current ==> c.priority >= s.tcb[t].priority && s.place[t] == Ready(s.tcb[t].priority)
    requires t != s.current && t in s.place && s.place[t].Ready? ==> c.priority <= s.tcb[s.current].priority
    ensures HighestRuns(r)
  {
    hide OrderStays, PickedLast;
    OneMoves(s, r, t);
  }

  lemma RunningPlace(s: State)
    requires Inv(s)
    ensures s.current in s.tcb
    ensures Running(s) ==> s.place[s.current] == Ready(s.tcb[s.current].priority)
    ensures forall t | t in s.tcb :: s.tcb[t].priority < PRIORITIES && s.tcb[t].basePriority < PRIORITIES
  {
    hide Placed, EventsPlaced;
  }

  lemma ChangePreempts(s: State, t: Task, p: nat)
    requires Inv(s) && t in s.tcb && s.current in s.tcb && p < PRIORITIES && (s.yieldPending || HighestRuns(s))
    ensures Preempting(SetPriority(s, t, p), SettingAsks(s, t, p))
  {
    RunningPlace(s);
    hide Inv, SetPriority, OthersStay, NewlyReady;
    PriorityEffect(s, t, p);
    if HighestRuns(s) && !SettingAsks(s, t, p) && s.tcb[t].basePriority != p {
      ReprioritisedPreempts(s, SetPriority(s, t, p), t, SetPriority(s, t, p).tcb[t]);
    }
  }

  lemma FieldsOnly(s: State, r: State)
    requires HighestRuns(s) && OthersStay(s, r, s.current) && r == s.(tcb := r.tcb)
    requires s.current in r.tcb && r.tcb[s.current].priority == s.tcb[s.current].priority
    ensures HighestRuns(r)
  {
    hide OrderStays;
    OneMoves(s, r, s.current);
  }

  lemma HoldPreempts(s: State)
    requires s.current in s.tcb && (s.yieldPending || HighestRuns(s))
    ensures Preempting(HoldMutex(s), false)
  {
    hide OthersStay;
    HoldEffect(s);
    if HighestRuns(s) {
      FieldsOnly(s, HoldMutex(s));
    }
  }

  lemma GivePreempts(s: State)
    requires Inv(s) && s.current in s.tcb && s.tcb[s.current].mutexesHeld > 0 && (s.yieldPending || HighestRuns(s))
    ensures var c := s.tcb[s.current];
            Preempting(Disinherit(s), c.mutexesHeld == 1 && c.priority != c.basePriority)
  {
    RunningPlace(s);
    hide Inv, Disinherit, OthersStay, NewlyReady;
    DisinheritEffect(s);
    var c := s.tcb[s.current];
    if HighestRuns(s) && !(c.mutexesHeld == 1 && c.priority != c.basePriority) {
      FieldsOnly(s, Disinherit(s));
    }
  }

  lemma LendPreempts(s: State, t: Task)
    requires Inv(s) && t in s.tcb && s.current in s.tcb && (s.yieldPending || HighestRuns(s))
    ensures Preempting(Inherit(s, t), false)
  {
    RunningPlace(s);
    hide Inv, Inherit, OthersStay, NewlyReady;
    InheritEffect(s, t);
    if HighestRuns(s) && s.tcb[t].priority < s.tcb[s.current].priority {
      ReprioritisedPreempts(s, Inherit(s, t), t, Inherit(s, t).tcb[t]);
    }
  }

  lemma WithdrawPreempts(s: State, t: Task, p: nat)
    requires Inv(s) && t in s.tcb && s.current in s.tcb && p < PRIORITIES && (s.yieldPending || HighestRuns(s))
    requires Proper(s, WithdrawPriority(t, p))
    ensures Preempting(DisinheritAfterTimeout(s, t, p), false)
  {
    RunningPlace(s);
    hide Inv, DisinheritAfterTimeout, OthersStay, NewlyReady;
    WithdrawEffect(s, t, p);
    var r := DisinheritAfterTimeout(s, t, p);
    if HighestRuns(s) && r != s {
      ReprioritisedPreempts(s, r, t, r.tcb[t]);
    }
  }

  lemma PriorityPreempts(s: State, e: Event)
    requires Inv(s) && Enabled(s, e) && Proper(s, e)
    requires e.ChangePriority? || e.TakeMutex? || e.GiveMutex? || e.LendPriority? || e.WithdrawPriority?
    requires s.yieldPending || HighestRuns(s)
    ensures s.current in s.tcb && Preempting(Step(s, e), Asks(s, e))
  {
    hide Inv, SetPriority, Inherit, Disinherit, DisinheritAfterTimeout, HoldMutex, HighestRuns, Preempting, SettingAsks;
    RunningIsLive(s);
    if e.ChangePriority? {
      ChangePreempts(s, e.task, e.priority);
    } else if e.TakeMutex? {
      HoldPreempts(s);
    } else if e.GiveMutex? {
      GivePreempts(s);
    } else if e.LendPriority? {
      LendPreempts(s, e.task);
    } else {
      WithdrawPreempts(s, e.task, e.priority);
    }
  }

  // ---- the scheduler ------------------------------------------------------------------------------------

  lemma TickPreempts(s: State, now: nat, due: Dues)
    requires Inv(s) && Timed(s, now, due) && (s.yieldPending || HighestRuns(s))
    ensures s.current in s.tcb && Preempting(Tick(s), SwitchRequired(s, Tick(s)))
  {
    RunningIsLive(s);
    hide Inv, Timed, ProcessTick, SwitchRequired, OrderStays, DueBy, TwoReady;
    if s.suspended == 0 {
      TickEffect(s, now, due);
      TickSwitches(s, now, due);
      DueIsDelayed(s, now, due);
      if HighestRuns(s) && !UrgentDue(s, due, now + 1) {
        LessUrgentWoken(s, Tick(s), now + 1, due);
      }
    } else if HighestRuns(s) {
      NobodyMoves(s, Tick(s));
    }
  }

  lemma LessUrgentWoken(s: State, r: State, n: nat, due: Dues)
    requires HighestRuns(s) && !UrgentDue(s, due, n) && Woken(s, r, n, due) && r.current == s.current
    requires forall t | t in due :: t in s.place && t in s.tcb && !s.place[t].Ready?
    ensures HighestRuns(r)
  {
  }

  lemma ResumePreempts(s: State, now: nat, due: Dues)
    requires Inv(s) && Timed(s, now, due) && s.suspended > 0 && (s.yieldPending || HighestRuns(s))
    ensures Preempting(ResumeAll(s), false)
  {
    hide Inv, Timed, ResumeAll, TwoReady, PendingTasks, UrgentDue, UrgentAmong, After;
    ResumptionYields(s, now, due);
    if s.suspended > 1 {
      if HighestRuns(s) {
        NobodyMoves(s, ResumeAll(s));
      }
    } else if HighestRuns(s) && !ResumeAll(s).yieldPending {
      ResumeAllTimed(s, now, due);
      ResumeAllCurrent(s, now, due);
      LaterThanNow(s, now, due);
      LessUrgentReleased(s, ResumeAll(s), PendingTasks(s), now + s.pended, due);
    }
  }

  lemma LaterThanNow(s: State, now: nat, due: Dues)
    requires Timed(s, now, due)
    ensures s.pended == 0 ==> !UrgentDue(s, due - PendingTasks(s), now + s.pended)
  {
    hide Schedule, L, Wrap, Epoch;
  }

  lemma ResumeAllCurrent(s: State, now: nat, due: Dues)
    requires Inv(s) && Timed(s, now, due) && s.suspended == 1
    ensures ResumeAll(s).current == s.current
  {
    hide Inv, Timed, ProcessTicks, Drained, PendingTasks, TwoReady, UrgentDue, UrgentAmong;
    TaskCountPositive(s);
    ResumptionIs(s);
    ResumptionDrains(s, now, due);
    if s.pended > 0 {
      ProcessTicksSwitch(Drained(s), s.pended, now, due - PendingTasks(s));
    } else {
      NoTicks(Drained(s));
    }
    hide ResumeAll;
  }

  lemma LessUrgentReleased(s: State, r: State, released: set<Task>, n: nat, due: Dues)
    requires HighestRuns(s) && CaughtUp(s, r, released, n, due) && r.current == s.current
    requires !UrgentAmong(s, released) && !UrgentDue(s, due - released, n)
    ensures HighestRuns(r)
  {
  }

  lemma YieldPreempts(s: State)
    requires Inv(s) && Enabled(s, Yield)
    ensures Preempting(SwitchContext(s), false) && (s.suspended == 0 ==> HighestRuns(SwitchContext(s)))
  {
    if s.suspended == 0 {
      SomeoneIsReady(s);
      forall t | t in s.place && t in s.tcb && s.place[t].Ready?
        ensures Running(SwitchContext(s)) && SwitchContext(s).tcb == s.tcb && SwitchContext(s).place == s.place
        ensures s.tcb[t].priority <= s.tcb[SwitchContext(s).current].priority
      {
        SelectionIsMaximal(s, t);
      }
    }
    hide Inv, TopPriority, L;
  }

  lemma SomeoneIsReady(s: State)
    requires Inv(s) && Enabled(s, Yield) && s.suspended == 0
    ensures exists t :: t in s.place && t in s.tcb && s.place[t].Ready?
  {
    var line := L(s.lists, Ready(TopPriority(s, s.topReady))).items;
    assert line[0] in line;
    hide TopPriority;
  }

  lemma CollectPreempts(s: State, n: NotifyState)
    requires s.current in s.tcb && HighestRuns(s)
    ensures HighestRuns(SetNotifyState(s, s.current, n)) && HighestRuns(ResetEventValue(s))
  {
  }

  lemma SchedulerPreempts(s: State, e: Event, now: nat, due: Dues)
    requires Inv(s) && Timed(s, now, due) && Enabled(s, e) && (s.yieldPending || HighestRuns(s))
    requires e.TickInterrupt? || e.SuspendScheduler? || e.ResumeScheduler?
    ensures s.current in s.tcb && Preempting(Step(s, e), Asks(s, e))
  {
    hide Inv, Timed, ResumeAll, Tick, SwitchRequired, HighestRuns;
    RunningIsLive(s);
    if e.TickInterrupt? {
      TickPreempts(s, now, due);
    } else if e.ResumeScheduler? {
      ResumePreempts(s, now, due);
    } else if HighestRuns(s) {
      NobodyMoves(s, SuspendAll(s));
    }
  }

  lemma BlockingPreempts(s: State, e: Event)
    requires Inv(s) && Enabled(s, e) && (s.yieldPending || HighestRuns(s))
    requires e.DelayFor? || e.AwaitNotification? || e.CollectNotification? || e.CollectBits? || e.WaitOnEvent?
             || e.WaitOnBits? || e.WaitRestricted?
    ensures s.current in s.tcb && Preempting(Step(s, e), Asks(s, e))
  {
    hide Inv, BlockCurrent, PlaceOnEventList, PlaceOnUnorderedEventList, PlaceOnEventListRestricted, HighestRuns;
    RunningIsLive(s);
    if HighestRuns(s) {
      CollectPreempts(s, Waiting);
      CollectPreempts(s, NotWaiting);
    }
  }

  lemma EventPreempts(s: State, e: Event, now: nat, due: Dues)
    requires Inv(s) && Timed(s, now, due) && Enabled(s, e) && Proper(s, e) && !e.Yield?
    requires s.yieldPending || HighestRuns(s)
    ensures s.current in s.tcb && Preempting(Step(s, e), Asks(s, e))
  {
    hide Inv, Timed, HighestRuns, InWakeOrder, Enabled, Step, Proper, Asks, Preempting;
    WakeOrderIs(s, now, due);
    match e
    case SignalEvent(_) | SignalBits(_, _) =>
      SignalPreempts(s, e);
      AsksNothing(s, e);
    case NotifyTask(_) | NotifyTaskFromIsr(_) => NotifyPreempts(s, e);
    case CreateTask(_, _) | DeleteTask(_) | IdleCleanUp => TaskSetPreempts(s, e);
    case Park(_) | RefreshUnblockTime | Unpark(_) | UnparkFromIsr(_) => ParkPreempts(s, e);
    case ChangePriority(_, _) | TakeMutex | GiveMutex | LendPriority(_) | WithdrawPriority(_, _) =>
      PriorityPreempts(s, e);
    case TickInterrupt | SuspendScheduler | ResumeScheduler => SchedulerPreempts(s, e, now, due);
    case _ => BlockingPreempts(s, e);
  }

  lemma AsksNothing(s: State, e: Event)
    requires Inv(s) && Enabled(s, e) && (e.SignalEvent? || e.SignalBits?)
    ensures s.current in s.tcb && !Asks(s, e)
  {
    RunningIsLive(s);
    hide Inv;
  }

  /** Every entry point that makes a task ready with a higher priority than the running task, or makes the running task
      stop being the highest, asks for a switch or leaves one pending. */
  lemma StepPreempts(s: State, e: Event, asked: bool, now: nat, due: Dues)
    requires Inv(s) && Timed(s, now, due) && Enabled(s, e) && Proper(s, e) && Preempting(s, asked)
    ensures s.current in s.tcb && Preempting(Step(s, e), AskedAfter(s, e, asked))
  {
    RunningIsLive(s);
    if e.Yield? {
      YieldPreempts(s);
    } else if !asked {
      EventPreempts(s, e, now, due);
    }
    hide Inv, Timed, HighestRuns, Asks, SwitchContext;
  }

  // ---- runs ---------------------------------------------------------------------------------------------

  /** The events of a run are proper, and some task is running whenever one comes. */
  ghost predicate AllProper(s: State, es: seq<Event>)
    requires Allowed(s, es)
    decreases |es|
  {
    es == [] || (s.current in s.tcb && Proper(s, es[0]) && AllProper(Step(s, es[0]), es[1..]))
  }

  /** A switch has been asked for along the run and none has been made since. */
  ghost predicate AskedFor(s: State, es: seq<Event>, asked: bool)
    requires Allowed(s, es) && AllProper(s, es)
    decreases |es|
  {
    if es == [] then asked else AskedFor(Step(s, es[0]), es[1..], AskedAfter(s, es[0], asked))
  }

  lemma {:induction false} RunPreempts(s: State, es: seq<Event>, asked: bool, now: nat, due: Dues)
    requires Inv(s) && Timed(s, now, due) && Allowed(s, es) && AllProper(s, es) && Preempting(s, asked)
    ensures Preempting(Run(s, es), AskedFor(s, es, asked))
    decreases |es|
  {
    hide Inv, Timed, Step, Enabled, Proper, Preempting, AskedAfter, Sleepers, TicksIn;
    if es != [] {
      StepPreempts(s, es[0], asked, now, due);
      StepTimed(s, es[0], now, due);
      StepKeepsInv(s, es[0]);
      RunPreempts(Step(s, es[0]), es[1..], AskedAfter(s, es[0], asked), now + TicksIn(s, es[0]),
                  NextDue(s, es[0], now, due));
    }
  }

  /** Pre-emptive scheduling, over every run from start-up, whatever interrupts come when: unless a switch has been
      asked for and not been made yet, or is pending until the scheduler is resumed, the running task is ready and no
      ready task has a higher priority. */
  lemma HighestPriorityRuns(t: Task, priority: nat, es: seq<Event>)
    requires priority < PRIORITIES && Allowed(Boot(t, priority), es) && AllProper(Boot(t, priority), es)
    ensures var r := Run(Boot(t, priority), es);
            || AskedFor(Boot(t, priority), es, false) || r.yieldPending
            || (&& r.current in r.tcb && r.current in r.place && r.place[r.current].Ready?
                && forall u | u in r.place && u in r.tcb && r.place[u].Ready? ::
                     r.tcb[u].priority <= r.tcb[r.current].priority)
  {
    BootOk(t, priority);
    BootTimed(t, priority);
    RunPreempts(Boot(t, priority), es, false, 0, map[]);
    hide Inv, Timed, Run, Allowed, AllProper, AskedFor;
  }

  lemma WakeOrderIs(s: State, now: nat, due: Dues)
    requires Timed(s, now, due)
    ensures InWakeOrder(s)
  {
    hide Wrap, Epoch;
  }

  // ---- giving a mutex -------------------------------------------------------------------------------------

  /** The task's inherited priority ends with the mutex it gives. */
  predicate Falls(c: Tcb) {
    c.mutexesHeld == 1 && c.priority != c.basePriority
  }

  function Waiters(s: State, obj: nat): seq<Task> {
    E(s.events, Object(obj))
  }

  predicate CanGive(s: State, obj: nat) {
    && s.current in s.tcb && s.tcb[s.current].mutexesHeld > 0 && s.suspended == 0
    && (Waiters(s, obj) != [] ==> Waiters(s, obj)[0] in s.tcb && Waiters(s, obj)[0] in s.place)
  }

  /** The critical section of xQueueGenericSend that gives a mutex back, with the list of tasks waiting for it. */
  function Given(s: State, obj: nat): State
    requires CanGive(s, obj)
  {
    GiveLeavesWaiters(s, obj);
    if Waiters(s, obj) == [] then Disinherit(s) else RemoveFromEventList(Disinherit(s), Waiters(s, obj)[0])
  }

  /** Whether that section yields: to a task it wakes, or, but only if nobody waits, because the priority has fallen. */
  predicate GiveAsks(s: State, obj: nat)
    requires CanGive(s, obj)
  {
    if Waiters(s, obj) == [] then Falls(s.tcb[s.current]) else Outranks(Disinherit(s), Waiters(s, obj)[0])
  }

  lemma GiveLeavesWaiters(s: State, obj: nat)
    requires CanGive(s, obj)
    ensures var r := Disinherit(s);
            && r.events == s.events && r.waiting == s.waiting && r.current == s.current && r.suspended == s.suspended
            && r.yieldPending == s.yieldPending && r.tcb.Keys == s.tcb.Keys
            && (forall t | t in s.place :: t in r.place)
  {
    hide Reprioritise, Returned;
    ReprioritiseLeaves(s, s.current, Returned(s.tcb[s.current]));
  }

  lemma ReprioritiseLeaves(s: State, t: Task, c: Tcb)
    requires t in s.tcb
    ensures var r := Reprioritise(s, t, c);
            && r == s.(tcb := s.tcb[t := c], lists := r.lists, place := r.place, topReady := r.topReady)
            && forall u | u in s.place :: u in r.place
  {
    hide TakeOff, MakeReady;
  }

  /** Another task than the running one is ready with a priority above p. */
  ghost predicate OtherAbove(s: State, p: nat) {
    exists t | t in s.place && t in s.tcb :: t != s.current && s.place[t].Ready? && s.tcb[t].priority > p
  }

  lemma FallenIs(s: State)
    requires Inv(s) && HighestRuns(s) && s.tcb[s.current].mutexesHeld > 0
    ensures var r := Disinherit(s); var base := s.tcb[s.current].basePriority;
            && r.current == s.current && Running(r) && SameElsewhere(s.place, r.place, s.current)
            && SameElsewhere(s.tcb, r.tcb, s.current)
            && r.tcb[s.current].priority == (if Falls(s.tcb[s.current]) then base else s.tcb[s.current].priority)
  {
    RunningPlace(s);
    hide Inv, Disinherit, OrderStays, PickedLast;
    DisinheritEffect(s);
  }

  /** The running task has fallen to its own priority, and w, which has no higher one, has been woken. */
  lemma HighestAfterFall(s: State, r: State, w: Task)
    requires s.current in s.tcb && r.current == s.current && Running(r)
    requires forall t | t != s.current && t != w ::
               (t in r.place <==> t in s.place) && (t in r.tcb <==> t in s.tcb)
               && (t in s.place ==> r.place[t] == s.place[t]) && (t in s.tcb ==> r.tcb[t] == s.tcb[t])
    requires w != s.current && w in s.tcb && w in r.tcb
    requires r.tcb[w].priority == s.tcb[w].priority <= r.tcb[r.current].priority
    ensures HighestRuns(r) <==> !OtherAbove(s, r.tcb[r.current].priority)
  {
    var p := r.tcb[r.current].priority;
    if OtherAbove(s, p) {
      var t :| t in s.place && t in s.tcb && t != s.current && s.place[t].Ready? && s.tcb[t].priority > p;
      assert t in r.place && r.place[t].Ready? && r.tcb[t].priority > p;
    }
  }

  /** Giving a mutex while nobody waits for it asks for a switch whenever one is needed. */
  lemma GiveToNobody(s: State, obj: nat)
    requires Inv(s) && CanGive(s, obj) && HighestRuns(s) && Waiters(s, obj) == []
    ensures GiveAsks(s, obj) || HighestRuns(Given(s, obj))
  {
    RunningPlace(s);
    hide Inv, Disinherit, OthersStay, HighestRuns, Reprioritised;
    DisinheritEffect(s);
    if !Falls(s.tcb[s.current]) {
      FieldsOnly(s, Disinherit(s));
    }
  }

  lemma WakeEffect(s: State, obj: nat)
    requires Inv(s) && CanGive(s, obj) && HighestRuns(s) && Waiters(s, obj) != [] && s.current !in s.waiting
    ensures var w, r := Waiters(s, obj)[0], Given(s, obj); var c := s.tcb[s.current];
            && w != s.current && r.current == s.current && Running(r)
            && (forall t | t != s.current && t != w ::
                  (t in r.place <==> t in s.place) && (t in r.tcb <==> t in s.tcb)
                  && (t in s.place ==> r.place[t] == s.place[t]) && (t in s.tcb ==> r.tcb[t] == s.tcb[t]))
            && w in s.tcb && w in r.tcb && r.tcb[w].priority == s.tcb[w].priority
            && r.tcb[r.current].priority == (if Falls(c) then c.basePriority else c.priority)
            && (GiveAsks(s, obj) <==> s.tcb[w].priority > r.tcb[r.current].priority)
  {
    var w := Waiters(s, obj)[0];
    HeadWaits(s, obj);
    FallenIs(s);
    GiveLeavesWaiters(s, obj);
    SignalEffect(Disinherit(s), w);
    hide Inv, Disinherit, OrderStays, PickedLast, RemoveFromEventList;
  }

  /** Giving a mutex back keeps the highest task running, or asks for a switch, exactly unless the giver's priority
      falls, a task waits for the mutex that has no higher priority than the giver's own, and some other ready task has:
      then the switch that the fall calls for is not asked for. */
  lemma GiveKeepsHighestWhen(s: State, obj: nat)
    requires Inv(s) && CanGive(s, obj) && HighestRuns(s) && s.current !in s.waiting
    ensures var c, ws := s.tcb[s.current], Waiters(s, obj);
            GiveAsks(s, obj) || HighestRuns(Given(s, obj))
            <==> !(Falls(c) && ws != [] && s.tcb[ws[0]].priority <= c.basePriority && OtherAbove(s, c.basePriority))
  {
    hide Inv, Disinherit, RemoveFromEventList, Given, GiveAsks, OtherAbove;
    if Waiters(s, obj) == [] {
      GiveToNobody(s, obj);
    } else {
      WakeEffect(s, obj);
      if !GiveAsks(s, obj) {
        HighestAfterFall(s, Given(s, obj), Waiters(s, obj)[0]);
        NobodyAbove(s);
      }
    }
  }

  lemma NobodyAbove(s: State)
    requires HighestRuns(s)
    ensures !OtherAbove(s, s.tcb[s.current].priority)
  {
  }

  /** Task 1 holds its last mutex and runs at an inherited priority of 3, task 2 of priority 2 is ready, and task 3
      waits for the mutex at task 1's own priority of 1. */
  function Stranded(): State {
    State(0, 0,
          map[1 := Tcb(3, 1, 1, 3, NotWaiting), 2 := Tcb(2, 2, 0, 4, NotWaiting), 3 := Tcb(1, 1, 0, 5, NotWaiting)],
          map[Ready(3) := Ring([1], 1), Ready(2) := Ring([2], 0), Suspended := Ring([3], 0)],
          map[1 := Ready(3), 2 := Ready(2), 3 := Suspended], map[],
          map[Object(0) := [3]], map[3 := Object(0)],
          Delayed1, Delayed2, MAX_DELAY, 0, 0, false, 1, 3, 3, 0)
  }

  lemma StrandedLists()
    ensures Placed(Stranded().lists, Stranded().place)
  {
    var s := Stranded();
    assert forall id {:trigger L(s.lists, id)} ::
      L(s.lists, id) == if id == Ready(3) then Ring([1], 1) else if id == Ready(2) then Ring([2], 0)
                        else if id == Suspended then Ring([3], 0) else Ring([], 0);
  }

  lemma StrandedEvents()
    ensures EventsPlaced(Stranded().events, Stranded().waiting)
  {
    var s := Stranded();
    assert forall e {:trigger E(s.events, e)} :: E(s.events, e) == if e == Object(0) then [3] else [];
  }

  lemma StrandedTasks()
    ensures var s := Stranded();
            && PrioritiesOk(s.tcb, s.place, s.topReady) && DelayedIds(s)
            && s.tcb.Keys == {1, 2, 3} == s.place.Keys && s.waiting == map[3 := Object(0)] && |s.tcb| == 3
            && s.place[3] == Suspended && s.place[1] == Ready(3) && s.place[2] == Ready(2)
            && L(s.lists, Termination).items == [] && s.tasks == 3 && s.cleanups == 0 && s.current == 1
  {
    var s := Stranded();
    assert |s.tcb| == |s.tcb.Keys|;
  }

  lemma StrandedOk()
    ensures Inv(Stranded())
  {
    hide Placed, EventsPlaced, PrioritiesOk, Stranded, L;
    StrandedLists();
    StrandedEvents();
    StrandedTasks();
  }

  lemma StrandedRuns()
    ensures HighestRuns(Stranded()) && CanGive(Stranded(), 0) && Waiters(Stranded(), 0) == [3]
  {
  }

  lemma GivePending(s: State, obj: nat)
    requires CanGive(s, obj)
    ensures Given(s, obj).yieldPending ==> s.yieldPending || GiveAsks(s, obj)
  {
    hide DropEvent, Unblock, Disinherit, Outranks;
    GiveLeavesWaiters(s, obj);
    hide CanGive;
  }

  /** Task 1 gives the mutex back and goes on running, at priority 1 and unasked, although task 2 is ready. */
  lemma GiveStrandsReadyTask()
    ensures var s := Stranded();
            && Inv(s) && HighestRuns(s) && CanGive(s, 0) && !s.yieldPending
            && !GiveAsks(s, 0) && !Given(s, 0).yieldPending && !HighestRuns(Given(s, 0))
  {
    hide Inv, Given, GiveAsks, HighestRuns;
    var s := Stranded();
    StrandedOk();
    StrandedRuns();
    assert 2 in s.place && s.place[2].Ready?;
    GiveKeepsHighestWhen(s, 0);
    GivePending(s, 0);
  }
}

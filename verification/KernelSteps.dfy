/** The entry points of the scheduler as events, what each demands of its caller, and the proof that
    every one of them keeps the placement invariant. */
module KernelSteps {
  import opened Ticks
  import opened Rings
  import opened KernelState
  import opened KernelPlacement

  datatype Event =
    | TickInterrupt | SuspendScheduler | ResumeScheduler | Yield
    | DelayFor(ticks: nat) | AwaitNotification(ticks: nat) | CollectNotification | CollectBits
    | WaitOnEvent(obj: nat, ticks: nat) | WaitOnBits(obj: nat, value: nat, ticks: nat)
    | WaitRestricted(obj: nat, ticks: nat, forEver: bool)
    | SignalEvent(obj: nat) | SignalBits(task: Task, value: nat)
    | NotifyTask(task: Task) | NotifyTaskFromIsr(task: Task)
    | CreateTask(task: Task, priority: nat) | DeleteTask(task: Task) | IdleCleanUp
    | Park(task: Task) | RefreshUnblockTime | Unpark(task: Task) | UnparkFromIsr(task: Task)
    | ChangePriority(task: Task, priority: nat)
    | TakeMutex | GiveMutex | LendPriority(task: Task) | WithdrawPriority(task: Task, priority: nat)

  /** The calling task is executing, so it is in a ready list. */
  predicate Running(s: State) {
    s.current in s.tcb && s.current in s.place && s.place[s.current].Ready?
  }

  /** Block times are TickType_t values; a task never blocks for no time at all. */
  predicate BlockTime(ticks: nat) {
    0 < ticks <= MAX_DELAY
  }

  predicate Live(s: State, t: Task) {
    t in s.tcb && t in s.place
  }

  /** An interrupt that notifies t may use t's event list item: it will not, or the item is in no list. */
  predicate EventItemFree(s: State, t: Task)
    requires t in s.tcb
  {
    s.tcb[t].notify == Waiting && s.suspended > 0 ==> t !in s.waiting
  }

  /** The assertions and documented duties of the callers. A notification from a task is not held to its assertion
      on the event list item, which comes after the lists have been changed. */
  predicate Enabled(s: State, e: Event) {
    match e
    case TickInterrupt | SuspendScheduler | RefreshUnblockTime => true
    case ResumeScheduler => s.suspended > 0
    case Yield => s.suspended > 0 || L(s.lists, Ready(TopPriority(s, s.topReady))).items != []
    case DelayFor(ticks) => Running(s) && BlockTime(ticks)
    case AwaitNotification(ticks) => Running(s) && (ticks == 0 || BlockTime(ticks))
    case CollectNotification | CollectBits => Running(s)
    case WaitOnEvent(_, ticks) => Running(s) && BlockTime(ticks) && s.current !in s.waiting
    case WaitOnBits(_, value, ticks) =>
      Running(s) && IsTick(value) && BlockTime(ticks) && s.current !in s.waiting && s.suspended > 0
    case WaitRestricted(_, ticks, forEver) =>
      Running(s) && (forEver || BlockTime(ticks)) && s.current !in s.waiting && s.suspended > 0
    case SignalEvent(obj) => E(s.events, Object(obj)) != [] && Live(s, E(s.events, Object(obj))[0])
    case SignalBits(t, value) =>
      IsTick(value) && Live(s, t) && t in s.waiting && s.waiting[t].Object? && s.suspended > 0
    case NotifyTask(t) => Live(s, t) && s.place[t] != Termination
    case NotifyTaskFromIsr(t) => Live(s, t) && s.place[t] != Termination && EventItemFree(s, t)
    case CreateTask(t, p) => t !in s.tcb && p < PRIORITIES
    case DeleteTask(t) => Live(s, t) && s.place[t] != Termination && (t == s.current ==> s.suspended == 0)
    case IdleCleanUp =>
      var line := L(s.lists, Termination).items;
      line != [] && line[0] != s.current && Live(s, line[0])
    case Park(t) => Live(s, t) && s.place[t] != Termination && (t == s.current ==> s.suspended == 0)
    case Unpark(_) | UnparkFromIsr(_) => true
    case ChangePriority(t, p) => t in s.tcb && p < PRIORITIES
    case TakeMutex => s.current in s.tcb
    case GiveMutex => s.current in s.tcb && s.tcb[s.current].mutexesHeld > 0
    case LendPriority(t) => t in s.tcb && s.current in s.tcb
    case WithdrawPriority(t, p) => t in s.tcb && p < PRIORITIES
  }

  function Step(s: State, e: Event): State
    requires Enabled(s, e)
  {
    match e
    case TickInterrupt => Tick(s)
    case SuspendScheduler => SuspendAll(s)
    case ResumeScheduler => ResumeAll(s)
    case Yield => SwitchContext(s)
    case DelayFor(ticks) => BlockCurrent(s, ticks, false)
    case AwaitNotification(ticks) => WaitForNotification(s, ticks)
    case CollectNotification => SetNotifyState(s, s.current, NotWaiting)
    case CollectBits => ResetEventValue(s)
    case WaitOnEvent(obj, ticks) => PlaceOnEventList(s, obj, ticks)
    case WaitOnBits(obj, value, ticks) => PlaceOnUnorderedEventList(s, obj, value, ticks)
    case WaitRestricted(obj, ticks, forEver) => PlaceOnEventListRestricted(s, obj, ticks, forEver)
    case SignalEvent(obj) => RemoveFromEventList(s, E(s.events, Object(obj))[0])
    case SignalBits(t, value) => RemoveFromUnorderedEventList(s, t, value)
    case NotifyTask(t) => Notify(s, t)
    case NotifyTaskFromIsr(t) => NotifyFromIsr(s, t)
    case CreateTask(t, p) => Create(s, t, p)
    case DeleteTask(t) => Delete(s, t)
    case IdleCleanUp => CleanUp(s, L(s.lists, Termination).items[0])
    case Park(t) => SuspendTask(s, t)
    case RefreshUnblockTime => ResetNextUnblock(s)
    case Unpark(t) => ResumeTask(s, t)
    case UnparkFromIsr(t) => ResumeFromIsr(s, t)
    case ChangePriority(t, p) => SetPriority(s, t, p)
    case TakeMutex => HoldMutex(s)
    case GiveMutex => Disinherit(s)
    case LendPriority(t) => Inherit(s, t)
    case WithdrawPriority(t, p) => DisinheritAfterTimeout(s, t, p)
  }

  // ---- invariant, one group of entry points at a time -------------------------------------

  /** One task's state list item has moved to list id; nothing else about the containers changed. */
  ghost predicate Moved(s: State, r: State, t: Task, id: ListId) {
    && r.tcb.Keys == s.tcb.Keys && r.place == (s.place - {t})[t := id]
    && r.waiting.Keys <= s.waiting.Keys && (forall u | u in r.waiting :: r.waiting[u] == s.waiting[u])
    && L(r.lists, Termination) == L(s.lists, Termination)
    && r.current == s.current && r.suspended == s.suspended
    && r.tasks == s.tasks && r.cleanups == s.cleanups
  }

  lemma MovedKeeps(s: State, r: State, t: Task, id: ListId)
    requires Inv(s) && Core(r) && t in s.place && id != Termination && Moved(s, r, t, id)
    ensures Inv(r)
  {
    assert r.tcb.Keys == s.tcb.Keys;
    assert |r.tcb| == |r.tcb.Keys| && |s.tcb| == |s.tcb.Keys|;
  }

  lemma ReadiedKeeps(s: State, t: Task)
    requires Inv(s) && t in s.place && s.place[t] != Termination
    ensures Inv(Readied(s, t))
  {
    hide Placed, EventsPlaced, PrioritiesOk;
    TakeOffKeeps(s, t);
    MakeReadyKeeps(TakeOff(s, t), t);
    MovedKeeps(s, Readied(s, t), t, Ready(s.tcb[t].priority));
  }

  lemma DropEventKeepsInv(s: State, t: Task)
    requires Inv(s)
    ensures Inv(DropEvent(s, t))
  {
    DropEventKeeps(s, t);
  }

  lemma PutDelayedKeeps(s: State, id: ListId, wake: nat, nextUnblock: nat)
    requires Inv(s) && (id == s.delayed || id == s.overflow) && s.place[s.current] != Termination
    ensures Inv(PutDelayed(s, id, wake, nextUnblock))
  {
    hide Placed, EventsPlaced, PrioritiesOk;
    var t := s.current;
    TakeOffKeeps(s, t);
    var s1 := WithWake(TakeOff(s, t), t, wake, nextUnblock);
    PutSortedKeeps(s1, id, t);
    MovedKeeps(s, PutSorted(s1, id, t), t, id);
  }

  lemma ParkCurrentKeeps(s: State)
    requires Inv(s) && s.place[s.current] != Termination
    ensures Inv(PutEnd(TakeOff(s, s.current), Suspended, s.current))
  {
    TakeOffKeeps(s, s.current);
    PutEndKeeps(TakeOff(s, s.current), Suspended, s.current);
    MovedKeeps(s, PutEnd(TakeOff(s, s.current), Suspended, s.current), s.current, Suspended);
  }

  lemma BlockCurrentKeeps(s: State, ticks: nat, forEver: bool)
    requires Inv(s) && Running(s)
    ensures Inv(BlockCurrent(s, ticks, forEver))
  {
    hide Inv, PutDelayed, PutEnd, TakeOff;
    var wake := Wrap(s.tick + ticks);
    if ticks == MAX_DELAY && forEver {
      ParkCurrentKeeps(s);
    } else if wake < s.tick {
      PutDelayedKeeps(s, s.overflow, wake, s.nextUnblock);
    } else {
      PutDelayedKeeps(s, s.delayed, wake, if wake < s.nextUnblock then wake else s.nextUnblock);
    }
  }

  lemma UnblockKeeps(s: State, t: Task)
    requires Inv(s) && t in s.place && s.place[t] != Termination && (s.suspended > 0 ==> t !in s.waiting)
    ensures Inv(Unblock(s, t))
  {
    if s.suspended == 0 {
      ReadiedKeeps(s, t);
    } else {
      PutEventEndKeeps(s, Pending, t);
    }
  }

  /** Changes of the plain fields of one control block other than its priorities. */
  lemma TcbFieldKeeps(s: State, r: State, t: Task)
    requires Inv(s) && t in s.tcb
    requires r == s.(tcb := r.tcb, wake := r.wake, nextUnblock := r.nextUnblock, yieldPending := r.yieldPending)
    requires r.tcb.Keys == s.tcb.Keys
    requires forall u | u in s.tcb ::
               r.tcb[u].priority == s.tcb[u].priority && r.tcb[u].basePriority == s.tcb[u].basePriority
    ensures Inv(r)
  {
    assert |r.tcb| == |r.tcb.Keys| && |s.tcb| == |s.tcb.Keys|;
  }

  lemma WaitKeeps(s: State, obj: nat, ticks: nat)
    requires Inv(s) && Running(s) && s.current !in s.waiting
    ensures Inv(PlaceOnEventList(s, obj, ticks))
  {
    PutEventSortedKeeps(s, Object(obj), s.current);
    BlockCurrentKeeps(PutEventSorted(s, Object(obj), s.current), ticks, true);
  }

  lemma WaitUnorderedKeeps(s: State, obj: nat, value: nat, ticks: nat)
    requires Inv(s) && Running(s) && s.current !in s.waiting
    ensures Inv(PlaceOnUnorderedEventList(s, obj, value, ticks))
  {
    hide Placed, EventsPlaced, PrioritiesOk, BlockCurrent;
    var t := s.current;
    var s1 := s.(tcb := s.tcb[t := s.tcb[t].(eventValue := InUse(value))]);
    TcbFieldKeeps(s, s1, t);
    PutEventEndKeeps(s1, Object(obj), t);
    BlockCurrentKeeps(PutEventEnd(s1, Object(obj), t), ticks, true);
  }

  lemma WaitRestrictedKeeps(s: State, obj: nat, ticks: nat, forEver: bool)
    requires Inv(s) && Running(s) && s.current !in s.waiting
    ensures Inv(PlaceOnEventListRestricted(s, obj, ticks, forEver))
  {
    PutEventEndKeeps(s, Object(obj), s.current);
    BlockCurrentKeeps(PutEventEnd(s, Object(obj), s.current), if forEver then MAX_DELAY else ticks, forEver);
  }

  lemma AwaitKeeps(s: State, ticks: nat)
    requires Inv(s) && Running(s)
    ensures Inv(WaitForNotification(s, ticks))
  {
    hide Inv, BlockCurrent;
    var s1 := SetNotifyState(s, s.current, Waiting);
    TcbFieldKeeps(s, s1, s.current);
    if ticks > 0 {
      BlockCurrentKeeps(s1, ticks, true);
    }
  }

  lemma SignalKeeps(s: State, t: Task)
    requires Inv(s) && t in s.waiting
    ensures Inv(RemoveFromEventList(s, t))
  {
    DropEventKeepsInv(s, t);
    UnblockKeeps(DropEvent(s, t), t);
    TcbFieldKeeps(Unblock(DropEvent(s, t), t), RemoveFromEventList(s, t), t);
  }

  lemma SignalBitsKeeps(s: State, t: Task, value: nat)
    requires Inv(s) && t in s.waiting
    ensures Inv(RemoveFromUnorderedEventList(s, t, value))
  {
    var s1 := s.(tcb := s.tcb[t := s.tcb[t].(eventValue := InUse(value))]);
    TcbFieldKeeps(s, s1, t);
    DropEventKeepsInv(s1, t);
    ReadiedKeeps(DropEvent(s1, t), t);
    TcbFieldKeeps(Readied(DropEvent(s1, t), t), RemoveFromUnorderedEventList(s, t, value), t);
  }

  lemma NotifyKeeps(s: State, t: Task)
    requires Inv(s) && Live(s, t) && s.place[t] != Termination
    ensures Inv(Notify(s, t))
  {
    hide Inv, Readied;
    var s1 := SetNotifyState(s, t, Received);
    TcbFieldKeeps(s, s1, t);
    if s.tcb[t].notify == Waiting {
      ReadiedKeeps(s1, t);
    }
  }

  lemma NotifyFromIsrKeeps(s: State, t: Task)
    requires Inv(s) && Live(s, t) && s.place[t] != Termination && EventItemFree(s, t)
    ensures Inv(NotifyFromIsr(s, t))
  {
    hide Inv, Readied, PutEventEnd;
    var s1 := SetNotifyState(s, t, Received);
    TcbFieldKeeps(s, s1, t);
    if s.tcb[t].notify == Waiting {
      UnblockKeeps(s1, t);
      TcbFieldKeeps(Unblock(s1, t), NotifyFromIsr(s, t), t);
    }
  }

  /** Linking an event list item that is in a list already puts the task in a list twice. */
  lemma LinkedTwice(s: State, t: Task)
    requires Inv(s) && t in s.waiting
    ensures !EventsPlaced(PutEventEnd(s, Pending, t).events, PutEventEnd(s, Pending, t).waiting)
  {
    var r := PutEventEnd(s, Pending, t);
    var e, line := s.waiting[t], E(s.events, s.waiting[t]);
    assert t in line;
    if e == Pending {
      var i :| 0 <= i < |line| && line[i] == t;
      assert E(r.events, Pending)[i] == E(r.events, Pending)[|line|] == t;
      assert !NoDup(E(r.events, Pending));
    } else {
      assert t in E(r.events, e) && r.waiting[t] == Pending;
    }
  }

  /** A notification from an interrupt keeps every task in at most one event list exactly when the event list item
      it is about to link is free: not when it wakes a waiting task, the scheduler being suspended, whose item is
      in a list. */
  lemma NotifyFromIsrKeepsWhen(s: State, t: Task)
    requires Inv(s) && Live(s, t) && s.place[t] != Termination
    ensures Inv(NotifyFromIsr(s, t)) <==> EventItemFree(s, t)
  {
    if EventItemFree(s, t) {
      NotifyFromIsrKeeps(s, t);
    } else {
      var s1 := SetNotifyState(s, t, Received);
      TcbFieldKeeps(s, s1, t);
      LinkedTwice(s1, t);
      hide Placed, EventsPlaced, PrioritiesOk;
    }
  }

  // ---- the loops -------------------------------------------------------------------------

  lemma ExpireKeeps(s: State, t: Task)
    requires Inv(s) && t in s.place && s.place[t] != Termination
    ensures Inv(Expire(s, t))
  {
    hide Placed, EventsPlaced, PrioritiesOk;
    TakeOffKeeps(s, t);
    DropEventKeeps(TakeOff(s, t), t);
    MakeReadyKeeps(DropEvent(TakeOff(s, t), t), t);
    MovedKeeps(s, Expire(s, t), t, Ready(s.tcb[t].priority));
  }

  lemma {:induction false} WakeExpiredKeeps(s: State, n: nat)
    requires Inv(s)
    ensures Inv(WakeExpired(s, n))
    decreases n
  {
    if n > 0 && HeadExpired(s) {
      var t := L(s.lists, s.delayed).items[0];
      assert t in L(s.lists, s.delayed).items;
      ExpireKeeps(s, t);
      WakeExpiredKeeps(Expire(s, t), n - 1);
    }
  }

  lemma SwitchDelayedListsKeeps(s: State)
    requires Inv(s)
    ensures Inv(SwitchDelayedLists(s)) && Inv(s.(tick := Wrap(s.tick + 1)))
    ensures Inv(SwitchDelayedLists(s.(tick := Wrap(s.tick + 1))))
  {
    hide Placed, EventsPlaced, PrioritiesOk;
  }

  lemma ProcessTickKeeps(s: State)
    requires Inv(s)
    ensures Inv(ProcessTick(s))
  {
    hide WakeExpired, Inv, SwitchDelayedLists, L, Wrap;
    SwitchDelayedListsKeeps(s);
    var s1 := s.(tick := Wrap(s.tick + 1));
    if s1.tick == 0 {
      var s2 := SwitchDelayedLists(s1);
      WakeExpiredKeeps(s2, |L(s2.lists, s2.delayed).items|);
    } else {
      WakeExpiredKeeps(s1, |L(s1.lists, s1.delayed).items|);
    }
  }

  lemma SwitchLeaves(s: State)
    ensures var r := SwitchDelayedLists(s); r.tcb == s.tcb && r.suspended == s.suspended && r.pended == s.pended
  {
    hide L, WakeOf;
  }

  /** A processed tick changes neither the control blocks nor the counters of suspension. */
  lemma ProcessTickLeaves(s: State)
    ensures var r := ProcessTick(s); r.tcb == s.tcb && r.suspended == s.suspended && r.pended == s.pended
  {
    hide L, Wrap, WakeExpired, WakeOf, SwitchDelayedLists;
    SwitchLeaves(s.(tick := Wrap(s.tick + 1)));
  }

  lemma PendedTickKeeps(s: State)
    requires Inv(s)
    ensures Inv(PendedTick(s))
  {
    hide Inv, ProcessTick, SwitchRequired;
    ProcessTickKeeps(s);
    var r := ProcessTick(s);
    RunningIsLive(r);
    TcbFieldKeeps(r, PendedTick(s), r.current);
  }

  lemma {:induction false} ProcessTicksKeeps(s: State, n: nat)
    requires Inv(s)
    ensures Inv(ProcessTicks(s, n))
    decreases n
  {
    hide Inv, PendedTick;
    if n > 0 {
      PendedTickKeeps(s);
      ProcessTicksKeeps(PendedTick(s), n - 1);
    }
  }

  /** Inside xTaskResumeAll the pending-ready list may be non-empty although the count is already zero. */
  ghost predicate Resuming(s: State) {
    Inv(s.(suspended := s.suspended + 1))
  }

  lemma ReadyPendingIs(s: State, t: Task)
    requires t in s.tcb && t in s.place
    ensures ReadyPending(s, t).(suspended := s.suspended + 1)
         == Readied(DropEvent(s.(suspended := s.suspended + 1), t), t).(yieldPending := ReadyPending(s, t).yieldPending)
  {
  }

  lemma ReadyPendingKeeps(s: State, t: Task)
    requires Resuming(s) && t in s.waiting
    ensures Resuming(ReadyPending(s, t)) && ReadyPending(s, t).suspended == s.suspended
  {
    assert t in s.tcb && t in s.place && s.place[t] != Termination;
    hide Readied, DropEvent, ReadyPending, Core;
    var h := s.(suspended := s.suspended + 1);
    DropEventKeepsInv(h, t);
    ReadiedKeeps(DropEvent(h, t), t);
    ReadyPendingIs(s, t);
    var r := Readied(DropEvent(h, t), t);
    TcbFieldKeeps(r, r.(yieldPending := ReadyPending(s, t).yieldPending), t);
  }

  lemma PendingHead(s: State, t: Task)
    requires Resuming(s) && E(s.events, Pending) != [] && t == E(s.events, Pending)[0]
    ensures t in s.waiting && t in s.tcb && t in s.place
    ensures E(ReadyPending(s, t).events, Pending) == Without(E(s.events, Pending), 0)
  {
    assert t in E(s.events, Pending);
    assert Find(E(s.events, Pending), t) == 0;
  }

  lemma {:induction false} DrainPendingKeeps(s: State, n: nat)
    requires Resuming(s) && n == |E(s.events, Pending)|
    ensures Resuming(DrainPending(s, n)) && E(DrainPending(s, n).events, Pending) == []
    decreases n
  {
    hide Resuming, ReadyPending;
    if n > 0 {
      var t := E(s.events, Pending)[0];
      PendingHead(s, t);
      ReadyPendingKeeps(s, t);
      DrainPendingKeeps(ReadyPending(s, t), n - 1);
    }
  }

  lemma ResetKeeps(s: State)
    requires Inv(s)
    ensures Inv(ResetNextUnblock(s)) && Inv(s.(pended := 0))
  {
    hide Placed, EventsPlaced, PrioritiesOk;
  }

  lemma ReopenKeeps(s: State)
    requires Resuming(s)
    ensures Inv(Reopen(s))
  {
    hide Inv, Resuming, DrainPending, ProcessTicks, ResetNextUnblock;
    var n := |E(s.events, Pending)|;
    DrainPendingKeeps(s, n);
    var s2 := DrainPending(s, n);
    NoPending(s2);
    ResetKeeps(s2);
    var s3 := if n > 0 then ResetNextUnblock(s2) else s2;
    ProcessTicksKeeps(s3, s3.pended);
    ResetKeeps(ProcessTicks(s3, s3.pended));
  }

  lemma StillSuspendedKeeps(s: State)
    requires Inv(s) && s.suspended > 0
    ensures s.suspended > 1 ==> Inv(s.(suspended := s.suspended - 1))
    ensures Resuming(s.(suspended := s.suspended - 1))
  {
    hide Placed, EventsPlaced, PrioritiesOk;
    var r := s.(suspended := s.suspended - 1);
    assert r.(suspended := r.suspended + 1) == s;
  }

  lemma ResumeAllKeeps(s: State)
    requires Inv(s) && s.suspended > 0
    ensures Inv(ResumeAll(s))
  {
    hide Inv, Resuming, Reopen;
    var s1 := s.(suspended := s.suspended - 1);
    StillSuspendedKeeps(s);
    TaskCountPositive(s);
    if s1.suspended == 0 {
      ReopenKeeps(s1);
    }
  }

  lemma TaskCountPositive(s: State)
    requires Inv(s)
    ensures s.tasks > 0
  {
    assert s.current in s.tcb;
  }

  lemma NoPending(s: State)
    requires Resuming(s) && E(s.events, Pending) == []
    ensures Inv(s)
  {
    forall t | t in s.waiting
      ensures s.waiting[t] != Pending
    {
      assert t in E(s.events, s.waiting[t]);
    }
  }

  // ---- selection ---------------------------------------------------------------------------

  /** The search loop finds the highest non-empty ready list at or below p. */
  lemma {:induction false} TopPriorityIsHighest(s: State, p: nat)
    ensures TopPriority(s, p) <= p
    ensures forall q | TopPriority(s, p) < q <= p :: L(s.lists, Ready(q)).items == []
    ensures TopPriority(s, p) == 0 || L(s.lists, Ready(TopPriority(s, p))).items != []
  {
    if p > 0 && L(s.lists, Ready(p)).items == [] {
      TopPriorityIsHighest(s, p - 1);
    }
  }

  /** Turning a ring moves no item. */
  lemma PlacedTurn(lists: map<ListId, Line>, place: map<Task, ListId>, id: ListId)
    requires Placed(lists, place) && id.Ready? && L(lists, id).items != []
    ensures Placed(lists[id := Next(L(lists, id))], place)
  {
    var after := lists[id := Next(L(lists, id))];
    assert forall k {:trigger L(after, k)} :: L(after, k) == if k == id then after[id] else L(lists, k);
  }

  lemma SwitchContextKeeps(s: State)
    requires Inv(s)
    ensures Inv(SwitchContext(s))
  {
    var p := TopPriority(s, s.topReady);
    var line := L(s.lists, Ready(p));
    if s.suspended == 0 && line.items != [] {
      TopPriorityIsHighest(s, s.topReady);
      PlacedTurn(s.lists, s.place, Ready(p));
      forall t | t in s.place && s.place[t].Ready?
        ensures s.place[t].priority <= p
      {
        assert t in L(s.lists, s.place[t]).items;
      }
      assert Picked(Next(line)) in line.items;
      hide Placed, EventsPlaced, Next;
    }
  }

  // ---- creation, deletion, suspension -------------------------------------------------------

  lemma AnnounceKeeps(s: State, t: Task, c: Tcb)
    requires Core(s) && t !in s.tcb && c.priority < PRIORITIES && c.basePriority < PRIORITIES
    ensures Core(s.(tcb := s.tcb[t := c], tasks := s.tasks + 1))
  {
    hide Placed, EventsPlaced;
  }

  lemma MakeReadyElsewhere(s: State, t: Task)
    requires t in s.tcb
    ensures L(MakeReady(s, t).lists, Termination) == L(s.lists, Termination)
  {
  }

  lemma CreateKeeps(s: State, t: Task, priority: nat)
    requires Inv(s) && t !in s.tcb && priority < PRIORITIES
    ensures Inv(Create(s, t, priority))
  {
    hide Core, MakeReady, L;
    var c := Tcb(priority, priority, 0, PRIORITIES - priority, NotWaiting);
    var s1 := s.(tcb := s.tcb[t := c], tasks := s.tasks + 1);
    AnnounceKeeps(s, t, c);
    NotPlaced(s, t);
    MakeReadyKeeps(s1, t);
    MakeReadyElsewhere(s1, t);
    assert s1.tcb.Keys == s.tcb.Keys + {t};
    assert |s1.tcb| == |s1.tcb.Keys| && |s.tcb| == |s.tcb.Keys|;
  }

  lemma NotPlaced(s: State, t: Task)
    requires Inv(s) && t !in s.tcb
    ensures t !in s.place && t !in s.waiting
  {
    hide Placed, EventsPlaced, PrioritiesOk;
  }

  /** A task whose items are in no list can be forgotten. */
  lemma ForgetKeeps(s: State, r: State, t: Task)
    requires Core(s) && t in s.tcb && t !in s.place && t !in s.waiting && t != s.current && s.current in s.tcb
    requires s.place.Keys == s.tcb.Keys - {t} && s.tasks == |s.tcb|
    requires forall u | u in s.waiting && s.waiting[u] == Pending :: s.suspended > 0
    requires forall u | u in s.place && s.place[u] == Termination :: u !in s.waiting
    requires r == s.(tcb := s.tcb - {t}, tasks := s.tasks - 1, cleanups := r.cleanups)
    requires r.cleanups == |L(s.lists, Termination).items|
    ensures Inv(r)
  {
    hide Placed, EventsPlaced;
    assert r.tcb.Keys == s.tcb.Keys - {t};
    assert |r.tcb| == |r.tcb.Keys| && |s.tcb| == |s.tcb.Keys|;
  }

  lemma IsListed(s: State, t: Task)
    requires Core(s) && t in s.place
    ensures t in L(s.lists, s.place[t]).items
  {
  }

  lemma TakeOffElsewhere(s: State, t: Task, id: ListId)
    requires t in s.place && t in L(s.lists, s.place[t]).items
    ensures s.place[t] != id ==> L(TakeOff(s, t).lists, id) == L(s.lists, id)
    ensures |L(TakeOff(s, t).lists, s.place[t]).items| == |L(s.lists, s.place[t]).items| - 1
  {
  }

  lemma DeleteCurrentKeeps(s: State)
    requires Inv(s) && s.place[s.current] != Termination
    ensures Inv(Delete(s, s.current))
  {
    hide Placed, EventsPlaced, PrioritiesOk;
    var t := s.current;
    TakeOffKeeps(s, t);
    DropEventKeeps(TakeOff(s, t), t);
    var s1 := DropEvent(TakeOff(s, t), t);
    PutEndKeeps(s1, Termination, t);
    var r := PutEnd(s1, Termination, t);
    IsListed(s, t);
    TakeOffElsewhere(s, t, Termination);
    assert |L(r.lists, Termination).items| == |L(s.lists, Termination).items| + 1;
  }

  lemma DeleteOtherKeeps(s: State, t: Task)
    requires Inv(s) && t in s.place && s.place[t] != Termination && t != s.current
    ensures Inv(Delete(s, t))
  {
    hide Placed, EventsPlaced, PrioritiesOk, ResetNextUnblock;
    TakeOffKeeps(s, t);
    DropEventKeeps(TakeOff(s, t), t);
    var s1 := DropEvent(TakeOff(s, t), t);
    IsListed(s, t);
    TakeOffElsewhere(s, t, Termination);
    TaskCountPositive(s);
    var r := s1.(tcb := s1.tcb - {t}, tasks := s1.tasks - 1);
    ForgetKeeps(s1, r, t);
    ResetKeeps(r);
  }

  lemma CleanUpKeeps(s: State, t: Task)
    requires Inv(s) && t in s.place && s.place[t] == Termination && t != s.current
    ensures Inv(CleanUp(s, t))
  {
    hide Placed, EventsPlaced, PrioritiesOk;
    TakeOffKeeps(s, t);
    IsListed(s, t);
    TakeOffElsewhere(s, t, Termination);
    TaskCountPositive(s);
    ForgetKeeps(TakeOff(s, t), CleanUp(s, t), t);
  }

  lemma ParkKeeps(s: State, t: Task)
    requires Inv(s) && t in s.place && s.place[t] != Termination
    ensures Inv(PutEnd(DropEvent(TakeOff(s, t), t), Suspended, t))
  {
    hide Placed, EventsPlaced, PrioritiesOk;
    TakeOffKeeps(s, t);
    DropEventKeeps(TakeOff(s, t), t);
    PutEndKeeps(DropEvent(TakeOff(s, t), t), Suspended, t);
    MovedKeeps(s, PutEnd(DropEvent(TakeOff(s, t), t), Suspended, t), t, Suspended);
  }

  lemma SuspendTaskKeeps(s: State, t: Task)
    requires Inv(s) && t in s.place && t in s.tcb && s.place[t] != Termination
    ensures Inv(SuspendTask(s, t))
  {
    hide Inv, TakeOff, DropEvent, PutEnd;
    ParkKeeps(s, t);
    var s1 := PutEnd(DropEvent(TakeOff(s, t), t), Suspended, t);
    if s.tcb[t].notify == Waiting {
      TcbFieldKeeps(s1, SetNotifyState(s1, t, NotWaiting), t);
    }
  }

  lemma ResumeTaskKeeps(s: State, t: Task)
    requires Inv(s)
    ensures Inv(ResumeTask(s, t)) && Inv(ResumeFromIsr(s, t))
  {
    if TaskIsSuspended(s, t) {
      ReadiedKeeps(s, t);
      UnblockKeeps(s, t);
    }
  }

  // ---- priorities ---------------------------------------------------------------------------

  lemma RetuneKeeps(s: State, t: Task, changed: Tcb)
    requires Core(s) && t in s.tcb && changed.priority < PRIORITIES && changed.basePriority < PRIORITIES
    requires t in s.place ==> s.place[t] != Ready(s.tcb[t].priority)
    ensures Core(s.(tcb := s.tcb[t := changed]))
  {
    hide Placed, EventsPlaced;
  }

  lemma RequeueKeeps(s: State, t: Task, changed: Tcb)
    requires Inv(s) && t in s.tcb && changed.priority < PRIORITIES && changed.basePriority < PRIORITIES
    requires s.place[t] == Ready(s.tcb[t].priority)
    ensures Inv(Reprioritise(s, t, changed))
  {
    hide Placed, EventsPlaced, PrioritiesOk;
    TakeOffKeeps(s, t);
    RetuneKeeps(TakeOff(s, t), t, changed);
    var s2 := TakeOff(s, t);
    MakeReadyKeeps(s2.(tcb := s2.tcb[t := changed]), t);
    MovedKeeps(s, Reprioritise(s, t, changed), t, Ready(changed.priority));
  }

  lemma ReprioritiseKeeps(s: State, t: Task, changed: Tcb)
    requires Inv(s) && t in s.tcb && changed.priority < PRIORITIES && changed.basePriority < PRIORITIES
    ensures Inv(Reprioritise(s, t, changed))
  {
    if s.place[t] == Ready(s.tcb[t].priority) {
      RequeueKeeps(s, t, changed);
    } else {
      hide Core;
      RetuneKeeps(s, t, changed);
      var r := Reprioritise(s, t, changed);
      assert r.tcb.Keys == s.tcb.Keys;
      assert |r.tcb| == |r.tcb.Keys| && |s.tcb| == |s.tcb.Keys|;
    }
  }

  lemma ReprioritiseTcb(s: State, t: Task, c: Tcb)
    requires t in s.tcb
    ensures Reprioritise(s, t, c).tcb == s.tcb[t := c]
  {
    hide TakeOff, MakeReady;
  }

  lemma SetPriorityKeeps(s: State, t: Task, priority: nat)
    requires Inv(s) && t in s.tcb && priority < PRIORITIES
    ensures Inv(SetPriority(s, t, priority))
  {
    var c := s.tcb[t];
    assert c.priority < PRIORITIES && c.basePriority < PRIORITIES;
    hide Inv, Reprioritise;
    ReprioritiseKeeps(s, t, c.(priority := if c.basePriority == c.priority then priority else c.priority,
                               basePriority := priority, eventValue := CodedPriority(c, priority)));
  }

  lemma PrioritiesInRange(s: State, t: Task)
    requires Inv(s) && t in s.tcb
    ensures s.tcb[t].priority < PRIORITIES && s.tcb[t].basePriority < PRIORITIES
  {
  }

  lemma WithdrawKeeps(s: State, t: Task, highestWaiting: nat)
    requires Inv(s) && t in s.tcb && highestWaiting < PRIORITIES
    ensures Inv(DisinheritAfterTimeout(s, t, highestWaiting))
  {
    hide Inv, Reprioritise, CodedPriority;
    PrioritiesInRange(s, t);
    ReprioritiseKeeps(s, t, Withdrawn(s.tcb[t], highestWaiting));
  }

  lemma InheritKeeps(s: State, t: Task)
    requires Inv(s) && t in s.tcb && s.current in s.tcb
    ensures Inv(Inherit(s, t))
  {
    hide Inv, Reprioritise, CodedPriority;
    PrioritiesInRange(s, t);
    PrioritiesInRange(s, s.current);
    ReprioritiseKeeps(s, t, Lent(s.tcb[t], s.tcb[s.current].priority));
  }

  lemma DisinheritKeeps(s: State)
    requires Inv(s) && s.current in s.tcb && s.tcb[s.current].mutexesHeld > 0
    ensures Inv(Disinherit(s))
  {
    hide Inv, Reprioritise;
    PrioritiesInRange(s, s.current);
    var c := Returned(s.tcb[s.current]);
    if c.priority != s.tcb[s.current].priority {
      ReprioritiseKeeps(s, s.current, c);
    } else {
      TcbFieldKeeps(s, s.(tcb := s.tcb[s.current := c]), s.current);
    }
  }

  lemma HoldMutexKeeps(s: State)
    requires Inv(s) && s.current in s.tcb
    ensures Inv(HoldMutex(s)) && Inv(SuspendAll(s))
  {
    TcbFieldKeeps(s, HoldMutex(s), s.current);
    hide Core;
  }

  // ---- every entry point --------------------------------------------------------------------

  lemma RunningIsLive(s: State)
    requires Inv(s)
    ensures s.current in s.tcb && s.current in s.place
    ensures Running(s) ==> s.place[s.current] != Termination
  {
    hide Core;
  }

  lemma HeadWaits(s: State, obj: nat)
    requires Inv(s) && E(s.events, Object(obj)) != []
    ensures E(s.events, Object(obj))[0] in s.waiting
  {
    assert E(s.events, Object(obj))[0] in E(s.events, Object(obj));
  }

  lemma BlockingKeepsInv(s: State, e: Event)
    requires Inv(s) && Enabled(s, e)
    requires e.DelayFor? || e.AwaitNotification? || e.CollectNotification? || e.CollectBits?
             || e.WaitOnEvent? || e.WaitOnBits? || e.WaitRestricted?
    ensures Inv(Step(s, e))
  {
    hide Inv, BlockCurrent, WaitForNotification, PlaceOnEventList, PlaceOnUnorderedEventList,
      PlaceOnEventListRestricted;
    match e
    case DelayFor(ticks) => BlockCurrentKeeps(s, ticks, false);
    case AwaitNotification(ticks) => AwaitKeeps(s, ticks);
    case CollectNotification => TcbFieldKeeps(s, SetNotifyState(s, s.current, NotWaiting), s.current);
    case CollectBits => TcbFieldKeeps(s, ResetEventValue(s), s.current);
    case WaitOnEvent(obj, ticks) => WaitKeeps(s, obj, ticks);
    case WaitOnBits(obj, value, ticks) => WaitUnorderedKeeps(s, obj, value, ticks);
    case WaitRestricted(obj, ticks, forEver) => WaitRestrictedKeeps(s, obj, ticks, forEver);
  }

  lemma WakingKeepsInv(s: State, e: Event)
    requires Inv(s) && Enabled(s, e)
    requires e.SignalEvent? || e.SignalBits? || e.NotifyTask? || e.NotifyTaskFromIsr?
    ensures Inv(Step(s, e))
  {
    hide Inv, RemoveFromEventList, RemoveFromUnorderedEventList, Notify, NotifyFromIsr, E;
    match e
    case SignalEvent(obj) =>
      HeadWaits(s, obj);
      SignalKeeps(s, E(s.events, Object(obj))[0]);
    case SignalBits(t, value) => SignalBitsKeeps(s, t, value);
    case NotifyTask(t) => NotifyKeeps(s, t);
    case NotifyTaskFromIsr(t) => NotifyFromIsrKeeps(s, t);
  }

  lemma DeleteKeeps(s: State, t: Task)
    requires Inv(s) && t in s.tcb && t in s.place && s.place[t] != Termination
    ensures Inv(Delete(s, t))
  {
    hide Inv, Delete;
    if t == s.current {
      DeleteCurrentKeeps(s);
    } else {
      DeleteOtherKeeps(s, t);
    }
  }

  lemma CleanUpHeadKeeps(s: State, t: Task)
    requires Inv(s) && t in s.tcb && t in s.place && t != s.current && t in L(s.lists, Termination).items
    ensures Inv(CleanUp(s, t))
  {
    assert s.place[t] == Termination;
    CleanUpKeeps(s, t);
  }

  lemma TaskSetKeepsInv(s: State, e: Event)
    requires Inv(s) && Enabled(s, e) && (e.CreateTask? || e.DeleteTask? || e.IdleCleanUp?)
    ensures Inv(Step(s, e))
  {
    hide Inv, Create, Delete, CleanUp;
    match e
    case CreateTask(t, p) => CreateKeeps(s, t, p);
    case DeleteTask(t) => DeleteKeeps(s, t);
    case IdleCleanUp => CleanUpHeadKeeps(s, L(s.lists, Termination).items[0]);
  }

  lemma ParkingKeepsInv(s: State, e: Event)
    requires Inv(s) && Enabled(s, e) && (e.Park? || e.RefreshUnblockTime? || e.Unpark? || e.UnparkFromIsr?)
    ensures Inv(Step(s, e))
  {
    hide Inv, SuspendTask, ResumeTask, ResumeFromIsr, ResetNextUnblock;
    match e
    case Park(t) => SuspendTaskKeeps(s, t);
    case RefreshUnblockTime => ResetKeeps(s);
    case Unpark(t) => ResumeTaskKeeps(s, t);
    case UnparkFromIsr(t) => ResumeTaskKeeps(s, t);
  }

  lemma PriorityKeepsInv(s: State, e: Event)
    requires Inv(s) && Enabled(s, e)
    requires e.ChangePriority? || e.TakeMutex? || e.GiveMutex? || e.LendPriority? || e.WithdrawPriority?
    ensures Inv(Step(s, e))
  {
    hide Inv, SetPriority, Inherit, Disinherit, DisinheritAfterTimeout, HoldMutex;
    match e
    case ChangePriority(t, p) => SetPriorityKeeps(s, t, p);
    case TakeMutex => HoldMutexKeeps(s);
    case GiveMutex => DisinheritKeeps(s);
    case LendPriority(t) => InheritKeeps(s, t);
    case WithdrawPriority(t, p) => WithdrawKeeps(s, t, p);
  }

  lemma SchedulerKeepsInv(s: State, e: Event)
    requires Inv(s) && Enabled(s, e)
    requires e.TickInterrupt? || e.SuspendScheduler? || e.ResumeScheduler? || e.Yield?
    ensures Inv(Step(s, e))
  {
    RunningIsLive(s);
    hide Inv, ProcessTick, SuspendAll, ResumeAll, SwitchContext;
    match e
    case TickInterrupt =>
      ProcessTickKeeps(s);
      TcbFieldPended(s);
    case SuspendScheduler => HoldMutexKeeps(s);
    case ResumeScheduler => ResumeAllKeeps(s);
    case Yield => SwitchContextKeeps(s);
  }

  lemma StepKeepsInv(s: State, e: Event)
    requires Inv(s) && Enabled(s, e)
    ensures Inv(Step(s, e))
  {
    hide Step, Enabled, Inv;
    match e
    case TickInterrupt | SuspendScheduler | ResumeScheduler | Yield => SchedulerKeepsInv(s, e);
    case CreateTask(_, _) | DeleteTask(_) | IdleCleanUp => TaskSetKeepsInv(s, e);
    case Park(_) | RefreshUnblockTime | Unpark(_) | UnparkFromIsr(_) => ParkingKeepsInv(s, e);
    case ChangePriority(_, _) | TakeMutex | GiveMutex | LendPriority(_) | WithdrawPriority(_, _) =>
      PriorityKeepsInv(s, e);
    case SignalEvent(_) | SignalBits(_, _) | NotifyTask(_) | NotifyTaskFromIsr(_) => WakingKeepsInv(s, e);
    case _ => BlockingKeepsInv(s, e);
  }

  lemma TcbFieldPended(s: State)
    requires Inv(s)
    ensures Inv(s.(pended := s.pended + 1))
  {
    hide Placed, EventsPlaced, PrioritiesOk;
  }

  // ---- runs ---------------------------------------------------------------------------------

  /** The state when the scheduler starts: one created task, everything else empty. */
  function Boot(t: Task, priority: nat): State {
    var c := Tcb(priority, priority, 0, if priority < PRIORITIES then PRIORITIES - priority else 0, NotWaiting);
    State(0, 0, map[t := c], map[Ready(priority) := Ring([t], 0)], map[t := Ready(priority)], map[],
          map[], map[], Delayed1, Delayed2, MAX_DELAY, 0, 0, false, t, priority, 1, 0)
  }

  ghost predicate Allowed(s: State, es: seq<Event>)
    decreases |es|
  {
    es == [] || (Enabled(s, es[0]) && Allowed(Step(s, es[0]), es[1..]))
  }

  ghost function Run(s: State, es: seq<Event>): State
    requires Allowed(s, es)
    decreases |es|
  {
    if es == [] then s else Run(Step(s, es[0]), es[1..])
  }

  lemma BootOk(t: Task, priority: nat)
    requires priority < PRIORITIES
    ensures Inv(Boot(t, priority))
  {
    var s := Boot(t, priority);
    assert s.tcb.Keys == {t};
    assert |s.tcb| == |s.tcb.Keys|;
  }

  lemma {:induction false} RunKeepsInv(s: State, es: seq<Event>)
    requires Inv(s) && Allowed(s, es)
    ensures Inv(Run(s, es))
    decreases |es|
  {
    hide Inv, Step, Enabled;
    if es != [] {
      StepKeepsInv(s, es[0]);
      RunKeepsInv(Step(s, es[0]), es[1..]);
    }
  }

  /** Task placement over whole runs: whatever the tasks and interrupts do, in whatever order. */
  lemma PlacementAlwaysHolds(t: Task, priority: nat, es: seq<Event>)
    requires priority < PRIORITIES && Allowed(Boot(t, priority), es)
    ensures Inv(Run(Boot(t, priority), es))
  {
    BootOk(t, priority);
    RunKeepsInv(Boot(t, priority), es);
  }

  // ---- the assertion that can fail -----------------------------------------------------------

  /** Task 1 waits for ever for a notification; while the scheduler is suspended an interrupt resumes it, as if it
      had been suspended. */
  function ResumedWhileWaiting(): seq<Event> {
    [CreateTask(1, 1), Yield, AwaitNotification(MAX_DELAY), Yield, SuspendScheduler, UnparkFromIsr(1)]
  }

  lemma RunsStep(s: State, e: Event, rest: seq<Event>)
    requires Enabled(s, e) && Allowed(Step(s, e), rest)
    ensures Allowed(s, [e] + rest) && Run(s, [e] + rest) == Run(Step(s, e), rest)
  {
    assert ([e] + rest)[1..] == rest;
    hide Enabled, Step;
  }

  /** Tasks 0 and 1 only, task 1 with an event list item in no list. */
  predicate Pair(s: State, atOne: ListId, ready: seq<Task>, n: NotifyState) {
    && 0 in s.tcb && 1 in s.tcb && 1 in s.place && s.place[1] == atOne && s.tcb[1].notify == n && s.tcb[1].priority == 1
    && L(s.lists, Ready(0)) == Ring([0], if s.current == 0 then 1 else 0) && L(s.lists, Ready(1)).items == ready
    && s.topReady == 1 && s.suspended == 0 && s.events == map[] && s.waiting == map[]
  }

  lemma SecondTaskRuns()
    ensures var s := Step(Boot(0, 0), CreateTask(1, 1));
            && Enabled(Boot(0, 0), CreateTask(1, 1)) && Enabled(s, Yield)
            && Pair(Step(s, Yield), Ready(1), [1], NotWaiting) && Step(s, Yield).current == 1
  {
    var s := Step(Boot(0, 0), CreateTask(1, 1));
    assert L(s.lists, Ready(1)) == Ring([1], 0) && L(s.lists, Ready(0)) == Ring([0], 0);
    assert TopPriority(s, 1) == 1;
  }

  lemma SecondTaskWaits(s: State)
    requires Pair(s, Ready(1), [1], NotWaiting) && s.current == 1
    ensures var r := Step(s, AwaitNotification(MAX_DELAY));
            && Enabled(s, AwaitNotification(MAX_DELAY))
            && Pair(r, Suspended, [], Waiting) && r.current == 1
  {
    assert Find([1], 1) == 0 && Without([1], 0) == [];
  }

  lemma FirstTaskRunsOn(s: State)
    requires Pair(s, Suspended, [], Waiting)
    ensures Enabled(s, Yield)
    ensures var r := Step(s, Yield);
            && Live(r, 1) && r.place[1] == Suspended && r.tcb[1].notify == Waiting
            && r.suspended == 0 && r.events == map[] && r.waiting == map[]
  {
    assert TopPriority(s, 1) == TopPriority(s, 0) == 0;
  }

  lemma SecondTaskIsResumed(s: State)
    requires Live(s, 1) && s.place[1] == Suspended && s.tcb[1].notify == Waiting
    requires s.suspended == 0 && s.events == map[] && s.waiting == map[]
    ensures Enabled(s, SuspendScheduler) && Enabled(Step(s, SuspendScheduler), UnparkFromIsr(1))
    ensures var r := Step(Step(s, SuspendScheduler), UnparkFromIsr(1));
            && Live(r, 1) && r.place[1] == Suspended && !EventItemFree(r, 1)
            && E(NotifyFromIsr(r, 1).events, Pending) == [1, 1]
  {
  }

  /** A notification by an interrupt then meets the assertion that the task's event list item is in no list. Were the
      assertion compiled out, the item would be linked into the pending-ready list a second time. */
  lemma ResumedThenNotified()
    ensures Allowed(Boot(0, 0), ResumedWhileWaiting())
    ensures var r := Run(Boot(0, 0), ResumedWhileWaiting());
            && Inv(r) && Live(r, 1) && r.place[1] != Termination && !EventItemFree(r, 1)
            && E(NotifyFromIsr(r, 1).events, Pending) == [1, 1] && !Inv(NotifyFromIsr(r, 1))
  {
    hide Inv, Step, Enabled, Pair, NotifyFromIsr, EventItemFree, E;
    SecondTaskRuns();
    var s1 := Step(Boot(0, 0), CreateTask(1, 1));
    var s2 := Step(s1, Yield);
    SecondTaskWaits(s2);
    var s3 := Step(s2, AwaitNotification(MAX_DELAY));
    FirstTaskRunsOn(s3);
    var s4 := Step(s3, Yield);
    SecondTaskIsResumed(s4);
    var s5 := Step(s4, SuspendScheduler);
    RunsStep(s5, UnparkFromIsr(1), []);
    RunsStep(s4, SuspendScheduler, [UnparkFromIsr(1)]);
    RunsStep(s3, Yield, [SuspendScheduler, UnparkFromIsr(1)]);
    RunsStep(s2, AwaitNotification(MAX_DELAY), [Yield, SuspendScheduler, UnparkFromIsr(1)]);
    RunsStep(s1, Yield, [AwaitNotification(MAX_DELAY), Yield, SuspendScheduler, UnparkFromIsr(1)]);
    RunsStep(Boot(0, 0), CreateTask(1, 1),
             [Yield, AwaitNotification(MAX_DELAY), Yield, SuspendScheduler, UnparkFromIsr(1)]);
    PlacementAlwaysHolds(0, 0, ResumedWhileWaiting());
    NotifyFromIsrKeepsWhen(Run(Boot(0, 0), ResumedWhileWaiting()), 1);
  }

  // ---- what the invariant says ---------------------------------------------------------------

  function StateList(i: nat): ListId {
    if i < PRIORITIES then Ready(i)
    else if i == PRIORITIES then Delayed1
    else if i == PRIORITIES + 1 then Delayed2
    else if i == PRIORITIES + 2 then Suspended
    else Termination
  }

  /** The ready list of each priority, the two delayed lists, the suspended and the termination list. */
  function StateLists(): seq<ListId> {
    seq(PRIORITIES + 4, i requires i >= 0 => StateList(i))
  }

  function TotalLength(lists: map<ListId, Line>, ids: seq<ListId>): nat {
    if ids == [] then 0 else |L(lists, ids[0]).items| + TotalLength(lists, ids[1..])
  }

  ghost function Elements<T>(s: seq<T>): set<T> {
    set x | x in s
  }

  lemma {:induction false} DistinctMembers<T>(s: seq<T>)
    requires NoDup(s)
    ensures |Elements(s)| == |s|
  {
    if s != [] {
      DistinctMembers(s[1..]);
      assert Elements(s) == Elements(s[1..]) + {s[0]};
    }
  }

  ghost function MembersOf(place: map<Task, ListId>, ids: seq<ListId>): set<Task> {
    set t | t in place && place[t] in ids
  }

  lemma LengthIs(lists: map<ListId, Line>, place: map<Task, ListId>, id: ListId)
    requires Placed(lists, place)
    ensures |L(lists, id).items| == |MembersOf(place, [id])|
  {
    DistinctMembers(L(lists, id).items);
    forall t
      ensures t in MembersOf(place, [id]) <==> t in L(lists, id).items
    {
      if t in place {
        assert t in L(lists, place[t]).items;
      }
    }
    assert MembersOf(place, [id]) == Elements(L(lists, id).items);
  }

  lemma {:induction false} TotalLengthIs(lists: map<ListId, Line>, place: map<Task, ListId>, ids: seq<ListId>)
    requires Placed(lists, place) && NoDup(ids)
    ensures TotalLength(lists, ids) == |MembersOf(place, ids)|
  {
    hide Placed;
    if ids != [] {
      TotalLengthIs(lists, place, ids[1..]);
      LengthIs(lists, place, ids[0]);
      assert MembersOf(place, [ids[0]]) !! MembersOf(place, ids[1..]);
      assert MembersOf(place, ids) == MembersOf(place, [ids[0]]) + MembersOf(place, ids[1..]);
    }
  }

  lemma ListedIds(id: ListId)
    requires id.Ready? ==> id.priority < PRIORITIES
    ensures id in StateLists()
  {
    var i: nat := match id
      case Ready(p) => p
      case Delayed1 => PRIORITIES
      case Delayed2 => PRIORITIES + 1
      case Suspended => PRIORITIES + 2
      case Termination => PRIORITIES + 3;
    assert StateLists()[i] == id;
  }

  lemma EveryTaskListed(s: State, ids: seq<ListId>)
    requires Inv(s) && NoDup(ids) && forall t | t in s.place :: s.place[t] in ids
    ensures TotalLength(s.lists, ids) == s.tasks
  {
    hide Placed, EventsPlaced, PrioritiesOk, TotalLength;
    TotalLengthIs(s.lists, s.place, ids);
    assert MembersOf(s.place, ids) == s.place.Keys;
    assert |s.tcb| == |s.tcb.Keys|;
  }

  /** The lengths of the state lists add up to uxCurrentNumberOfTasks. */
  lemma StateListsHoldEveryTask(s: State)
    requires Inv(s)
    ensures TotalLength(s.lists, StateLists()) == s.tasks
  {
    hide TotalLength;
    forall t | t in s.place
      ensures s.place[t] in StateLists()
    {
      ListedIds(s.place[t]);
    }
    EveryTaskListed(s, StateLists());
  }

  /** vTaskSwitchContext terminates on a task of the highest ready priority; when some task is ready
      it always finds one, and within that priority it takes the front of the rotation. */
  lemma SelectionIsMaximal(s: State, t: Task)
    requires Inv(s) && s.suspended == 0 && t in s.place && s.place[t].Ready?
    ensures var r := SwitchContext(s);
            && Running(r) && r.tcb == s.tcb && r.place == s.place
            && s.tcb[t].priority <= s.tcb[r.current].priority
            && r.current == Rotation(L(s.lists, s.place[r.current]))[0]
            && r.topReady == s.tcb[r.current].priority && !r.yieldPending
            && Rotation(L(r.lists, s.place[r.current])) == Rotation(L(s.lists, s.place[r.current]))[1..] + [r.current]
            && (forall id | id != s.place[r.current] :: L(r.lists, id) == L(s.lists, id))
  {
    hide NoDup, EventsPlaced;
    var p := TopPriority(s, s.topReady);
    var line := L(s.lists, Ready(p));
    TopPriorityIsHighest(s, s.topReady);
    assert t in L(s.lists, s.place[t]).items;
    assert s.place[t].priority <= p;
    assert line.items != [];
    NextRotates(line);
    assert Picked(Next(line)) in line.items;
  }
}

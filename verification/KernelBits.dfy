/** The bits in the event item value: a task that waits for event bits, or is released with some, has them there
    until it takes them. */
module KernelBits {
  import opened Ticks
  import opened KernelState
  import opened KernelPlacement
  import opened KernelSteps

  lemma {:induction false} ProcessTicksTcb(s: State, n: nat)
    ensures ProcessTicks(s, n).tcb == s.tcb
    decreases n
  {
    hide ProcessTick, SwitchRequired;
    if n > 0 {
      ProcessTickLeaves(s);
      ProcessTicksTcb(PendedTick(s), n - 1);
    }
  }

  lemma ResumeAllTcb(s: State)
    requires s.suspended > 0
    ensures ResumeAll(s).tcb == s.tcb
  {
    hide ProcessTicks, DrainPending;
    var s1 := s.(suspended := s.suspended - 1);
    var s2 := DrainPending(s1, |E(s1.events, Pending)|);
    ProcessTicksTcb(s2, s2.pended);
    ProcessTicksTcb(ResetNextUnblock(s2), s2.pended);
  }

  lemma BlockCurrentTcb(s: State, d: nat, forEver: bool)
    requires s.current in s.tcb && s.current in s.place
    ensures BlockCurrent(s, d, forEver).tcb == s.tcb
  {
    hide TakeOff, PutEnd, WithWake, PutSorted, Wrap;
  }

  /** The event overwrites the event item value of t, or takes t away. Of the running task's own calls these are taking
      the bits, waiting for others, and giving a mutex. */
  predicate TakesValue(s: State, e: Event, t: Task) {
    || (t == s.current && (e.CollectBits? || e.WaitOnBits? || e.GiveMutex?))
    || (e.SignalBits? && e.task == t) || (e.DeleteTask? && e.task == t)
    || (e.IdleCleanUp? && t in s.place && s.place[t] == Termination)
  }

  predicate ValueInUse(s: State, t: Task, v: nat) {
    t in s.tcb && s.tcb[t].eventValue == v >= VALUE_IN_USE
  }

  lemma BitsKeptByPriorities(s: State, e: Event, t: Task, v: nat)
    requires Enabled(s, e) && ValueInUse(s, t, v) && !TakesValue(s, e, t)
    requires e.ChangePriority? || e.TakeMutex? || e.GiveMutex? || e.LendPriority? || e.WithdrawPriority?
    ensures ValueInUse(Step(s, e), t, v)
  {
    hide Reprioritise;
    forall u, c | u in s.tcb
      ensures Reprioritise(s, u, c).tcb == s.tcb[u := c]
    {
      ReprioritiseTcb(s, u, c);
    }
  }

  lemma BitsKeptByBlocking(s: State, e: Event, t: Task, v: nat)
    requires Enabled(s, e) && ValueInUse(s, t, v) && !TakesValue(s, e, t)
    requires e.DelayFor? || e.AwaitNotification? || e.CollectNotification? || e.CollectBits?
             || e.WaitOnEvent? || e.WaitOnBits? || e.WaitRestricted?
    ensures ValueInUse(Step(s, e), t, v)
  {
    hide BlockCurrent, PutEventSorted, PutEventEnd;
    forall r: State, d, forEver | r.current in r.tcb && r.current in r.place
      ensures BlockCurrent(r, d, forEver).tcb == r.tcb
    {
      BlockCurrentTcb(r, d, forEver);
    }
  }

  lemma UnblockTcb(s: State, t: Task)
    requires t in s.tcb && t in s.place
    ensures Unblock(s, t).tcb == s.tcb
  {
    hide Readied, PutEventEnd;
  }

  lemma BitsKeptBySignals(s: State, e: Event, t: Task, v: nat)
    requires Enabled(s, e) && ValueInUse(s, t, v) && !TakesValue(s, e, t) && (e.SignalEvent? || e.SignalBits?)
    ensures ValueInUse(Step(s, e), t, v)
  {
    hide DropEvent, Readied, Unblock, Outranks;
    if e.SignalEvent? {
      var u := E(s.events, Object(e.obj))[0];
      UnblockTcb(DropEvent(s, u), u);
    }
    hide E;
  }

  lemma BitsKeptByNotifying(s: State, e: Event, t: Task, v: nat)
    requires Enabled(s, e) && ValueInUse(s, t, v) && (e.NotifyTask? || e.NotifyTaskFromIsr?)
    ensures ValueInUse(Step(s, e), t, v)
  {
    hide Readied, Unblock, Outranks;
    UnblockTcb(SetNotifyState(s, e.task, Received), e.task);
  }

  lemma BitsKeptByTasks(s: State, e: Event, t: Task, v: nat)
    requires Inv(s) && Enabled(s, e) && ValueInUse(s, t, v) && !TakesValue(s, e, t) && (e.CreateTask? || e.IdleCleanUp?)
    ensures ValueInUse(Step(s, e), t, v)
  {
    TerminationHeadPlace(s);
    hide TakeOff, MakeReady, L, Inv;
  }

  lemma BitsKeptByDeletion(s: State, u: Task, t: Task, v: nat)
    requires Enabled(s, DeleteTask(u)) && ValueInUse(s, t, v) && t != u
    ensures ValueInUse(Delete(s, u), t, v)
  {
    hide DropEvent, TakeOff, PutEnd, ResetNextUnblock;
    var s1 := DropEvent(TakeOff(s, u), u);
    ResetTcb(s1.(tcb := s1.tcb - {u}, tasks := if s.tasks > 0 then s.tasks - 1 else 0));
  }

  lemma DeletionKeepsBits(s: State, u: Task, t: Task, v: nat)
    requires Enabled(s, DeleteTask(u)) && ValueInUse(s, t, v) && !TakesValue(s, DeleteTask(u), t)
    ensures ValueInUse(Step(s, DeleteTask(u)), t, v)
  {
    BitsKeptByDeletion(s, u, t, v);
    hide Delete, ValueInUse;
  }

  lemma ResetTcb(s: State)
    ensures ResetNextUnblock(s).tcb == s.tcb
  {
    hide L, WakeOf;
  }

  lemma BitsKeptByParking(s: State, e: Event, t: Task, v: nat)
    requires Enabled(s, e) && ValueInUse(s, t, v) && (e.Park? || e.RefreshUnblockTime? || e.Unpark? || e.UnparkFromIsr?)
    ensures ValueInUse(Step(s, e), t, v)
  {
    hide DropEvent, TakeOff, MakeReady, PutEnd, Readied, PutEventEnd, L, WakeOf, TaskIsSuspended;
  }

  lemma TerminationHeadPlace(s: State)
    requires Inv(s)
    ensures var line := L(s.lists, Termination).items;
            line != [] ==> line[0] in s.place && s.place[line[0]] == Termination
  {
    if L(s.lists, Termination).items != [] {
      assert L(s.lists, Termination).items[0] in L(s.lists, Termination).items;
    }
  }

  lemma BitsKeptByScheduler(s: State, e: Event, t: Task, v: nat)
    requires Enabled(s, e) && ValueInUse(s, t, v)
    requires e.TickInterrupt? || e.SuspendScheduler? || e.ResumeScheduler? || e.Yield?
    ensures ValueInUse(Step(s, e), t, v)
  {
    hide ResumeAll, ProcessTick, TopPriority, L;
    ProcessTickLeaves(s);
    if e.ResumeScheduler? {
      ResumeAllTcb(s);
    }
  }

  /** The bits a task waits for, and those it is released with, stay in its event item value whatever happens to its
      priority or anybody else, and whether the task runs or not: only taking t's bits, or t itself, changes them. */
  lemma BitsAreKept(s: State, e: Event, t: Task, v: nat)
    requires Inv(s) && Enabled(s, e) && ValueInUse(s, t, v) && !TakesValue(s, e, t)
    ensures ValueInUse(Step(s, e), t, v)
  {
    hide Inv, Step, Enabled, TakesValue, ValueInUse;
    match e
    case TickInterrupt | SuspendScheduler | ResumeScheduler | Yield => BitsKeptByScheduler(s, e, t, v);
    case ChangePriority(_, _) | TakeMutex | GiveMutex | LendPriority(_) | WithdrawPriority(_, _) =>
      BitsKeptByPriorities(s, e, t, v);
    case SignalEvent(_) | SignalBits(_, _) => BitsKeptBySignals(s, e, t, v);
    case NotifyTask(_) | NotifyTaskFromIsr(_) => BitsKeptByNotifying(s, e, t, v);
    case DelayFor(_) | AwaitNotification(_) | CollectNotification | CollectBits | WaitOnEvent(_, _)
      | WaitOnBits(_, _, _) | WaitRestricted(_, _, _) =>
      BitsKeptByBlocking(s, e, t, v);
    case CreateTask(_, _) | IdleCleanUp => BitsKeptByTasks(s, e, t, v);
    case DeleteTask(u) => DeletionKeepsBits(s, u, t, v);
    case _ => BitsKeptByParking(s, e, t, v);
  }

  ghost predicate LeavesValue(s: State, es: seq<Event>, t: Task)
    requires Allowed(s, es)
    decreases |es|
  {
    es == [] || (!TakesValue(s, es[0], t) && LeavesValue(Step(s, es[0]), es[1..], t))
  }

  lemma {:induction false} RunKeepsBits(s: State, es: seq<Event>, t: Task, v: nat)
    requires Inv(s) && Allowed(s, es) && LeavesValue(s, es, t) && ValueInUse(s, t, v)
    ensures ValueInUse(Run(s, es), t, v)
    decreases |es|
  {
    hide Inv, Step, Enabled, TakesValue, ValueInUse;
    if es != [] {
      BitsAreKept(s, es[0], t, v);
      StepKeepsInv(s, es[0]);
      RunKeepsBits(Step(s, es[0]), es[1..], t, v);
    }
  }

  /** A task that starts to wait for bits, and one that is released with some, has them in its event item value,
      marked as in use, until they are taken, whatever happens to its priority in between. */
  lemma BitsArrive(s: State, e: Event, es: seq<Event>, value: nat)
    requires Inv(s) && Enabled(s, e) && ((e.WaitOnBits? && e.value == value) || (e.SignalBits? && e.value == value))
    requires var t := if e.WaitOnBits? then s.current else e.task;
             Allowed(Step(s, e), es) && LeavesValue(Step(s, e), es, t)
    ensures var t := if e.WaitOnBits? then s.current else e.task;
            var r := Run(Step(s, e), es);
            t in r.tcb && r.tcb[t].eventValue == InUse(value)
  {
    var t := if e.WaitOnBits? then s.current else e.task;
    BitsStored(s, e, t, value);
    StepKeepsInv(s, e);
    RunKeepsBits(Step(s, e), es, t, InUse(value));
    hide Step, Enabled, Inv, InUse;
  }

  lemma BitsStored(s: State, e: Event, t: Task, value: nat)
    requires Enabled(s, e)
    requires (e.WaitOnBits? && e.value == value && t == s.current) || (e.SignalBits? && e.value == value && t == e.task)
    ensures ValueInUse(Step(s, e), t, InUse(value))
  {
    hide BlockCurrent, PutEventEnd, DropEvent, Readied, Outranks;
    if e.WaitOnBits? {
      var s1 := s.(tcb := s.tcb[t := s.tcb[t].(eventValue := InUse(value))]);
      BlockCurrentTcb(PutEventEnd(s1, Object(e.obj), t), e.ticks, true);
    }
  }
}

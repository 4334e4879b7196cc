/** When the scheduler switches: what a tick, a resumption of the scheduler and a switch change, and exactly when
    they ask for a switch. */
module KernelSwitching {
  import opened Ticks
  import opened Rings
  import opened KernelState
  import opened KernelPlacement
  import opened KernelOrder
  import opened KernelSteps
  import opened KernelTime
  import opened KernelEffects

  /** A switch asked for while the scheduler is suspended is put off; otherwise one is made, and none is pending
      any more. Whom it selects is KernelSteps.SelectionIsMaximal. */
  lemma SwitchEffect(s: State, t: Task)
    requires Inv(s) && t in s.place && s.place[t].Ready?
    ensures var r := SwitchContext(s);
            if s.suspended > 0 then r == s.(yieldPending := true)
            else r == s.(lists := r.lists, current := r.current, topReady := r.topReady, yieldPending := false)
  {
    if s.suspended == 0 {
      SelectionIsMaximal(s, t);
    }
    hide Inv, L, TopPriority, Rotation;
  }

  /** The tasks due by n. */
  function DueBy(due: Dues, n: nat): set<Task> {
    set t | t in due && due[t] <= n
  }

  lemma DueByOneMore(due: Dues, t: Task, n: nat)
    requires t in due && due[t] == n
    ensures DueBy(due, n) == {t} + DueBy(due - {t}, n)
  {
  }

  lemma NoneDueBy(due: Dues, n: nat)
    requires AllFrom(due, n + 1)
    ensures DueBy(due, n) == {}
  {
  }

  lemma ExpireStays(s: State, t: Task)
    requires t in s.tcb && t in s.place
    ensures OrderStays(s, Expire(s, t), {t})
  {
    hide OrderStays, TakeOff, DropEvent, MakeReady, PickedLast;
    var s1 := TakeOff(s, t);
    var s2 := DropEvent(s1, t);
    TakeOffOrder(s, t);
    DropEventOrder(s1, t);
    MakeReadyOrder(s2, t);
    OrderTwice(s, s1, s2, {t});
    OrderTwice(s, s2, Expire(s, t), {t});
  }

  lemma OrderOfTwo(s: State, r: State, q: State, t: Task, more: set<Task>)
    requires OrderStays(s, r, {t}) && OrderStays(r, q, more)
    ensures OrderStays(s, q, {t} + more)
  {
    hide OrderStays;
    OrderOfMore(s, r, {t}, {t} + more);
    OrderOfMore(r, q, more, {t} + more);
    OrderTwice(s, r, q, {t} + more);
  }

  lemma ResetOrder(s: State)
    ensures OrderStays(s, ResetNextUnblock(s), {}) && ResetNextUnblock(s).waiting == s.waiting
  {
    SameOrder(s, ResetNextUnblock(s), {});
    hide OrderStays, L, WakeOf;
  }

  lemma {:induction false} WakeExpiredEffect(s: State, n: nat, now: nat, due: Dues)
    requires Inv(s) && Ticking(s, now, due) && n == |Early(s)|
    ensures var r := WakeExpired(s, n);
            && r.waiting == s.waiting - DueBy(due, now) && OrderStays(s, r, DueBy(due, now))
    decreases n
  {
    hide Inv, Ticking, HeadExpired, Expire, TakeOff, ResetNextUnblock, OrderStays, DueBy;
    if n > 0 {
      HeadExpiredIs(s, now, due);
    }
    if n > 0 && HeadExpired(s) {
      var t := Early(s)[0];
      HeadIsLive(s, now, due);
      ExpireTimed(s, t, now, due);
      ExpireKeeps(s, t);
      ExpireStays(s, t);
      WakeExpiredEffect(Expire(s, t), n - 1, now, due - {t});
      OrderOfTwo(s, Expire(s, t), WakeExpired(s, n), t, DueBy(due - {t}, now));
      DueByOneMore(due, t, now);
    } else {
      NothingElseExpired(s, now, due);
      NoneDueBy(due, now);
      ResetOrder(s);
    }
  }

  lemma AdvancedEffect(s: State, now: nat, due: Dues)
    requires Timed(s, now, due)
    ensures var r := Advanced(s);
            && r.waiting == s.waiting && OrderStays(s, r, {})
            && r == s.(tick := r.tick, overflows := r.overflows, delayed := r.delayed, overflow := r.overflow,
                       nextUnblock := r.nextUnblock)
  {
    SameOrder(s, Advanced(s), {});
    hide Timed, L, WakeOf, OrderStays, Wrap;
  }

  /** A processed tick takes the tasks due at it out of the event lists they waited in, the others keep their order,
      and nothing changes but the count, the lists and xNextTaskUnblockTime. */
  lemma TickEffect(s: State, now: nat, due: Dues)
    requires Inv(s) && Timed(s, now, due)
    ensures var r := ProcessTick(s);
            && Woken(s, r, now + 1, due) && r.waiting == s.waiting - DueBy(due, now + 1)
            && OrderStays(s, r, DueBy(due, now + 1))
            && r == s.(tick := r.tick, overflows := r.overflows, lists := r.lists, place := r.place,
                       topReady := r.topReady, events := r.events, waiting := r.waiting, delayed := r.delayed,
                       overflow := r.overflow, nextUnblock := r.nextUnblock)
  {
    hide Inv, Ticking, Timed, Advanced, WakeExpired, Wrap, Bounded, L, OrderStays, DueBy, Woken, AllFrom;
    ProcessTickTimed(s, now, due);
    AdvancedEffect(s, now, due);
    AdvancedTimed(s, now, due);
    AdvancedKeeps(s);
    var s1 := Advanced(s);
    OrderOfMore(s, s1, {}, DueBy(due, now + 1));
    if s1.tick >= s1.nextUnblock {
      WakeExpiredEffect(s1, |Early(s1)|, now + 1, due);
      OrderTwice(s, s1, ProcessTick(s), DueBy(due, now + 1));
    } else {
      NobodyDueBefore(s1, now + 1, due);
      NoneDueBy(due, now + 1);
    }
  }

  /** Two tasks of the running task's priority are ready. */
  ghost predicate TwoReady(s: State) {
    s.current in s.tcb
    && exists t, u | t in s.place && u in s.place ::
         t != u && s.place[t] == s.place[u] == Ready(s.tcb[s.current].priority)
  }

  lemma TimeSliceMeans(s: State)
    requires Inv(s)
    ensures TimeSliceEnds(s) <==> TwoReady(s)
  {
    var line := L(s.lists, Ready(s.tcb[s.current].priority)).items;
    if |line| > 1 {
      assert line[0] in line && line[1] in line;
      assert line[0] != line[1];
    }
    if TwoReady(s) {
      var t, u :| t in s.place && u in s.place && t != u
                  && s.place[t] == s.place[u] == Ready(s.tcb[s.current].priority);
      assert t in L(s.lists, s.place[t]).items && u in L(s.lists, s.place[u]).items;
    }
  }

  /** A task due by n has at least the running task's priority. */
  ghost predicate UrgentDue(s: State, due: Dues, n: nat) {
    && s.current in s.tcb
    && exists t | t in due && t in s.tcb :: due[t] <= n && s.tcb[t].priority >= s.tcb[s.current].priority
  }

  lemma DueIsDelayed(s: State, now: nat, due: Dues)
    requires Inv(s) && Timed(s, now, due)
    ensures forall t | t in due :: t in s.place && t in s.tcb && !s.place[t].Ready?
  {
    forall t | t in due
      ensures t in s.place && t in s.tcb && !s.place[t].Ready?
    {
      assert t in Early(s) || t in Late(s);
    }
  }

  /** A tick asks for a switch exactly if one was pending, a task of at least the running task's priority is due at it,
      or another task of that priority is ready. */
  lemma TickSwitches(s: State, now: nat, due: Dues)
    requires Inv(s) && Timed(s, now, due) && s.suspended == 0
    ensures var r := ProcessTick(s);
            SwitchRequired(s, r) <==> s.yieldPending || UrgentDue(s, due, now + 1) || TwoReady(r)
  {
    hide Inv, Timed, ProcessTick, TwoReady, OrderStays, DueBy;
    var r := ProcessTick(s);
    TickEffect(s, now, due);
    ProcessTickKeeps(s);
    TimeSliceMeans(r);
    DueIsDelayed(s, now, due);
    PreemptsMeans(s, r, now + 1, due);
    hide Preempts, UrgentDue, TimeSliceEnds;
  }

  lemma PreemptsMeans(s: State, r: State, n: nat, due: Dues)
    requires Woken(s, r, n, due) && forall t | t in due :: t in s.place && t in s.tcb && !s.place[t].Ready?
    ensures Preempts(s, r) <==> UrgentDue(s, due, n)
  {
    if UrgentDue(s, due, n) {
      var t :| t in due && t in s.tcb && due[t] <= n && s.tcb[t].priority >= s.tcb[s.current].priority;
      assert r.place[t] != s.place[t];
    }
  }

  lemma {:induction false} ProcessTicksSwitch(s: State, n: nat, now: nat, due: Dues)
    requires Inv(s) && Timed(s, now, due) && s.suspended == 0 && n > 0
    ensures var r := ProcessTicks(s, n);
            && r.current == s.current && r.tcb == s.tcb
            && (r.yieldPending <==> s.yieldPending || UrgentDue(s, due, now + n) || TwoReady(r))
    decreases n
  {
    hide Inv, Timed, ProcessTick, SwitchRequired, TwoReady, UrgentDue, OrderStays, DueBy, Woken, After;
    var s1 := PendedTick(s);
    PendedTickSwitches(s, now, due);
    PendedTickKeeps(s);
    PendedTickTimed(s, now, due);
    if n > 1 {
      var r := ProcessTicks(s, n);
      ProcessTicksSwitch(s1, n - 1, now + 1, After(due, now + 1));
      UrgentLater(s, s1, due, now + 1, now + n);
      ProcessTicksTimed(s1, n - 1, now + 1, After(due, now + 1));
      DueIsDelayed(s1, now + 1, After(due, now + 1));
      TwoStayReady(s1, r, now + n, After(due, now + 1));
    }
  }

  lemma PendedTickSwitches(s: State, now: nat, due: Dues)
    requires Inv(s) && Timed(s, now, due) && s.suspended == 0
    ensures var r := PendedTick(s);
            && r.current == s.current && r.tcb == s.tcb && r.suspended == 0
            && (r.yieldPending <==> s.yieldPending || UrgentDue(s, due, now + 1) || TwoReady(r))
  {
    hide Inv, Timed, ProcessTick, SwitchRequired, UrgentDue, OrderStays, DueBy, Woken;
    TickEffect(s, now, due);
    TickSwitches(s, now, due);
  }

  lemma UrgentLater(s: State, r: State, due: Dues, m: nat, n: nat)
    requires m <= n && r.current == s.current && r.tcb == s.tcb
    ensures UrgentDue(s, due, n) <==> UrgentDue(s, due, m) || UrgentDue(r, After(due, m), n)
  {
    if UrgentDue(s, due, n) {
      var t :| t in due && t in s.tcb && due[t] <= n && s.tcb[t].priority >= s.tcb[s.current].priority;
      assert due[t] > m ==> t in After(due, m);
    }
  }

  lemma TwoStayReady(s: State, r: State, n: nat, due: Dues)
    requires Woken(s, r, n, due) && r.current == s.current
    requires forall t | t in due :: t in s.place && t in s.tcb && !s.place[t].Ready?
    ensures TwoReady(s) ==> TwoReady(r)
  {
    if TwoReady(s) {
      var t, u :| t in s.place && u in s.place && t != u
                  && s.place[t] == s.place[u] == Ready(s.tcb[s.current].priority);
      assert r.place[t] == s.place[t] && r.place[u] == s.place[u];
    }
  }

  /** A task of the set has at least the running task's priority. */
  ghost predicate UrgentAmong(s: State, ts: set<Task>) {
    s.current in s.tcb && exists t | t in ts && t in s.tcb :: s.tcb[t].priority >= s.tcb[s.current].priority
  }

  lemma ReadyPendingStays(s: State, t: Task)
    requires t in s.tcb && t in s.place && s.current in s.tcb
    ensures var r := ReadyPending(s, t);
            && OrderStays(s, r, {t}) && r.tcb == s.tcb && r.current == s.current
            && (r.yieldPending <==> s.yieldPending || s.tcb[t].priority >= s.tcb[s.current].priority)
  {
    hide OrderStays, DropEvent, Readied, SameElsewhere, PickedLast;
    var s1 := DropEvent(s, t);
    DropEventOrder(s, t);
    ReadiedStays(s1, t);
    OrderTwice(s, s1, Readied(s1, t), {t});
    SameOrder(Readied(s1, t), ReadyPending(s, t), {t});
    OrderTwice(s, Readied(s1, t), ReadyPending(s, t), {t});
  }

  /** Emptying the pending-ready list takes its tasks, and no others, out of the event lists, the others keep their
      order, and a yield is pending if one was or a task of at least the running task's priority was pending. */
  lemma {:induction false} DrainEffect(s: State, n: nat)
    requires Resuming(s) && n == |E(s.events, Pending)| && s.current in s.tcb
    ensures var r := DrainPending(s, n);
            && r.waiting == s.waiting - PendingTasks(s) && OrderStays(s, r, PendingTasks(s))
            && (r.yieldPending <==> s.yieldPending || UrgentAmong(s, PendingTasks(s)))
    decreases n
  {
    hide Resuming, Core, OrderStays, ReadyPending, PendingTasks, UrgentAmong;
    if n > 0 {
      var t := E(s.events, Pending)[0];
      PendingHeadTimed(s);
      ReadyPendingKeeps(s, t);
      ReadyPendingStays(s, t);
      var s1 := ReadyPending(s, t);
      DrainEffect(s1, n - 1);
      OrderOfTwo(s, s1, DrainPending(s, n), t, PendingTasks(s1));
      UrgentOneMore(s, s1, t, PendingTasks(s1));
    } else {
      NothingPending(s, map[]);
      SameOrder(s, s, {});
      NoneUrgent(s);
    }
  }

  lemma UrgentOneMore(s: State, r: State, t: Task, ts: set<Task>)
    requires r.tcb == s.tcb && r.current == s.current && t in s.tcb && s.current in s.tcb
    ensures UrgentAmong(s, {t} + ts) <==> s.tcb[t].priority >= s.tcb[s.current].priority || UrgentAmong(r, ts)
  {
  }

  lemma NoneUrgent(s: State)
    ensures !UrgentAmong(s, {})
  {
  }

  /** After the outermost resumption a yield is pending exactly if one was, or a pending task, or one that fell due
      meanwhile, has at least the running task's priority, or ticks were pended and another task of that priority
      is ready. An inner resumption only lowers the count. */
  lemma ResumptionYields(s: State, now: nat, due: Dues)
    requires Inv(s) && s.suspended > 0 && Timed(s, now, due)
    ensures var r := ResumeAll(s);
            if s.suspended > 1 then r == s.(suspended := s.suspended - 1)
            else r.yieldPending <==>
                   || s.yieldPending || UrgentAmong(s, PendingTasks(s))
                   || (s.pended > 0 && (UrgentDue(s, due - PendingTasks(s), now + s.pended) || TwoReady(r)))
  {
    hide Inv, Timed, UrgentAmong, ProcessTicks, PendingTasks, TwoReady, UrgentDue, Drained;
    TaskCountPositive(s);
    if s.suspended == 1 {
      ResumptionDrains(s, now, due);
      ResumptionIs(s);
      var s3 := Drained(s);
      if s.pended > 0 {
        ProcessTicksSwitch(s3, s.pended, now, due - PendingTasks(s));
        var r := ProcessTicks(s3, s.pended);
        PlacesOnly(r, r.(pended := 0));
        UrgentSame(s, s3, due - PendingTasks(s), now + s.pended);
      } else {
        NoTicks(s3);
      }
    }
    hide ResumeAll;
  }

  lemma ResumptionIs(s: State)
    requires s.suspended == 1 && s.tasks > 0
    ensures ResumeAll(s) == ProcessTicks(Drained(s), Drained(s).pended).(pended := 0)
  {
    hide DrainPending, ProcessTicks, ResetNextUnblock;
  }

  lemma NoTicks(s: State)
    ensures ProcessTicks(s, 0) == s
  {
  }

  lemma PlacesOnly(s: State, r: State)
    requires r.place == s.place && r.tcb == s.tcb && r.current == s.current
    ensures TwoReady(r) <==> TwoReady(s)
  {
  }

  lemma UrgentSame(s: State, r: State, due: Dues, n: nat)
    requires r.tcb == s.tcb && r.current == s.current
    ensures UrgentDue(r, due, n) <==> UrgentDue(s, due, n)
  {
  }

  function Drained(s: State): State {
    var s1 := s.(suspended := 0);
    var n := |E(s1.events, Pending)|;
    if n > 0 then ResetNextUnblock(DrainPending(s1, n)) else DrainPending(s1, n)
  }

  lemma ResumptionDrains(s: State, now: nat, due: Dues)
    requires Inv(s) && s.suspended == 1 && Timed(s, now, due)
    ensures var r := Drained(s);
            && Inv(r) && Timed(r, now, due - PendingTasks(s)) && r.suspended == 0 && r.pended == s.pended
            && r.tcb == s.tcb && r.current == s.current
            && (r.yieldPending <==> s.yieldPending || UrgentAmong(s, PendingTasks(s)))
  {
    hide Inv, Timed, DrainPending, PendingTasks, Released, OrderStays, L, WakeOf;
    RunningIsLive(s);
    ResumeDrains(s, now, due);
    StillSuspendedKeeps(s);
    DrainEffect(s.(suspended := 0), |E(s.events, Pending)|);
    SuspendedAside(s, now, due, 0);
  }
}

/** The tick count against true time. Beside the 32-bit counter run an unbounded count of processed ticks
    and, for every sleeping task, its true wake time; each entry point is proved to do to the two
    delayed lists exactly what it does to those. */
module KernelTime {
  import opened Ticks
  import opened Rings
  import opened KernelState
  import opened KernelPlacement
  import opened KernelSteps

  type Dues = map<Task, nat>

  /** The two delayed lists hold exactly the tasks with a due time: the first those due in this epoch of
      the counter, the second those due in the next, each in the order of its 32-bit wake times. */
  ghost predicate Schedule(early: seq<Task>, late: seq<Task>, wake: map<Task, nat>, epoch: nat, due: Dues) {
    && (forall t :: t in due <==> t in early || t in late)
    && (forall t | t in due :: WakeOf(wake, t) == Wrap(due[t]))
    && (forall t | t in early :: Epoch(due[t]) == epoch)
    && (forall t | t in late :: Epoch(due[t]) == epoch + 1)
    && Sorted(Wakes(early, wake)) && Sorted(Wakes(late, wake))
  }

  ghost predicate Bounded(early: seq<Task>, wake: map<Task, nat>, nextUnblock: nat) {
    forall t | t in early :: nextUnblock <= WakeOf(wake, t)
  }

  ghost predicate AllFrom(due: Dues, floor: nat) {
    forall t | t in due :: due[t] >= floor
  }

  function Early(s: State): seq<Task> {
    L(s.lists, s.delayed).items
  }

  function Late(s: State): seq<Task> {
    L(s.lists, s.overflow).items
  }

  /** The counters and lists, with due times that may include the current tick. */
  ghost predicate Ticking(s: State, now: nat, due: Dues) {
    && s.tick == Wrap(now) && s.overflows == Epoch(now)
    && Schedule(Early(s), Late(s), s.wake, Epoch(now), due) && AllFrom(due, now)
  }

  /** What holds between critical sections: every sleeping task is due later than now, and
      xNextTaskUnblockTime is at most every wake time in the current delayed list. */
  ghost predicate Timed(s: State, now: nat, due: Dues) {
    && Ticking(s, now, due) && AllFrom(due, now + 1)
    && Bounded(Early(s), s.wake, s.nextUnblock)
  }

  // ---- the two lists ------------------------------------------------------------------------

  lemma WakesWithout(line: seq<Task>, wake: map<Task, nat>, p: nat)
    requires p < |line|
    ensures Sorted(Wakes(line, wake)) ==> Sorted(Wakes(Without(line, p), wake))
  {
    assert Wakes(Without(line, p), wake) == Without(Wakes(line, wake), p);
  }

  lemma ScheduleTake(early: seq<Task>, late: seq<Task>, wake: map<Task, nat>, epoch: nat, due: Dues, t: Task)
    requires Schedule(early, late, wake, epoch, due) && NoDup(early) && NoDup(late)
    ensures t in early ==> Schedule(Without(early, Find(early, t)), late, wake, epoch, due - {t})
    ensures t in late ==> Schedule(early, Without(late, Find(late, t)), wake, epoch, due - {t})
    ensures t !in early && t !in late ==> due - {t} == due
  {
    if t in early {
      WithoutMembers(early, Find(early, t));
      WakesWithout(early, wake, Find(early, t));
    } else if t in late {
      WithoutMembers(late, Find(late, t));
      WakesWithout(late, wake, Find(late, t));
    }
  }

  lemma WakesInsert(line: seq<Task>, wake: map<Task, nat>, t: Task)
    requires t !in line && Sorted(Wakes(line, wake)) && t in wake
    ensures Sorted(Wakes(Insert(line, FirstAbove(Wakes(line, wake), wake[t]), t), wake))
  {
    var p := FirstAbove(Wakes(line, wake), wake[t]);
    SortedInsertion(Wakes(line, wake), wake[t]);
    assert Wakes(Insert(line, p, t), wake) == Insert(Wakes(line, wake), p, wake[t]);
  }

  lemma WakesElsewhere(line: seq<Task>, wake: map<Task, nat>, t: Task, w: nat)
    requires t !in line
    ensures Wakes(line, wake[t := w]) == Wakes(line, wake)
  {
  }

  lemma SchedulePutEarly(early: seq<Task>, late: seq<Task>, wake: map<Task, nat>, epoch: nat, due: Dues, t: Task,
                         d: nat)
    requires Schedule(early, late, wake, epoch, due) && t !in due && Epoch(d) == epoch
    ensures var w := wake[t := Wrap(d)];
            Schedule(Insert(early, FirstAbove(Wakes(early, w), Wrap(d)), t), late, w, epoch, due[t := d])
  {
    var w := wake[t := Wrap(d)];
    WakesElsewhere(early, wake, t, Wrap(d));
    WakesElsewhere(late, wake, t, Wrap(d));
    InsertMembers(early, FirstAbove(Wakes(early, w), Wrap(d)), t);
    WakesInsert(early, w, t);
  }

  lemma SchedulePutLate(early: seq<Task>, late: seq<Task>, wake: map<Task, nat>, epoch: nat, due: Dues, t: Task, d: nat)
    requires Schedule(early, late, wake, epoch, due) && t !in due && Epoch(d) == epoch + 1
    ensures var w := wake[t := Wrap(d)];
            Schedule(early, Insert(late, FirstAbove(Wakes(late, w), Wrap(d)), t), w, epoch, due[t := d])
  {
    var w := wake[t := Wrap(d)];
    WakesElsewhere(early, wake, t, Wrap(d));
    WakesElsewhere(late, wake, t, Wrap(d));
    InsertMembers(late, FirstAbove(Wakes(late, w), Wrap(d)), t);
    WakesInsert(late, w, t);
  }

  /** When the counter wraps, nothing is left in the current delayed list, so the assertion in
      taskSWITCH_DELAYED_LISTS never fires and the lists can change roles. */
  lemma EarlyEmptyAtWrap(early: seq<Task>, late: seq<Task>, wake: map<Task, nat>, now: nat, due: Dues)
    requires Schedule(early, late, wake, Epoch(now), due) && AllFrom(due, now + 1) && Wrap(now + 1) == 0
    ensures early == [] && Epoch(now + 1) == Epoch(now) + 1
    ensures Schedule(late, [], wake, Epoch(now + 1), due)
  {
    WrapEpoch(now);
    WrapEpoch(now + 1);
    forall t | t in due
      ensures Epoch(due[t]) > Epoch(now)
    {
      WrapEpoch(due[t]);
    }
    HeadIsMember(early);
  }

  lemma HeadIsMember(line: seq<Task>)
    ensures line != [] ==> line[0] in line
  {
  }

  /** The head of a sorted list has the smallest wake time. */
  lemma HeadIsLeast(line: seq<Task>, wake: map<Task, nat>)
    requires Sorted(Wakes(line, wake)) && line != []
    ensures Bounded(line, wake, WakeOf(wake, line[0]))
  {
    forall t | t in line
      ensures WakeOf(wake, line[0]) <= WakeOf(wake, t)
    {
      var i :| 0 <= i < |line| && line[i] == t;
      assert Wakes(line, wake)[0] <= Wakes(line, wake)[i];
    }
  }

  // ---- the list operations ------------------------------------------------------------------

  lemma TakeOffTimed(s: State, t: Task, now: nat, due: Dues)
    requires Core(s) && t in s.place && Ticking(s, now, due)
    ensures Ticking(TakeOff(s, t), now, due - {t})
    ensures Bounded(Early(s), s.wake, s.nextUnblock) ==> Bounded(Early(TakeOff(s, t)), s.wake, s.nextUnblock)
    ensures t !in due ==> Early(TakeOff(s, t)) == Early(s) && Late(TakeOff(s, t)) == Late(s)
  {
    assert t in L(s.lists, s.place[t]).items;
    ScheduleTake(Early(s), Late(s), s.wake, Epoch(now), due, t);
    if t in Early(s) {
      WithoutMembers(Early(s), Find(Early(s), t));
    }
    hide Schedule, Placed, EventsPlaced, PrioritiesOk;
  }

  /** Nothing that the passage of time depends on has changed. */
  ghost predicate SameTimes(s: State, r: State) {
    && r.tick == s.tick && r.overflows == s.overflows && r.wake == s.wake && r.nextUnblock == s.nextUnblock
    && Early(r) == Early(s) && Late(r) == Late(s)
  }

  lemma SameTimesTimed(s: State, r: State, now: nat, due: Dues)
    requires SameTimes(s, r)
    ensures Ticking(s, now, due) ==> Ticking(r, now, due)
    ensures Timed(s, now, due) ==> Timed(r, now, due)
  {
    hide Schedule, Wrap, Epoch, L;
  }

  lemma PutEndTimed(s: State, id: ListId, t: Task, now: nat, due: Dues)
    requires DelayedIds(s) && id != Delayed1 && id != Delayed2
    ensures SameTimes(s, PutEnd(s, id, t))
    ensures Timed(s, now, due) ==> Timed(PutEnd(s, id, t), now, due)
  {
    SameTimesTimed(s, PutEnd(s, id, t), now, due);
  }

  lemma MakeReadyTimed(s: State, t: Task, now: nat, due: Dues)
    requires DelayedIds(s) && t in s.tcb
    ensures SameTimes(s, MakeReady(s, t))
    ensures Ticking(s, now, due) ==> Ticking(MakeReady(s, t), now, due)
    ensures Timed(s, now, due) ==> Timed(MakeReady(s, t), now, due)
  {
    SameTimesTimed(s, MakeReady(s, t), now, due);
  }

  lemma ReadiedTimed(s: State, t: Task, now: nat, due: Dues)
    requires Core(s) && t in s.tcb && t in s.place && Timed(s, now, due)
    ensures Timed(Readied(s, t), now, due - {t})
  {
    TakeOffTimed(s, t, now, due);
    MakeReadyTimed(TakeOff(s, t), t, now, due - {t});
    hide Ticking, Core, TakeOff, MakeReady;
  }

  lemma UnblockTimed(s: State, t: Task, now: nat, due: Dues)
    requires Core(s) && t in s.tcb && t in s.place && Timed(s, now, due)
    ensures Timed(Unblock(s, t), now, if s.suspended == 0 then due - {t} else due)
  {
    if s.suspended == 0 {
      ReadiedTimed(s, t, now, due);
    } else {
      SameTimesTimed(s, Unblock(s, t), now, due);
    }
  }

  lemma ParkTimed(s: State, t: Task, now: nat, due: Dues)
    requires Core(s) && t in s.place && Timed(s, now, due)
    ensures Timed(TakeOff(s, t), now, due - {t})
    ensures Timed(DropEvent(TakeOff(s, t), t), now, due - {t})
    ensures Timed(PutEnd(TakeOff(s, t), Suspended, t), now, due - {t})
    ensures Timed(PutEnd(DropEvent(TakeOff(s, t), t), Suspended, t), now, due - {t})
  {
    TakeOffTimed(s, t, now, due);
    var s1 := TakeOff(s, t);
    SameTimesTimed(s1, DropEvent(s1, t), now, due - {t});
    PutEndTimed(s1, Suspended, t, now, due - {t});
    PutEndTimed(DropEvent(s1, t), Suspended, t, now, due - {t});
    hide Ticking, Core, TakeOff, PutEnd, DropEvent;
  }

  // ---- blocking -----------------------------------------------------------------------------

  lemma PutSortedLists(s: State, id: ListId, t: Task)
    ensures L(PutSorted(s, id, t).lists, id).items
         == Insert(L(s.lists, id).items, FirstAbove(Wakes(L(s.lists, id).items, s.wake), WakeOf(s.wake, t)), t)
    ensures forall k | k != id :: L(PutSorted(s, id, t).lists, k) == L(s.lists, k)
  {
  }

  lemma BoundedInsert(early: seq<Task>, wake: map<Task, nat>, t: Task, w: nat, p: nat, bound: nat, newBound: nat)
    requires Bounded(early, wake, bound) && t !in early && p <= |early| && newBound <= bound && newBound <= w
    ensures Bounded(Insert(early, p, t), wake[t := w], newBound)
  {
    InsertMembers(early, p, t);
  }

  lemma PutEarlyTimed(s: State, t: Task, due: nat, nextUnblock: nat, now: nat, dues: Dues)
    requires DelayedIds(s) && Timed(s, now, dues) && t !in dues && due > now && Epoch(due) == Epoch(now)
    requires nextUnblock <= s.nextUnblock && nextUnblock <= Wrap(due)
    ensures Timed(PutSorted(WithWake(s, t, Wrap(due), nextUnblock), s.delayed, t), now, dues[t := due])
  {
    hide Schedule, Wrap, Epoch, PutSorted, L, Wakes, Insert, FirstAbove, Bounded;
    var s1 := WithWake(s, t, Wrap(due), nextUnblock);
    NotDueIsNotListed(s, now, dues, t);
    SchedulePutEarly(Early(s), Late(s), s.wake, Epoch(now), dues, t, due);
    BoundedInsert(Early(s), s.wake, t, Wrap(due), FirstAbove(Wakes(Early(s), s1.wake), Wrap(due)), s.nextUnblock,
                  nextUnblock);
    PutSortedLists(s1, s.delayed, t);
  }

  lemma NotDueIsNotListed(s: State, now: nat, due: Dues, t: Task)
    requires Timed(s, now, due) && t !in due
    ensures t !in Early(s) && t !in Late(s)
  {
  }

  lemma BoundedElsewhere(early: seq<Task>, wake: map<Task, nat>, t: Task, w: nat, bound: nat)
    requires Bounded(early, wake, bound) && t !in early
    ensures Bounded(early, wake[t := w], bound)
  {
  }

  lemma PutLateTimed(s: State, t: Task, due: nat, now: nat, dues: Dues)
    requires DelayedIds(s) && Timed(s, now, dues) && t !in dues && due > now && Epoch(due) == Epoch(now) + 1
    ensures Timed(PutSorted(WithWake(s, t, Wrap(due), s.nextUnblock), s.overflow, t), now, dues[t := due])
  {
    hide Schedule, Wrap, Epoch, PutSorted, L, Wakes, Insert, FirstAbove, Bounded;
    NotDueIsNotListed(s, now, dues, t);
    SchedulePutLate(Early(s), Late(s), s.wake, Epoch(now), dues, t, due);
    BoundedElsewhere(Early(s), s.wake, t, Wrap(due), s.nextUnblock);
    PutSortedLists(WithWake(s, t, Wrap(due), s.nextUnblock), s.overflow, t);
  }

  lemma ReadyIsNotDue(s: State, t: Task, now: nat, due: Dues)
    requires Core(s) && Timed(s, now, due) && t in s.place && s.place[t] != s.delayed && s.place[t] != s.overflow
    ensures t !in due && due - {t} == due
  {
    assert t in L(s.lists, s.place[t]).items;
  }

  lemma WakeTickIs(s: State, d: nat, now: nat, due: Dues)
    requires Timed(s, now, due) && BlockTime(d)
    ensures s.tick == Wrap(now) && Wrap(s.tick + d) == Wrap(now + d)
    ensures Epoch(now + d) == if Wrap(now + d) < s.tick then Epoch(now) + 1 else Epoch(now)
  {
    hide Schedule;
    WrapCrossing(now, d);
  }

  lemma LeaveReadyTimed(s: State, now: nat, due: Dues)
    requires Core(s) && Running(s) && Timed(s, now, due)
    ensures s.current !in due && due - {s.current} == due
    ensures DelayedIds(TakeOff(s, s.current)) && Timed(TakeOff(s, s.current), now, due)
    ensures Timed(PutEnd(TakeOff(s, s.current), Suspended, s.current), now, due)
  {
    ReadyIsNotDue(s, s.current, now, due);
    ParkTimed(s, s.current, now, due);
  }

  lemma PutDelayedTimed(s: State, d: nat, now: nat, due: Dues)
    requires Core(s) && Running(s) && Timed(s, now, due) && BlockTime(d)
    ensures var w := Wrap(now + d);
            if w < s.tick then Timed(PutDelayed(s, s.overflow, w, s.nextUnblock), now, due[s.current := now + d])
            else Timed(PutDelayed(s, s.delayed, w, if w < s.nextUnblock then w else s.nextUnblock), now,
                       due[s.current := now + d])
  {
    hide Timed, Core, TakeOff, WithWake, PutSorted, Wrap, Epoch;
    LeaveReadyTimed(s, now, due);
    WakeTickIs(s, d, now, due);
    var s1 := TakeOff(s, s.current);
    var w := Wrap(now + d);
    if w < s.tick {
      PutLateTimed(s1, s.current, now + d, now, due);
    } else {
      PutEarlyTimed(s1, s.current, now + d, if w < s.nextUnblock then w else s.nextUnblock, now, due);
    }
  }

  /** A finite block of d ticks makes the task due exactly d ticks from now, whether or not the counter
      wraps in between, and the task goes to the list of the right epoch. */
  lemma BlockCurrentTimed(s: State, d: nat, forEver: bool, now: nat, due: Dues)
    requires Core(s) && Running(s) && Timed(s, now, due) && BlockTime(d)
    ensures Timed(BlockCurrent(s, d, forEver), now,
                  if d == MAX_DELAY && forEver then due else due[s.current := now + d])
  {
    hide Timed, Core, PutDelayed, TakeOff, PutEnd, Wrap, Epoch;
    LeaveReadyTimed(s, now, due);
    WakeTickIs(s, d, now, due);
    PutDelayedTimed(s, d, now, due);
  }

  // ---- the tick -----------------------------------------------------------------------------

  /** The due times later than n. */
  function After(due: Dues, n: nat): Dues {
    map t | t in due && due[t] > n :: due[t]
  }

  /** Exactly the tasks due by now are in the ready list of their priority; every other task is where it was. */
  ghost predicate Woken(s: State, r: State, now: nat, due: Dues) {
    && r.tcb == s.tcb && r.place.Keys == s.place.Keys
    && forall t | t in s.place :: r.place[t] ==
         if t in due && due[t] <= now && t in s.tcb then Ready(s.tcb[t].priority) else s.place[t]
  }

  lemma ExpireTimed(s: State, t: Task, now: nat, due: Dues)
    requires Core(s) && t in s.tcb && t in s.place && Ticking(s, now, due)
    ensures Ticking(Expire(s, t), now, due - {t})
    ensures Early(Expire(s, t)) == Early(TakeOff(s, t)) && DelayedIds(Expire(s, t))
  {
    TakeOffTimed(s, t, now, due);
    var s1 := DropEvent(TakeOff(s, t), t);
    SameTimesTimed(TakeOff(s, t), s1, now, due - {t});
    MakeReadyTimed(s1, t, now, due - {t});
    hide Ticking;
  }

  /** The head of the current delayed list has expired exactly when it is due now. */
  lemma HeadExpiredIs(s: State, now: nat, due: Dues)
    requires Inv(s) && Ticking(s, now, due) && Early(s) != []
    ensures var t := Early(s)[0];
            && t in due && t in s.place && t in s.tcb && s.place[t] == s.delayed
            && (HeadExpired(s) <==> due[t] == now)
            && |Early(TakeOff(s, t))| == |Early(s)| - 1
  {
    var t := Early(s)[0];
    assert t in Early(s);
    SameEpochOrder(due[t], now);
  }

  /** Behind an unexpired head nothing has expired. */
  lemma NothingElseExpired(s: State, now: nat, due: Dues)
    requires Ticking(s, now, due) && (Early(s) != [] ==> Early(s)[0] in due && due[Early(s)[0]] != now)
    ensures AllFrom(due, now + 1)
    ensures Bounded(Early(s), s.wake, ResetNextUnblock(s).nextUnblock)
  {
    if Early(s) != [] {
      HeadIsLeast(Early(s), s.wake);
      assert Early(s)[0] in Early(s);
    }
    forall t | t in due
      ensures due[t] >= now + 1
    {
      if t in Early(s) {
        SameEpochOrder(due[t], due[Early(s)[0]]);
      }
    }
  }

  lemma AfterIsSame(due: Dues, now: nat)
    requires AllFrom(due, now + 1)
    ensures After(due, now) == due
  {
  }

  lemma AfterWithout(due: Dues, t: Task, now: nat)
    requires t in due && due[t] == now
    ensures After(due - {t}, now) == After(due, now)
  {
  }

  lemma ResetTimed(s: State, now: nat, due: Dues)
    requires Ticking(s, now, due) && AllFrom(due, now + 1)
    requires Bounded(Early(s), s.wake, ResetNextUnblock(s).nextUnblock)
    ensures Ticking(ResetNextUnblock(s), now, due)
    ensures Bounded(Early(ResetNextUnblock(s)), s.wake, ResetNextUnblock(s).nextUnblock)
    ensures ResetNextUnblock(s).wake == s.wake && Woken(s, ResetNextUnblock(s), now, due)
  {
    hide Schedule, Wrap, Epoch;
  }

  lemma WokenStep(s: State, r: State, t: Task, now: nat, due: Dues)
    requires t in s.tcb && t in s.place && t in due && due[t] == now
    requires Woken(Expire(s, t), r, now, due - {t})
    ensures Woken(s, r, now, due)
  {
    hide Expire;
  }

  lemma {:induction false} WakeExpiredTimed(s: State, n: nat, now: nat, due: Dues)
    requires Inv(s) && Ticking(s, now, due) && n == |Early(s)|
    ensures var r := WakeExpired(s, n);
            && Ticking(r, now, After(due, now)) && AllFrom(After(due, now), now + 1)
            && Bounded(Early(r), r.wake, r.nextUnblock) && Woken(s, r, now, due)
    decreases n
  {
    hide Inv, Ticking, HeadExpired, Expire, TakeOff, ResetNextUnblock, After;
    if n > 0 {
      HeadExpiredIs(s, now, due);
    }
    if n > 0 && HeadExpired(s) {
      var t := Early(s)[0];
      HeadIsLive(s, now, due);
      ExpireTimed(s, t, now, due);
      ExpireKeeps(s, t);
      WakeExpiredTimed(Expire(s, t), n - 1, now, due - {t});
      WokenStep(s, WakeExpired(Expire(s, t), n - 1), t, now, due);
      AfterWithout(due, t, now);
    } else {
      NothingElseExpired(s, now, due);
      ResetTimed(s, now, due);
      AfterIsSame(due, now);
    }
  }

  lemma HeadIsLive(s: State, now: nat, due: Dues)
    requires Inv(s) && Ticking(s, now, due) && Early(s) != []
    ensures var t := Early(s)[0]; Core(s) && t in s.tcb && t in s.place && s.place[t] != Termination
  {
    assert Early(s)[0] in Early(s);
  }

  /** Skipping the scan is sound: below xNextTaskUnblockTime nobody is due. */
  lemma NobodyDueBefore(s: State, now: nat, due: Dues)
    requires Ticking(s, now, due) && Bounded(Early(s), s.wake, s.nextUnblock) && s.tick < s.nextUnblock
    ensures AllFrom(due, now + 1) && Woken(s, s, now, due)
  {
    forall t | t in due
      ensures due[t] >= now + 1
    {
      if t in Early(s) {
        SameEpochOrder(due[t], now);
      }
    }
  }

  lemma InvIsCore(s: State)
    requires Inv(s)
    ensures Core(s)
  {
    hide Core;
  }

  /** The counter moves on by one; when it wraps, the delayed lists change roles. */
  function Advanced(s: State): State {
    var s1 := s.(tick := Wrap(s.tick + 1));
    if s1.tick == 0 then SwitchDelayedLists(s1) else s1
  }

  lemma AdvancedSchedule(early: seq<Task>, late: seq<Task>, wake: map<Task, nat>, now: nat, due: Dues)
    requires Schedule(early, late, wake, Epoch(now), due) && AllFrom(due, now + 1)
    ensures Wrap(Wrap(now) + 1) == Wrap(now + 1)
    ensures if Wrap(now + 1) == 0
            then Epoch(now + 1) == Epoch(now) + 1 && Schedule(late, early, wake, Epoch(now + 1), due)
                 && (late != [] ==> Bounded(late, wake, WakeOf(wake, late[0])))
            else Schedule(early, late, wake, Epoch(now + 1), due) && Epoch(now + 1) == Epoch(now)
  {
    WrapCrossing(now, 1);
    if Wrap(now + 1) == 0 {
      EarlyEmptyAtWrap(early, late, wake, now, due);
      if late != [] {
        HeadIsLeast(late, wake);
      }
    } else {
      WrapEpoch(now);
      WrapEpoch(now + 1);
    }
  }

  lemma AdvancedTimed(s: State, now: nat, due: Dues)
    requires Timed(s, now, due)
    ensures Ticking(Advanced(s), now + 1, due) && Bounded(Early(Advanced(s)), s.wake, Advanced(s).nextUnblock)
    ensures Advanced(s).wake == s.wake && Advanced(s).tcb == s.tcb && Advanced(s).place == s.place
    ensures Advanced(s).suspended == s.suspended && Advanced(s).pended == s.pended
  {
    hide Schedule, Wrap, Epoch, L, WakeOf;
    AdvancedSchedule(Early(s), Late(s), s.wake, now, due);
  }

  lemma AdvancedKeeps(s: State)
    requires Inv(s)
    ensures Inv(Advanced(s))
    ensures ProcessTick(s) == if Advanced(s).tick >= Advanced(s).nextUnblock
                              then WakeExpired(Advanced(s), |Early(Advanced(s))|) else Advanced(s)
  {
    hide Inv, SwitchDelayedLists, WakeExpired;
    SwitchDelayedListsKeeps(s);
  }

  /** One processed tick: the tasks due at it, and no others, become ready, whatever the counter does. */
  lemma ProcessTickTimed(s: State, now: nat, due: Dues)
    requires Inv(s) && Timed(s, now, due)
    ensures Timed(ProcessTick(s), now + 1, After(due, now + 1))
    ensures Woken(s, ProcessTick(s), now + 1, due)
  {
    hide Inv, Ticking, Advanced, WakeExpired, After, Wrap, Bounded, L;
    AdvancedTimed(s, now, due);
    AdvancedKeeps(s);
    var s1 := Advanced(s);
    if s1.tick >= s1.nextUnblock {
      WakeExpiredTimed(s1, |Early(s1)|, now + 1, due);
    } else {
      NobodyDueBefore(s1, now + 1, due);
      AfterIsSame(due, now + 1);
    }
  }

  // ---- resumption of the scheduler ----------------------------------------------------------

  lemma AfterAfter(due: Dues, m: nat, n: nat)
    requires m <= n
    ensures After(After(due, m), n) == After(due, n)
  {
  }

  lemma WokenTwice(s: State, r: State, q: State, m: nat, n: nat, due: Dues)
    requires m <= n && Woken(s, r, m, due) && Woken(r, q, n, After(due, m))
    ensures Woken(s, q, n, due)
  {
  }

  lemma WokenNone(s: State, now: nat, due: Dues)
    requires AllFrom(due, now + 1)
    ensures Woken(s, s, now, due) && After(due, now) == due
  {
  }

  lemma PendedTickTimed(s: State, now: nat, due: Dues)
    requires Inv(s) && Timed(s, now, due)
    ensures Timed(PendedTick(s), now + 1, After(due, now + 1))
    ensures Woken(s, PendedTick(s), now + 1, due)
  {
    hide Inv, Timed, ProcessTick, After, SwitchRequired;
    ProcessTickTimed(s, now, due);
    SameTimesTimed(ProcessTick(s), PendedTick(s), now + 1, After(due, now + 1));
  }

  lemma {:induction false} ProcessTicksTimed(s: State, n: nat, now: nat, due: Dues)
    requires Inv(s) && Timed(s, now, due)
    ensures Timed(ProcessTicks(s, n), now + n, After(due, now + n))
    ensures Woken(s, ProcessTicks(s, n), now + n, due)
    decreases n
  {
    hide Inv, Ticking, PendedTick, After, Bounded, Woken, AllFrom;
    WokenNone(s, now, due);
    if n > 0 {
      var s1 := PendedTick(s);
      PendedTickTimed(s, now, due);
      PendedTickKeeps(s);
      ProcessTicksTimed(s1, n - 1, now + 1, After(due, now + 1));
      AfterAfter(due, now + 1, now + n);
      WokenTwice(s, s1, ProcessTicks(s1, n - 1), now + 1, now + n, due);
    }
  }

  /** Every task of the pending-ready list is in the ready list of its priority. */
  ghost predicate Released(s: State, r: State, released: set<Task>) {
    && r.tcb == s.tcb && r.place.Keys == s.place.Keys
    && forall t | t in s.place :: r.place[t] ==
         if t in released && t in s.tcb then Ready(s.tcb[t].priority) else s.place[t]
  }

  function PendingTasks(s: State): set<Task> {
    set t | t in E(s.events, Pending)
  }

  lemma ReadyPendingTimed(s: State, t: Task, now: nat, due: Dues)
    requires Core(s) && t in s.tcb && t in s.place && Timed(s, now, due)
    ensures Timed(ReadyPending(s, t), now, due - {t}) && Released(s, ReadyPending(s, t), {t})
  {
    hide Timed, Core, L, DropEvent, Readied, TakeOff, MakeReady, PutEnd;
    var s1 := DropEvent(s, t);
    DropEventKeeps(s, t);
    SameTimesTimed(s, s1, now, due);
    ReadiedTimed(s1, t, now, due);
    SameTimesTimed(Readied(s1, t), ReadyPending(s, t), now, due - {t});
  }

  lemma ResumingIs(s: State)
    requires Resuming(s)
    ensures Core(s) && NoDup(E(s.events, Pending))
  {
    hide NoDup, Placed, PrioritiesOk;
  }

  lemma PendingHeadTimed(s: State)
    requires Resuming(s) && E(s.events, Pending) != []
    ensures var t := E(s.events, Pending)[0];
            && Core(s) && t in s.waiting && t in s.tcb && t in s.place
            && |E(ReadyPending(s, t).events, Pending)| == |E(s.events, Pending)| - 1
            && PendingTasks(s) == {t} + PendingTasks(ReadyPending(s, t))
            && ReadyPending(s, t).tick == s.tick && ReadyPending(s, t).suspended == s.suspended
            && ReadyPending(s, t).pended == s.pended
  {
    hide Core, DropEvent, Readied, TakeOff, MakeReady, NoDup;
    var t := E(s.events, Pending)[0];
    ResumingIs(s);
    PendingHead(s, t);
    WithoutMembers(E(s.events, Pending), 0);
  }

  lemma ReleasedTwice(s: State, r: State, q: State, t: Task, released: set<Task>)
    requires Released(s, r, {t}) && Released(r, q, released)
    ensures Released(s, q, {t} + released)
  {
  }

  lemma {:induction false} DrainPendingTimed(s: State, n: nat, now: nat, due: Dues)
    requires Resuming(s) && n == |E(s.events, Pending)| && Timed(s, now, due)
    ensures Timed(DrainPending(s, n), now, due - PendingTasks(s))
    ensures Released(s, DrainPending(s, n), PendingTasks(s))
    decreases n
  {
    hide Resuming, Core, Timed, Released, ReadyPending, PendingTasks;
    if n > 0 {
      var t := E(s.events, Pending)[0];
      PendingHeadTimed(s);
      var s1 := ReadyPending(s, t);
      ReadyPendingTimed(s, t, now, due);
      ReadyPendingKeeps(s, t);
      DrainPendingTimed(s1, n - 1, now, due - {t});
      assert due - {t} - PendingTasks(s1) == due - ({t} + PendingTasks(s1));
      ReleasedTwice(s, s1, DrainPending(s1, n - 1), t, PendingTasks(s1));
    } else {
      NothingPending(s, due);
    }
  }

  lemma NothingPending(s: State, due: Dues)
    requires E(s.events, Pending) == []
    ensures PendingTasks(s) == {} && due - PendingTasks(s) == due && Released(s, s, PendingTasks(s))
  {
  }

  /** What the outermost xTaskResumeAll has done: the pending tasks are ready, and so is every task
      that became due while the scheduler was suspended; everyone else is where they were. */
  ghost predicate CaughtUp(s: State, r: State, released: set<Task>, now: nat, due: Dues) {
    && r.tcb == s.tcb && r.place.Keys == s.place.Keys
    && forall t | t in s.place :: r.place[t] ==
         if t in s.tcb && (t in released || (t in due && due[t] <= now)) then Ready(s.tcb[t].priority) else s.place[t]
  }

  lemma ReleasedThenWoken(s: State, r: State, q: State, released: set<Task>, now: nat, due: Dues)
    requires Released(s, r, released) && Woken(r, q, now, due - released)
    ensures CaughtUp(s, q, released, now, due)
  {
  }

  lemma ResetKeepsTimed(s: State, now: nat, due: Dues)
    requires Timed(s, now, due)
    ensures Timed(ResetNextUnblock(s), now, due)
  {
    if Early(s) != [] {
      HeadIsLeast(Early(s), s.wake);
    }
    ResetTimed(s, now, due);
  }

  lemma ResumeDrains(s: State, now: nat, due: Dues)
    requires Inv(s) && s.suspended == 1 && Timed(s, now, due)
    ensures var s1 := s.(suspended := 0); var n := |E(s1.events, Pending)|;
            var s2 := DrainPending(s1, n); var s3 := if n > 0 then ResetNextUnblock(s2) else s2;
            && s1.tasks > 0 && Inv(s3) && Timed(s3, now, due - PendingTasks(s))
            && Released(s, s3, PendingTasks(s)) && s3.pended == s.pended
  {
    hide Inv, Timed, Released, ResetNextUnblock, PendingTasks;
    var s1 := s.(suspended := 0);
    assert s1.(suspended := s1.suspended + 1) == s;
    TaskCountPositive(s);
    SuspendedAside(s, now, due, 0);
    var n := |E(s1.events, Pending)|;
    DrainPendingKeeps(s1, n);
    DrainPendingTimed(s1, n, now, due);
    var s2 := DrainPending(s1, n);
    NoPending(s2);
    ResetKeeps(s2);
    ResetKeepsTimed(s2, now, due - PendingTasks(s));
    ResetPlaces(s2);
    ReleasedAside(s, s2, PendingTasks(s));
  }

  lemma SuspendedAside(s: State, now: nat, due: Dues, n: nat)
    ensures Timed(s, now, due) == Timed(s.(suspended := n), now, due) == Timed(s.(pended := n), now, due)
    ensures PendingTasks(s.(suspended := n)) == PendingTasks(s)
  {
    hide Schedule, Wrap, Epoch, L;
  }

  lemma ResetPlaces(s: State)
    ensures var r := ResetNextUnblock(s); r.place == s.place && r.tcb == s.tcb && r.pended == s.pended
  {
  }

  lemma ReleasedAside(s: State, r: State, released: set<Task>)
    requires Released(s.(suspended := 0), r, released)
    ensures Released(s, r, released)
    ensures forall q: State | q.place == r.place && q.tcb == r.tcb :: Released(s, q, released)
  {
  }

  /** Suspending the scheduler loses nothing. */
  lemma ResumeAllTimed(s: State, now: nat, due: Dues)
    requires Inv(s) && s.suspended == 1 && Timed(s, now, due)
    ensures var r := ResumeAll(s);
            && Timed(r, now + s.pended, After(due - PendingTasks(s), now + s.pended))
            && CaughtUp(s, r, PendingTasks(s), now + s.pended, due) && r.pended == 0
  {
    hide Inv, Timed, Released, ResetNextUnblock, PendingTasks, DrainPending, ProcessTicks, CaughtUp, Woken, After;
    ResumeDrains(s, now, due);
    var s1 := s.(suspended := 0);
    var n := |E(s1.events, Pending)|;
    var s2 := DrainPending(s1, n);
    var s3 := if n > 0 then ResetNextUnblock(s2) else s2;
    ProcessTicksTimed(s3, s.pended, now, due - PendingTasks(s));
    var r := ProcessTicks(s3, s.pended);
    ReleasedThenWoken(s, s3, r, PendingTasks(s), now + s.pended, due);
    SuspendedAside(r, now + s.pended, After(due - PendingTasks(s), now + s.pended), 0);
    CaughtUpAside(s, r, PendingTasks(s), now + s.pended, due);
  }

  lemma CaughtUpAside(s: State, r: State, released: set<Task>, now: nat, due: Dues)
    ensures CaughtUp(s, r, released, now, due) == CaughtUp(s, r.(pended := 0), released, now, due)
  {
  }
}

/** What each entry point does for its caller, said without its steps: where the task it concerns is afterwards, what
    has become of its fields, and that nothing else has changed: no other task, no order among the others, and no
    variable of the scheduler but those named. */
module KernelEffects {
  import opened Ticks
  import opened Rings
  import opened KernelState
  import opened KernelPlacement
  import opened KernelOrder
  import opened KernelSteps
  import opened KernelTime

  /** The maps differ at most at t. */
  ghost predicate SameElsewhere<V>(m: map<Task, V>, n: map<Task, V>, t: Task) {
    forall u | u != t :: (u in n <==> u in m) && (u in m ==> n[u] == m[u])
  }

  /** Nothing about any task but t has changed, and the others have kept their order in every list. */
  ghost predicate OthersStay(s: State, r: State, t: Task) {
    && SameElsewhere(s.tcb, r.tcb, t) && SameElsewhere(s.place, r.place, t)
    && SameElsewhere(s.waiting, r.waiting, t) && SameElsewhere(s.wake, r.wake, t)
    && OrderStays(s, r, {t})
  }

  /** t is in the ready list of its own priority, to be picked last but for the task pxIndex points at. */
  ghost predicate NewlyReady(s: State, r: State, t: Task) {
    && t in r.tcb && t in r.place && r.place[t] == Ready(r.tcb[t].priority)
    && PickedLast(L(r.lists, Ready(r.tcb[t].priority)), t)
    && r.topReady == if r.tcb[t].priority > s.topReady then r.tcb[t].priority else s.topReady
  }

  /** t is last in xPendingReadyList, and in the state lists nothing has changed. */
  ghost predicate NewlyPending(s: State, r: State, t: Task) {
    && t in r.waiting && r.waiting[t] == Pending && IsLast(E(r.events, Pending), t)
    && r.lists == s.lists && r.place == s.place && r.topReady == s.topReady
  }

  /** What unblocking t comes to: it is ready, or pending while the scheduler is suspended. */
  ghost predicate Unblocked(s: State, r: State, t: Task) {
    && (s.suspended == 0 ==> NewlyReady(s, r, t))
    && (s.suspended > 0 ==> NewlyPending(s, r, t))
  }

  // ---- what one step leaves alone ---------------------------------------------------------------

  lemma OneEntry<V>(m: map<Task, V>, t: Task, v: V)
    ensures SameElsewhere(m, m, t) && SameElsewhere(m, m[t := v], t) && SameElsewhere(m, m - {t}, t)
  {
  }

  lemma OneTask(s: State, t: Task, c: Tcb)
    ensures SameElsewhere(s.tcb, s.tcb, t) && SameElsewhere(s.tcb, s.tcb[t := c], t)
            && SameElsewhere(s.tcb, s.tcb - {t}, t)
    ensures SameElsewhere(s.wake, s.wake, t)
  {
    OneEntry(s.tcb, t, c);
    OneEntry(s.wake, t, 0);
  }

  lemma SameTwice<V>(m: map<Task, V>, n: map<Task, V>, o: map<Task, V>, t: Task)
    requires SameElsewhere(m, n, t) && SameElsewhere(n, o, t)
    ensures SameElsewhere(m, o, t)
  {
    forall u | u != t
      ensures (u in o <==> u in m) && (u in m ==> o[u] == m[u])
    {
      assert u in n <==> u in m;
    }
  }

  lemma StayTwice(s: State, r: State, q: State, t: Task)
    requires OthersStay(s, r, t) && OthersStay(r, q, t)
    ensures OthersStay(s, q, t)
  {
    hide SameElsewhere, OrderStays;
    SameTwice(s.tcb, r.tcb, q.tcb, t);
    SameTwice(s.place, r.place, q.place, t);
    SameTwice(s.waiting, r.waiting, q.waiting, t);
    SameTwice(s.wake, r.wake, q.wake, t);
    OrderTwice(s, r, q, {t});
  }

  /** Only fields of t have changed. */
  lemma FieldsStay(s: State, r: State, t: Task)
    requires r.lists == s.lists && r.events == s.events && r.place == s.place && r.waiting == s.waiting
    requires SameElsewhere(s.tcb, r.tcb, t) && SameElsewhere(s.wake, r.wake, t)
    ensures OthersStay(s, r, t)
  {
    SameOrder(s, r, {t});
    hide OrderStays;
  }

  lemma TakeOffStays(s: State, t: Task)
    requires t in s.place
    ensures OthersStay(s, TakeOff(s, t), t)
  {
    TakeOffOrder(s, t);
    hide OrderStays;
  }

  lemma PutEndStays(s: State, id: ListId, t: Task)
    ensures OthersStay(s, PutEnd(s, id, t), t) && PickedLast(L(PutEnd(s, id, t).lists, id), t)
  {
    PutEndOrder(s, id, t);
    hide OrderStays, PickedLast;
  }

  lemma PutSortedStays(s: State, id: ListId, t: Task)
    ensures OthersStay(s, PutSorted(s, id, t), t)
  {
    PutSortedOrder(s, id, t);
    hide OrderStays;
  }

  lemma DropEventStays(s: State, t: Task)
    ensures OthersStay(s, DropEvent(s, t), t)
  {
    DropEventOrder(s, t);
    hide OrderStays, E;
  }

  lemma PutEventEndStays(s: State, e: EventId, t: Task)
    ensures OthersStay(s, PutEventEnd(s, e, t), t) && IsLast(E(PutEventEnd(s, e, t).events, e), t)
  {
    PutEventEndOrder(s, e, t);
    hide OrderStays, IsLast;
  }

  lemma PutEventSortedStays(s: State, e: EventId, t: Task)
    ensures OthersStay(s, PutEventSorted(s, e, t), t)
  {
    PutEventSortedOrder(s, e, t);
    hide OrderStays;
  }

  lemma MakeReadyStays(s: State, t: Task)
    requires t in s.tcb
    ensures OthersStay(s, MakeReady(s, t), t) && NewlyReady(s, MakeReady(s, t), t)
  {
    MakeReadyOrder(s, t);
    hide OrderStays, PickedLast, InsertEnd, L;
  }

  lemma ReadiedStays(s: State, t: Task)
    requires t in s.tcb && t in s.place
    ensures OthersStay(s, Readied(s, t), t) && NewlyReady(s, Readied(s, t), t)
  {
    hide OthersStay, TakeOff, MakeReady, PickedLast;
    TakeOffStays(s, t);
    MakeReadyStays(TakeOff(s, t), t);
    StayTwice(s, TakeOff(s, t), Readied(s, t), t);
  }

  lemma UnblockStays(s: State, t: Task)
    requires t in s.tcb && t in s.place
    ensures var r := Unblock(s, t);
            && OthersStay(s, r, t) && Unblocked(s, r, t)
            && (s.suspended == 0 ==> r.events == s.events && r.waiting == s.waiting)
            && r == s.(lists := r.lists, place := r.place, topReady := r.topReady, events := r.events,
                       waiting := r.waiting)
  {
    hide OthersStay, Readied, PickedLast, IsLast;
    ReadiedStays(s, t);
    PutEventEndStays(s, Pending, t);
  }

  // ---- events -------------------------------------------------------------------------------------

  /** An event wakes the task at the head of the list: it is ready, or, while the scheduler is suspended, last in the
      pending-ready list. A yield is pending if one was, or if the task has a higher priority. */
  lemma SignalEffect(s: State, t: Task)
    requires t in s.tcb && t in s.place && s.current in s.tcb
    ensures var r := RemoveFromEventList(s, t);
            && OthersStay(s, r, t) && Unblocked(s, r, t) && (s.suspended == 0 ==> t !in r.waiting)
            && r.yieldPending == (s.yieldPending || s.tcb[t].priority > s.tcb[s.current].priority)
            && r == s.(lists := r.lists, place := r.place, topReady := r.topReady, events := r.events,
                       waiting := r.waiting, yieldPending := r.yieldPending)
  {
    hide SameElsewhere, OrderStays, DropEvent, Unblock, PickedLast, IsLast;
    DropEventStays(s, t);
    UnblockStays(DropEvent(s, t), t);
    StayTwice(s, DropEvent(s, t), Unblock(DropEvent(s, t), t), t);
    SameOrder(Unblock(DropEvent(s, t), t), RemoveFromEventList(s, t), {t});
    OrderTwice(s, Unblock(DropEvent(s, t), t), RemoveFromEventList(s, t), {t});
  }

  /** A task released with event bits is ready at once, finds the bits in its event item value, below the mark of a
      value in use, and waits for nothing. */
  lemma SignalBitsEffect(s: State, t: Task, value: nat)
    requires t in s.tcb && t in s.place && s.current in s.tcb && IsTick(value)
    ensures var r := RemoveFromUnorderedEventList(s, t, value);
            && OthersStay(s, r, t) && NewlyReady(s, r, t) && t !in r.waiting
            && r.tcb[t] == s.tcb[t].(eventValue := r.tcb[t].eventValue)
            && VALUE_IN_USE <= r.tcb[t].eventValue < 2 * VALUE_IN_USE
            && r.tcb[t].eventValue % VALUE_IN_USE == value % VALUE_IN_USE
            && r.yieldPending == (s.yieldPending || s.tcb[t].priority > s.tcb[s.current].priority)
            && r == s.(tcb := r.tcb, lists := r.lists, place := r.place, topReady := r.topReady, events := r.events,
                       waiting := r.waiting, yieldPending := r.yieldPending)
  {
    hide SameElsewhere, OrderStays, DropEvent, Readied, PickedLast, InUse;
    var s1 := s.(tcb := s.tcb[t := s.tcb[t].(eventValue := InUse(value))]);
    OneTask(s, t, s1.tcb[t]);
    FieldsStay(s, s1, t);
    DropEventStays(s1, t);
    ReadiedStays(DropEvent(s1, t), t);
    StayTwice(s, s1, DropEvent(s1, t), t);
    StayTwice(s, DropEvent(s1, t), Readied(DropEvent(s1, t), t), t);
    var r := RemoveFromUnorderedEventList(s, t, value);
    OneTask(r, t, s1.tcb[t]);
    FieldsStay(Readied(DropEvent(s1, t), t), r, t);
    StayTwice(s, Readied(DropEvent(s1, t), t), r, t);
  }

  /** The rest of the event list keeps its order, and the pending-ready list is first come, first served. */
  lemma SignalOrder(s: State, obj: nat)
    requires Inv(s) && E(s.events, Object(obj)) != []
    ensures var t := E(s.events, Object(obj))[0];
            && t in s.tcb && t in s.place
            && E(RemoveFromEventList(s, t).events, Object(obj)) == E(s.events, Object(obj))[1..]
            && E(RemoveFromEventList(s, t).events, Pending)
               == E(s.events, Pending) + (if s.suspended > 0 then [t] else [])
  {
    var t := E(s.events, Object(obj))[0];
    HeadWaits(s, obj);
    assert t in E(s.events, Object(obj)) && Find(E(s.events, Object(obj)), t) == 0;
    assert s.waiting[t] == Object(obj);
    assert Without(E(s.events, Object(obj)), 0) == E(s.events, Object(obj))[1..];
    hide Inv, TakeOff, MakeReady;
  }

  // ---- blocking -----------------------------------------------------------------------------------

  /** The running task is blocked for d ticks: in the delayed list of its turn of the counter, behind all that wake
      no later, or, when it waits for ever, last in the suspended list. Tasks in that list wake no earlier than
      xNextTaskUnblockTime if they did before. */
  ghost predicate Blocked(s: State, r: State, d: nat, forEver: bool)
    requires s.current in s.place
  {
    var t := s.current;
    && t in r.place && r == s.(lists := r.lists, place := r.place, wake := r.wake, nextUnblock := r.nextUnblock,
                               tcb := r.tcb, events := r.events, waiting := r.waiting)
    && if d == MAX_DELAY && forEver then
         r.place[t] == Suspended && PickedLast(L(r.lists, Suspended), t) && r.wake == s.wake
         && r.nextUnblock == s.nextUnblock
       else
         && t in r.wake && r.wake[t] == (s.tick + d) % 0x1_0000_0000
         && r.place[t] == (if s.tick + d >= 0x1_0000_0000 then s.overflow else s.delayed)
         && r.nextUnblock == (if s.tick + d < s.nextUnblock && s.tick + d < 0x1_0000_0000
                              then s.tick + d else s.nextUnblock)
         && BehindEarlier(L(s.lists, r.place[t]).items, L(r.lists, r.place[t]).items, t, r.wake)
  }

  /** t has been put into line, behind every task that wakes no later than t, before the first that wakes later. */
  ghost predicate BehindEarlier(line: seq<Task>, after: seq<Task>, t: Task, wake: map<Task, nat>) {
    exists p: nat | p <= |line| ::
      && after == line[..p] + [t] + line[p..]
      && (forall i | 0 <= i < p :: WakeOf(wake, line[i]) <= WakeOf(wake, t))
      && (p < |line| ==> WakeOf(wake, line[p]) > WakeOf(wake, t))
  }

  lemma PutSortedEffect(s: State, id: ListId, t: Task)
    ensures BehindEarlier(L(s.lists, id).items, L(PutSorted(s, id, t).lists, id).items, t, s.wake)
  {
    hide Insert, FirstAbove;
    PutSortedLists(s, id, t);
    var line := L(s.lists, id).items;
    WakesBehind(line, s.wake, t);
    InsertIs(line, FirstAbove(Wakes(line, s.wake), WakeOf(s.wake, t)), t);
    hide PutSorted, L, Wakes;
  }

  lemma WakesBehind(line: seq<Task>, wake: map<Task, nat>, t: Task)
    ensures var p := FirstAbove(Wakes(line, wake), WakeOf(wake, t));
            && p <= |line| && (forall i | 0 <= i < p :: WakeOf(wake, line[i]) <= WakeOf(wake, t))
            && (p < |line| ==> WakeOf(wake, line[p]) > WakeOf(wake, t))
  {
    hide WakeOf;
    var p := FirstAbove(Wakes(line, wake), WakeOf(wake, t));
    forall i | 0 <= i < p
      ensures WakeOf(wake, line[i]) <= WakeOf(wake, t)
    {
      assert Wakes(line, wake)[i] <= WakeOf(wake, t);
    }
  }

  lemma PutDelayedEffect(s: State, id: ListId, wake: nat, nextUnblock: nat)
    requires s.current in s.place && s.place[s.current] != id
    ensures var t, r := s.current, PutDelayed(s, id, wake, nextUnblock);
            && OthersStay(s, r, t) && t in r.place && r.place[t] == id && r.wake == s.wake[t := wake]
            && BehindEarlier(L(s.lists, id).items, L(r.lists, id).items, t, r.wake)
            && r == s.(lists := r.lists, place := r.place, wake := r.wake, nextUnblock := nextUnblock)
  {
    hide SameElsewhere, OrderStays, BehindEarlier, PutSorted;
    var t := s.current;
    var s1 := TakeOff(s, t);
    var s2 := WithWake(s1, t, wake, nextUnblock);
    TakeOffStays(s, t);
    OneTask(s1, t, Tcb(0, 0, 0, 0, NotWaiting));
    OneEntry(s1.wake, t, wake);
    FieldsStay(s1, s2, t);
    PutSortedStays(s2, id, t);
    PutSortedEffect(s2, id, t);
    StayTwice(s, s1, s2, t);
    StayTwice(s, s2, PutSorted(s2, id, t), t);
  }

  lemma BlockEffect(s: State, d: nat, forEver: bool)
    requires s.current in s.tcb && Running(s) && DelayedIds(s) && IsTick(s.tick) && IsTick(d)
    ensures var r := BlockCurrent(s, d, forEver);
            && OthersStay(s, r, s.current) && Blocked(s, r, d, forEver)
            && r.tcb == s.tcb && r.events == s.events && r.waiting == s.waiting
  {
    hide SameElsewhere, OrderStays, BehindEarlier, PickedLast, PutEnd, PutDelayed, TakeOff, L, OthersStay;
    var t := s.current;
    var wake := Wrap(s.tick + d);
    if d == MAX_DELAY && forEver {
      TakeOffStays(s, t);
      PutEndStays(TakeOff(s, t), Suspended, t);
      StayTwice(s, TakeOff(s, t), PutEnd(TakeOff(s, t), Suspended, t), t);
    } else if s.tick + d >= 0x1_0000_0000 {
      PutDelayedEffect(s, s.overflow, wake, s.nextUnblock);
    } else {
      PutDelayedEffect(s, s.delayed, wake, if wake < s.nextUnblock then wake else s.nextUnblock);
    }
  }

  /** t has been put into line, behind every task of its own or a higher priority and before the first of a lower one:
      a higher event item value is a lower priority. */
  ghost predicate BehindUrgent(line: seq<Task>, after: seq<Task>, t: Task, tcb: map<Task, Tcb>) {
    exists p: nat | p <= |line| ::
      && after == line[..p] + [t] + line[p..]
      && (forall i | 0 <= i < p :: EventValueOf(tcb, line[i]) <= EventValueOf(tcb, t))
      && (p < |line| ==> EventValueOf(tcb, line[p]) > EventValueOf(tcb, t))
  }

  lemma ValuesBehind(line: seq<Task>, tcb: map<Task, Tcb>, t: Task)
    ensures var p := FirstAbove(EventValues(line, tcb), EventValueOf(tcb, t));
            && p <= |line| && (forall i | 0 <= i < p :: EventValueOf(tcb, line[i]) <= EventValueOf(tcb, t))
            && (p < |line| ==> EventValueOf(tcb, line[p]) > EventValueOf(tcb, t))
  {
    hide EventValueOf;
    var p := FirstAbove(EventValues(line, tcb), EventValueOf(tcb, t));
    forall i | 0 <= i < p
      ensures EventValueOf(tcb, line[i]) <= EventValueOf(tcb, t)
    {
      assert EventValues(line, tcb)[i] <= EventValueOf(tcb, t);
    }
  }

  lemma PutEventSortedEffect(s: State, obj: nat, t: Task)
    ensures var r := PutEventSorted(s, Object(obj), t);
            BehindUrgent(E(s.events, Object(obj)), E(r.events, Object(obj)), t, s.tcb)
  {
    hide Insert, FirstAbove, EventValues;
    var line := E(s.events, Object(obj));
    ValuesBehind(line, s.tcb, t);
    InsertIs(line, FirstAbove(EventValues(line, s.tcb), EventValueOf(s.tcb, t)), t);
  }

  /** An event list that is in order stays in order. */
  lemma WaitOrder(s: State, obj: nat, t: Task)
    requires Sorted(EventValues(E(s.events, Object(obj)), s.tcb))
    ensures var r := PutEventSorted(s, Object(obj), t); var before := E(s.events, Object(obj));
            var values, v := EventValues(before, s.tcb), EventValueOf(s.tcb, t);
            && E(r.events, Object(obj)) == Insert(before, FirstAbove(values, v), t)
            && Sorted(EventValues(E(r.events, Object(obj)), s.tcb))
            && forall i | FirstAbove(values, v) <= i < |before| :: EventValueOf(s.tcb, before[i]) > v
  {
    var line := E(s.events, Object(obj));
    var values, v := EventValues(line, s.tcb), EventValueOf(s.tcb, t);
    SortedInsertion(values, v);
    assert EventValues(Insert(line, FirstAbove(values, v), t), s.tcb) == Insert(values, FirstAbove(values, v), v);
    forall i | 0 <= i < |line|
      ensures values[i] == EventValueOf(s.tcb, line[i])
    {
    }
  }

  /** What a blocking call can rely on: the running task is in a ready list, and the times are ticks. */
  predicate CanBlock(s: State, ticks: nat) {
    Running(s) && DelayedIds(s) && IsTick(s.tick) && IsTick(ticks)
  }

  /** A task that waits for an event is blocked, and in the event list behind the tasks of its own priority. */
  lemma WaitEffect(s: State, obj: nat, ticks: nat)
    requires CanBlock(s, ticks)
    ensures var t, r := s.current, PlaceOnEventList(s, obj, ticks);
            && OthersStay(s, r, t) && Blocked(s, r, ticks, true) && r.tcb == s.tcb
            && t in r.waiting && r.waiting[t] == Object(obj)
            && BehindUrgent(E(s.events, Object(obj)), E(r.events, Object(obj)), t, s.tcb)
            && forall e | e != Object(obj) :: E(r.events, e) == E(s.events, e)
  {
    hide SameElsewhere, OrderStays, BehindEarlier, BehindUrgent, PickedLast, PutEventSorted, BlockCurrent;
    var t := s.current;
    var s1 := PutEventSorted(s, Object(obj), t);
    PutEventSortedStays(s, Object(obj), t);
    PutEventSortedEffect(s, obj, t);
    EventListsElsewhere(s, obj, t);
    BlockEffect(s1, ticks, true);
    StayTwice(s, s1, BlockCurrent(s1, ticks, true), t);
  }

  lemma EventListsElsewhere(s: State, obj: nat, t: Task)
    ensures forall e | e != Object(obj) :: E(PutEventSorted(s, Object(obj), t).events, e) == E(s.events, e)
    ensures forall e | e != Object(obj) :: E(PutEventEnd(s, Object(obj), t).events, e) == E(s.events, e)
    ensures E(PutEventEnd(s, Object(obj), t).events, Object(obj)) == E(s.events, Object(obj)) + [t]
  {
    hide Insert, FirstAbove, EventValues, EventValueOf;
  }

  lemma PutEventEndBlocks(s: State, obj: nat, ticks: nat, forEver: bool)
    requires CanBlock(s, ticks)
    ensures var t, r := s.current, BlockCurrent(PutEventEnd(s, Object(obj), s.current), ticks, forEver);
            && OthersStay(s, r, t) && Blocked(s, r, ticks, forEver) && r.tcb == s.tcb
            && t in r.waiting && r.waiting[t] == Object(obj)
            && E(r.events, Object(obj)) == E(s.events, Object(obj)) + [t]
            && forall e | e != Object(obj) :: E(r.events, e) == E(s.events, e)
  {
    hide SameElsewhere, OrderStays, BehindEarlier, PickedLast, PutEventEnd, BlockCurrent;
    var t := s.current;
    var s1 := PutEventEnd(s, Object(obj), t);
    PutEventEndStays(s, Object(obj), t);
    EventListsElsewhere(s, obj, t);
    BlockEffect(s1, ticks, forEver);
    StayTwice(s, s1, BlockCurrent(s1, ticks, forEver), t);
  }

  /** A task that waits for event bits is blocked, last in the event list, with the bits in its event item value, below
      the mark of a value in use. */
  lemma WaitOnBitsEffect(s: State, obj: nat, value: nat, ticks: nat)
    requires CanBlock(s, ticks) && IsTick(value)
    ensures var t, r := s.current, PlaceOnUnorderedEventList(s, obj, value, ticks);
            && OthersStay(s, r, t) && Blocked(s, r, ticks, true)
            && t in r.tcb && r.tcb[t] == s.tcb[t].(eventValue := r.tcb[t].eventValue)
            && VALUE_IN_USE <= r.tcb[t].eventValue < 2 * VALUE_IN_USE
            && r.tcb[t].eventValue % VALUE_IN_USE == value % VALUE_IN_USE
            && t in r.waiting && r.waiting[t] == Object(obj)
            && E(r.events, Object(obj)) == E(s.events, Object(obj)) + [t]
            && forall e | e != Object(obj) :: E(r.events, e) == E(s.events, e)
  {
    hide SameElsewhere, OrderStays, BehindEarlier, PickedLast, PutEventEnd, BlockCurrent, InUse;
    var t := s.current;
    var s1 := s.(tcb := s.tcb[t := s.tcb[t].(eventValue := InUse(value))]);
    OneTask(s, t, s1.tcb[t]);
    FieldsStay(s, s1, t);
    PutEventEndBlocks(s1, obj, ticks, true);
    StayTwice(s, s1, PlaceOnUnorderedEventList(s, obj, value, ticks), t);
  }

  /** The timer daemon waits last in the event list, for ever if it is told so, whatever the block time. */
  lemma WaitRestrictedEffect(s: State, obj: nat, ticks: nat, forEver: bool)
    requires CanBlock(s, ticks)
    ensures var t, r := s.current, PlaceOnEventListRestricted(s, obj, ticks, forEver);
            && OthersStay(s, r, t) && Blocked(s, r, if forEver then MAX_DELAY else ticks, forEver) && r.tcb == s.tcb
            && t in r.waiting && r.waiting[t] == Object(obj)
            && E(r.events, Object(obj)) == E(s.events, Object(obj)) + [t]
            && forall e | e != Object(obj) :: E(r.events, e) == E(s.events, e)
  {
    hide SameElsewhere, OrderStays, BehindEarlier, PickedLast, PutEventEnd, BlockCurrent, Blocked;
    PutEventEndBlocks(s, obj, if forEver then MAX_DELAY else ticks, forEver);
  }

  /** A task that waits for a notification is marked as waiting and blocked, unless its block time is zero. */
  lemma AwaitEffect(s: State, ticks: nat)
    requires CanBlock(s, ticks)
    ensures var t, r := s.current, WaitForNotification(s, ticks);
            && OthersStay(s, r, t) && t in r.tcb && r.tcb[t] == s.tcb[t].(notify := Waiting)
            && r.events == s.events && r.waiting == s.waiting
            && (if ticks > 0 then Blocked(s, r, ticks, true) else r == s.(tcb := r.tcb))
  {
    hide SameElsewhere, OrderStays, BehindEarlier, PickedLast, BlockCurrent;
    var t := s.current;
    var s1 := SetNotifyState(s, t, Waiting);
    OneTask(s, t, s1.tcb[t]);
    FieldsStay(s, s1, t);
    BlockEffect(s1, ticks, true);
    StayTwice(s, s1, BlockCurrent(s1, ticks, true), t);
  }

  /** Taking the notification, or the bits, changes nothing but the mark, or the event item value, which codes the
      priority in use again. */
  lemma CollectEffect(s: State)
    requires s.current in s.tcb && s.tcb[s.current].priority < PRIORITIES
    ensures var t, r, q := s.current, SetNotifyState(s, s.current, NotWaiting), ResetEventValue(s);
            && r == s.(tcb := r.tcb) && q == s.(tcb := q.tcb) && OthersStay(s, r, t) && OthersStay(s, q, t)
            && t in r.tcb && r.tcb[t] == s.tcb[t].(notify := NotWaiting)
            && t in q.tcb && q.tcb[t] == s.tcb[t].(eventValue := PRIORITIES - s.tcb[t].priority)
  {
    hide SameElsewhere, OrderStays;
    var t, r, q := s.current, SetNotifyState(s, s.current, NotWaiting), ResetEventValue(s);
    OneTask(s, t, r.tcb[t]);
    OneTask(s, t, q.tcb[t]);
    FieldsStay(s, r, t);
    FieldsStay(s, q, t);
  }

  // ---- notifications --------------------------------------------------------------------------------

  /** A notification makes a task that waits for one ready; a task that does not wait only remembers it. */
  lemma NotifyEffect(s: State, t: Task)
    requires t in s.tcb && t in s.place
    ensures var r := Notify(s, t);
            && OthersStay(s, r, t) && t in r.tcb && r.tcb[t] == s.tcb[t].(notify := Received)
            && (if s.tcb[t].notify == Waiting then
                  && NewlyReady(s, r, t)
                  && r == s.(tcb := r.tcb, lists := r.lists, place := r.place, topReady := r.topReady)
                else r == s.(tcb := r.tcb))
  {
    hide SameElsewhere, OrderStays, Readied, PickedLast;
    var s1 := SetNotifyState(s, t, Received);
    OneTask(s, t, s1.tcb[t]);
    FieldsStay(s, s1, t);
    ReadiedStays(s1, t);
    StayTwice(s, s1, Readied(s1, t), t);
  }

  /** From an interrupt, while the scheduler is suspended, the task is pending instead; a yield is pending if one was,
      or if a task that waited has a higher priority. */
  lemma NotifyFromIsrEffect(s: State, t: Task)
    requires t in s.tcb && t in s.place && s.current in s.tcb
    ensures var r := NotifyFromIsr(s, t);
            && OthersStay(s, r, t) && t in r.tcb && r.tcb[t] == s.tcb[t].(notify := Received)
            && (if s.tcb[t].notify == Waiting then
                  && Unblocked(s, r, t)
                  && r.yieldPending == (s.yieldPending || s.tcb[t].priority > s.tcb[s.current].priority)
                  && (s.suspended == 0 ==> r.events == s.events && r.waiting == s.waiting)
                  && r == s.(tcb := r.tcb, lists := r.lists, place := r.place, topReady := r.topReady,
                             events := r.events, waiting := r.waiting, yieldPending := r.yieldPending)
                else r == s.(tcb := r.tcb))
  {
    hide SameElsewhere, OrderStays, Unblock, PickedLast, IsLast;
    var s1 := SetNotifyState(s, t, Received);
    OneTask(s, t, s1.tcb[t]);
    FieldsStay(s, s1, t);
    UnblockStays(s1, t);
    StayTwice(s, s1, Unblock(s1, t), t);
    var r := NotifyFromIsr(s, t);
    if s.tcb[t].notify == Waiting {
      OneTask(r, t, s1.tcb[t]);
      FieldsStay(Unblock(s1, t), r, t);
      StayTwice(s, Unblock(s1, t), r, t);
    }
  }

  // ---- suspension, deletion and creation of tasks -----------------------------------------------------

  /** A suspended task is in the suspended list and waits for nothing, not for a notification either. */
  lemma ParkEffect(s: State, t: Task)
    requires t in s.tcb && t in s.place
    ensures var r := SuspendTask(s, t);
            && OthersStay(s, r, t) && TaskIsSuspended(r, t) && PickedLast(L(r.lists, Suspended), t)
            && r.tcb[t] == s.tcb[t].(notify := if s.tcb[t].notify == Received then Received else NotWaiting)
            && r == s.(tcb := r.tcb, lists := r.lists, place := r.place, events := r.events, waiting := r.waiting)
  {
    hide SameElsewhere, OrderStays, TakeOff, DropEvent, PutEnd, PickedLast, L;
    var s1 := TakeOff(s, t);
    var s2 := DropEvent(s1, t);
    var s3 := PutEnd(s2, Suspended, t);
    TakeOffStays(s, t);
    DropEventStays(s1, t);
    PutEndStays(s2, Suspended, t);
    StayTwice(s, s1, s2, t);
    StayTwice(s, s2, s3, t);
    OneTask(s3, t, s.tcb[t].(notify := NotWaiting));
    FieldsStay(s3, SuspendTask(s, t), t);
    StayTwice(s, s3, SuspendTask(s, t), t);
  }

  /** Only a task that is suspended, and not merely blocked for ever on an event, can be resumed. */
  lemma UnparkEffect(s: State, t: Task)
    ensures var r := ResumeTask(s, t);
            if TaskIsSuspended(s, t) && t != s.current then
              OthersStay(s, r, t) && NewlyReady(s, r, t)
              && r == s.(lists := r.lists, place := r.place, topReady := r.topReady)
            else r == s
  {
    hide OthersStay, Readied, PickedLast;
    if TaskIsSuspended(s, t) {
      ReadiedStays(s, t);
    }
  }

  lemma UnparkFromIsrEffect(s: State, t: Task)
    ensures var r := ResumeFromIsr(s, t);
            if TaskIsSuspended(s, t) then
              && OthersStay(s, r, t) && Unblocked(s, r, t)
              && (s.suspended == 0 ==> r.events == s.events && r.waiting == s.waiting)
              && r == s.(lists := r.lists, place := r.place, topReady := r.topReady, events := r.events,
                         waiting := r.waiting)
            else r == s
  {
    hide OthersStay, Unblock, PickedLast, IsLast;
    if TaskIsSuspended(s, t) {
      UnblockStays(s, t);
    }
  }

  /** xNextTaskUnblockTime is the least wake time in the current delayed list, or portMAX_DELAY if it is empty. */
  ghost predicate UnblocksNext(s: State) {
    var line := L(s.lists, s.delayed).items;
    if line == [] then s.nextUnblock == MAX_DELAY
    else (forall t | t in line :: s.nextUnblock <= WakeOf(s.wake, t))
         && exists t | t in line :: s.nextUnblock == WakeOf(s.wake, t)
  }

  predicate InWakeOrder(s: State) {
    Sorted(Wakes(L(s.lists, s.delayed).items, s.wake))
  }

  lemma ResetEffect(s: State)
    requires InWakeOrder(s)
    ensures var r := ResetNextUnblock(s); UnblocksNext(r) && r == s.(nextUnblock := r.nextUnblock)
  {
    var line := L(s.lists, s.delayed).items;
    if line != [] {
      HeadIsLeast(line, s.wake);
      assert line[0] in line;
    }
    hide Sorted;
  }

  lemma InOrderWithout(s: State, t: Task)
    requires InWakeOrder(s) && t in s.place
    ensures InWakeOrder(TakeOff(s, t)) && InWakeOrder(DropEvent(TakeOff(s, t), t))
  {
    var line := L(s.lists, s.delayed).items;
    if t in line {
      WakesWithout(line, s.wake, Find(line, t));
    }
    hide Sorted, Wakes, Without, Find;
  }

  /** A task that deletes itself waits for the idle task to clean up; any other task is forgotten at once. */
  lemma DeleteEffect(s: State, t: Task)
    requires t in s.tcb && t in s.place && s.tasks > 0 && InWakeOrder(s)
    ensures var r := Delete(s, t);
            && OthersStay(s, r, t) && t !in r.waiting
            && (t == s.current ==>
                  && t in r.place && r.place[t] == Termination && PickedLast(L(r.lists, Termination), t)
                  && r == s.(lists := r.lists, place := r.place, events := r.events, waiting := r.waiting,
                             cleanups := s.cleanups + 1))
            && (t != s.current ==>
                  && t !in r.tcb && t !in r.place && UnblocksNext(r)
                  && r == s.(tcb := r.tcb, lists := r.lists, place := r.place, events := r.events,
                             waiting := r.waiting, nextUnblock := r.nextUnblock, tasks := s.tasks - 1))
  {
    hide SameElsewhere, OrderStays, InWakeOrder, UnblocksNext, TakeOff, DropEvent, PutEnd, ResetNextUnblock, PickedLast;
    var s1 := TakeOff(s, t);
    var s2 := DropEvent(s1, t);
    TakeOffStays(s, t);
    DropEventStays(s1, t);
    StayTwice(s, s1, s2, t);
    var r := Delete(s, t);
    if t == s.current {
      var s3 := PutEnd(s2, Termination, t);
      PutEndStays(s2, Termination, t);
      StayTwice(s, s2, s3, t);
      OneTask(s3, t, s.tcb[t]);
      FieldsStay(s3, r, t);
      StayTwice(s, s3, r, t);
    } else {
      var s3 := s2.(tcb := s2.tcb - {t}, tasks := s.tasks - 1);
      InOrderWithout(s, t);
      SameWakeOrder(s2, s3);
      ResetEffect(s3);
      OneTask(s2, t, s.tcb[t]);
      FieldsStay(s2, r, t);
      StayTwice(s, s2, r, t);
    }
  }

  lemma SameWakeOrder(s: State, r: State)
    requires r.lists == s.lists && r.wake == s.wake && r.delayed == s.delayed
    ensures InWakeOrder(r) == InWakeOrder(s)
  {
  }

  /** The idle task forgets a deleted task. */
  lemma CleanUpEffect(s: State, t: Task)
    requires t in s.tcb && t in s.place && s.tasks > 0 && s.cleanups > 0
    ensures var r := CleanUp(s, t);
            && OthersStay(s, r, t) && t !in r.tcb && t !in r.place
            && r == s.(tcb := r.tcb, lists := r.lists, place := r.place, tasks := s.tasks - 1,
                       cleanups := s.cleanups - 1)
  {
    hide SameElsewhere, OrderStays, TakeOff;
    TakeOffStays(s, t);
    OneTask(TakeOff(s, t), t, s.tcb[t]);
    FieldsStay(TakeOff(s, t), CleanUp(s, t), t);
    StayTwice(s, TakeOff(s, t), CleanUp(s, t), t);
  }

  /** A created task is ready, at its priority, holding no mutex. */
  lemma CreateEffect(s: State, t: Task, p: nat)
    requires t !in s.tcb && p < PRIORITIES
    ensures var r := Create(s, t, p);
            && OthersStay(s, r, t) && NewlyReady(s, r, t)
            && r.tcb[t].priority == r.tcb[t].basePriority == p && r.tcb[t].mutexesHeld == 0
            && r.tcb[t].eventValue == PRIORITIES - p && r.tcb[t].notify == NotWaiting
            && r == s.(tcb := r.tcb, lists := r.lists, place := r.place, topReady := r.topReady, tasks := s.tasks + 1)
  {
    hide SameElsewhere, OrderStays, MakeReady, PickedLast;
    var created := Tcb(p, p, 0, PRIORITIES - p, NotWaiting);
    var s1 := s.(tcb := s.tcb[t := created], tasks := s.tasks + 1);
    OneTask(s, t, created);
    FieldsStay(s, s1, t);
    MakeReadyStays(s1, t);
    StayTwice(s, s1, MakeReady(s1, t), t);
  }

  // ---- priorities -------------------------------------------------------------------------------------

  predicate ReadyAtOwnPriority(s: State, t: Task) {
    t in s.tcb && t in s.place && s.place[t] == Ready(s.tcb[t].priority)
  }

  /** The control block of t is c, and t, if it was ready, is in the ready list of its priority there. */
  ghost predicate Reprioritised(s: State, r: State, t: Task, c: Tcb) {
    && OthersStay(s, r, t) && t in r.tcb && r.tcb[t] == c
    && (if ReadyAtOwnPriority(s, t) then
          NewlyReady(s, r, t) && r == s.(tcb := r.tcb, lists := r.lists, place := r.place, topReady := r.topReady)
        else r == s.(tcb := r.tcb))
  }

  lemma ReprioritiseEffect(s: State, t: Task, c: Tcb)
    requires t in s.tcb
    ensures Reprioritised(s, Reprioritise(s, t, c), t, c)
  {
    hide SameElsewhere, OrderStays, TakeOff, MakeReady, PickedLast;
    var moved := t in s.place && s.place[t] == Ready(s.tcb[t].priority);
    var s1 := if moved then TakeOff(s, t) else s;
    var s2 := s1.(tcb := s1.tcb[t := c]);
    if moved {
      TakeOffStays(s, t);
    } else {
      OneTask(s, t, c);
      FieldsStay(s, s, t);
    }
    OneTask(s1, t, c);
    FieldsStay(s1, s2, t);
    StayTwice(s, s1, s2, t);
    if moved {
      MakeReadyStays(s2, t);
      StayTwice(s, s2, MakeReady(s2, t), t);
    }
  }

  /** The event item value after a change of the priority in use to p: it codes p, unless it is in use for bits. */
  function Coded(c: Tcb, p: nat): nat
    requires p < PRIORITIES
  {
    if c.eventValue < 0x8000_0000 then 6 - p else c.eventValue
  }

  /** Setting a priority sets the base priority, and the priority in use unless the task has inherited one; a ready task
      moves to the ready list of its new priority. */
  lemma PriorityEffect(s: State, t: Task, p: nat)
    requires t in s.tcb && p < PRIORITIES
    ensures var c, r := s.tcb[t], SetPriority(s, t, p);
            if c.basePriority == p then r == s
            else Reprioritised(s, r, t, Tcb(if c.priority == c.basePriority then p else c.priority, p, c.mutexesHeld,
                                            Coded(c, p), c.notify))
  {
    hide Reprioritise, Reprioritised;
    var c := s.tcb[t];
    ReprioritiseEffect(s, t, c.(priority := if c.basePriority == c.priority then p else c.priority,
                                basePriority := p, eventValue := CodedPriority(c, p)));
  }

  /** The holder inherits: its priority is the larger of its own and that of the task that blocks on the mutex, and
      nothing happens if that is its own. */
  lemma InheritEffect(s: State, holder: Task)
    requires holder in s.tcb && s.current in s.tcb && s.tcb[s.current].priority < PRIORITIES
    ensures var c, p, r := s.tcb[holder], s.tcb[s.current].priority, Inherit(s, holder);
            && r.tcb.Keys == s.tcb.Keys
            && r.tcb[holder].priority == (if c.priority < p then p else c.priority)
            && (if c.priority < p then
                  Reprioritised(s, r, holder, Tcb(p, c.basePriority, c.mutexesHeld, Coded(c, p), c.notify))
                else r == s)
  {
    hide Reprioritise;
    var c, p := s.tcb[holder], s.tcb[s.current].priority;
    ReprioritiseEffect(s, holder, c.(priority := p, eventValue := CodedPriority(c, p)));
    ReprioritiseTcb(s, holder, c.(priority := p, eventValue := CodedPriority(c, p)));
    hide OthersStay, NewlyReady;
  }

  /** Giving a mutex back: an inherited priority ends with the last mutex held, and not before. */
  lemma DisinheritEffect(s: State)
    requires s.current in s.tcb && s.tcb[s.current].mutexesHeld > 0 && s.tcb[s.current].basePriority < PRIORITIES
    ensures var t, r := s.current, Disinherit(s); var c := s.tcb[t];
            if c.mutexesHeld == 1 && c.priority != c.basePriority then
              Reprioritised(s, r, t, Tcb(c.basePriority, c.basePriority, 0, 6 - c.basePriority, c.notify))
            else
              OthersStay(s, r, t) && r == s.(tcb := r.tcb)
              && t in r.tcb && r.tcb[t] == c.(mutexesHeld := c.mutexesHeld - 1)
  {
    hide Reprioritise, Reprioritised, OrderStays;
    var t := s.current;
    var c := s.tcb[t];
    ReprioritiseEffect(s, t, Returned(c));
    OneTask(s, t, Returned(c));
    FieldsStay(s, s.(tcb := s.tcb[t := Returned(c)]), t);
  }

  /** When a waiting task has timed out, a holder of this mutex only falls back to the larger of its own priority and
      the highest that still waits; a holder of several keeps what it has. */
  lemma WithdrawEffect(s: State, holder: Task, highest: nat)
    requires holder in s.tcb && highest < PRIORITIES && s.tcb[holder].basePriority < PRIORITIES
    ensures var c, r := s.tcb[holder], DisinheritAfterTimeout(s, holder, highest);
            var p := if highest > c.basePriority then highest else c.basePriority;
            if c.mutexesHeld == 1 && c.priority != p then
              Reprioritised(s, r, holder, Tcb(p, c.basePriority, c.mutexesHeld, Coded(c, p), c.notify))
            else r == s
  {
    hide Reprioritise, Reprioritised;
    ReprioritiseEffect(s, holder, Withdrawn(s.tcb[holder], highest));
  }

  lemma HoldEffect(s: State)
    requires s.current in s.tcb
    ensures var t, r := s.current, HoldMutex(s);
            && OthersStay(s, r, t) && r == s.(tcb := r.tcb)
            && t in r.tcb && r.tcb[t] == s.tcb[t].(mutexesHeld := s.tcb[t].mutexesHeld + 1)
  {
    hide OrderStays, SameElsewhere;
    OneTask(s, s.current, HoldMutex(s).tcb[s.current]);
    FieldsStay(s, HoldMutex(s), s.current);
  }

  /** A task that becomes ready, or changes its priority while ready, is the last of its priority to be picked,
      but for the one pxIndex points at. */
  lemma ReadiedGoesLast(s: State, t: Task)
    requires t in s.tcb
    ensures var line := L(s.lists, Ready(s.tcb[t].priority));
            var after := L(MakeReady(s, t).lists, Ready(s.tcb[t].priority));
            && (line.index == 0 ==> Rotation(after) == Rotation(line) + [t])
            && (line.index > 0 ==> Rotation(after) == Insert(Rotation(line), |line.items| - 1, t))
  {
    hide Rotation, InsertEnd;
    InsertEndIsLast(L(s.lists, Ready(s.tcb[t].priority)), t);
  }
}

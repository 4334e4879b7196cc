/** Task placement: every critical section keeps each task's state list item in exactly one state list,
    the ready list of its own priority when that is a ready list, and its event list item in at most one
    event list. */
module KernelPlacement {
  import opened Rings
  import opened KernelState

  ghost predicate Placed(lists: map<ListId, Line>, place: map<Task, ListId>) {
    && (forall id, t {:trigger t in L(lists, id).items} :: t in L(lists, id).items ==> t in place && place[t] == id)
    && (forall t {:trigger L(lists, place[t])} | t in place :: t in L(lists, place[t]).items)
    && (forall id {:trigger L(lists, id)} :: NoDup(L(lists, id).items))
    && (forall id: ListId {:trigger L(lists, id)} :: !id.Ready? ==> L(lists, id).index == 0)
  }

  ghost predicate EventsPlaced(events: map<EventId, seq<Task>>, waiting: map<Task, EventId>) {
    && (forall e, t {:trigger t in E(events, e)} :: t in E(events, e) ==> t in waiting && waiting[t] == e)
    && (forall t {:trigger E(events, waiting[t])} | t in waiting :: t in E(events, waiting[t]))
    && (forall e {:trigger E(events, e)} :: NoDup(E(events, e)))
  }

  ghost predicate PrioritiesOk(tcb: map<Task, Tcb>, place: map<Task, ListId>, topReady: nat) {
    && topReady < PRIORITIES
    && (forall t | t in tcb :: tcb[t].priority < PRIORITIES && tcb[t].basePriority < PRIORITIES)
    && (forall t | t in tcb && t in place && place[t].Ready? ::
          place[t].priority == tcb[t].priority <= topReady)
  }

  predicate DelayedIds(s: State) {
    (s.delayed == Delayed1 && s.overflow == Delayed2) || (s.delayed == Delayed2 && s.overflow == Delayed1)
  }

  /** What holds even half way through a critical section, when an item is in no list. */
  ghost predicate Core(s: State) {
    && Placed(s.lists, s.place) && EventsPlaced(s.events, s.waiting)
    && PrioritiesOk(s.tcb, s.place, s.topReady) && DelayedIds(s)
    && s.place.Keys <= s.tcb.Keys && s.waiting.Keys <= s.tcb.Keys
  }

  ghost predicate Inv(s: State) {
    && Core(s)
    && s.current in s.tcb && s.place.Keys == s.tcb.Keys
    && (forall t | t in s.waiting && s.waiting[t] == Pending :: s.suspended > 0)
    && (forall t | t in s.place && s.place[t] == Termination :: t !in s.waiting)
    && s.tasks == |s.tcb| && s.cleanups == |L(s.lists, Termination).items|
  }

  // ---- the list operations --------------------------------------------------------------

  lemma PlacedPut(lists: map<ListId, Line>, place: map<Task, ListId>, id: ListId, p: nat, t: Task)
    requires Placed(lists, place) && t !in place && p <= |L(lists, id).items|
    requires !id.Ready? ==> p >= L(lists, id).index
    ensures Placed(lists[id := InsertAt(L(lists, id), p, t)], place[t := id])
  {
    hide NoDup, Insert;
    var after := lists[id := InsertAt(L(lists, id), p, t)];
    assert forall k {:trigger L(after, k)} :: L(after, k) == if k == id then after[id] else L(lists, k);
    InsertMembers(L(lists, id).items, p, t);
  }

  lemma PlacedTake(lists: map<ListId, Line>, place: map<Task, ListId>, t: Task)
    requires Placed(lists, place) && t in place
    ensures t in L(lists, place[t]).items
    ensures Placed(lists[place[t] := Remove(L(lists, place[t]), t)], place - {t})
  {
    hide NoDup, Without, Find;
    var id := place[t];
    var after := lists[id := Remove(L(lists, id), t)];
    assert forall k {:trigger L(after, k)} :: L(after, k) == if k == id then after[id] else L(lists, k);
    WithoutMembers(L(lists, id).items, Find(L(lists, id).items, t));
  }

  lemma EventsPlacedPut(events: map<EventId, seq<Task>>, waiting: map<Task, EventId>, e: EventId, p: nat, t: Task)
    requires EventsPlaced(events, waiting) && t !in waiting && p <= |E(events, e)|
    ensures EventsPlaced(events[e := Insert(E(events, e), p, t)], waiting[t := e])
  {
    hide NoDup, Insert;
    var after := events[e := Insert(E(events, e), p, t)];
    assert forall k {:trigger E(after, k)} :: E(after, k) == if k == e then after[e] else E(events, k);
    InsertMembers(E(events, e), p, t);
  }

  lemma EventsPlacedTake(events: map<EventId, seq<Task>>, waiting: map<Task, EventId>, t: Task)
    requires EventsPlaced(events, waiting) && t in waiting
    ensures t in E(events, waiting[t])
    ensures EventsPlaced(events[waiting[t] := Without(E(events, waiting[t]), Find(E(events, waiting[t]), t))],
                         waiting - {t})
  {
    hide NoDup, Without, Find;
    var e := waiting[t];
    var after := events[e := Without(E(events, e), Find(E(events, e), t))];
    assert forall k {:trigger E(after, k)} :: E(after, k) == if k == e then after[e] else E(events, k);
    WithoutMembers(E(events, e), Find(E(events, e), t));
  }

  lemma TakeOffKeeps(s: State, t: Task)
    requires Core(s) && t in s.place
    ensures Core(TakeOff(s, t))
  {
    PlacedTake(s.lists, s.place, t);
  }

  lemma PutEndKeeps(s: State, id: ListId, t: Task)
    requires Core(s) && t in s.tcb && t !in s.place
    requires id.Ready? ==> id.priority == s.tcb[t].priority <= s.topReady
    ensures Core(PutEnd(s, id, t))
  {
    PlacedPut(s.lists, s.place, id, EndPosition(L(s.lists, id)), t);
  }

  lemma PutSortedKeeps(s: State, id: ListId, t: Task)
    requires Core(s) && t in s.tcb && t !in s.place && !id.Ready?
    ensures Core(PutSorted(s, id, t))
  {
    var line := L(s.lists, id);
    PlacedPut(s.lists, s.place, id, FirstAbove(Wakes(line.items, s.wake), WakeOf(s.wake, t)), t);
  }

  lemma DropEventKeeps(s: State, t: Task)
    requires Core(s)
    ensures Core(DropEvent(s, t))
  {
    if t in s.waiting {
      EventsPlacedTake(s.events, s.waiting, t);
    }
  }

  lemma PutEventEndKeeps(s: State, e: EventId, t: Task)
    requires Core(s) && t in s.tcb && t !in s.waiting
    ensures Core(PutEventEnd(s, e, t))
  {
    EventsPlacedPut(s.events, s.waiting, e, |E(s.events, e)|, t);
    assert Insert(E(s.events, e), |E(s.events, e)|, t) == E(s.events, e) + [t];
  }

  lemma PutEventSortedKeeps(s: State, e: EventId, t: Task)
    requires Core(s) && t in s.tcb && t !in s.waiting
    ensures Core(PutEventSorted(s, e, t))
  {
    var line := E(s.events, e);
    EventsPlacedPut(s.events, s.waiting, e, FirstAbove(EventValues(line, s.tcb), EventValueOf(s.tcb, t)), t);
  }

  lemma MakeReadyKeeps(s: State, t: Task)
    requires Core(s) && t in s.tcb && t !in s.place
    ensures Core(MakeReady(s, t))
  {
    var p := s.tcb[t].priority;
    PutEndKeeps(s.(topReady := if p > s.topReady then p else s.topReady), Ready(p), t);
  }
}

/** The order of the tasks in the lists: whatever moves a few tasks, all the others keep theirs. The order of
    a state list is the one in which its tasks are picked, the order of an event list that of its items. */
module KernelOrder {
  import opened Rings
  import opened KernelState

  /** The members of s that are not in gone, in their order. */
  function Others<T(==)>(s: seq<T>, gone: set<T>): seq<T> {
    if s == [] then [] else (if s[0] in gone then [] else [s[0]]) + Others(s[1..], gone)
  }

  /** In every list the tasks outside moved stand in the same order as before, none added and none missing. */
  ghost predicate OrderStays(s: State, r: State, moved: set<Task>) {
    && (forall id :: Others(Rotation(L(r.lists, id)), moved) == Others(Rotation(L(s.lists, id)), moved))
    && (forall e :: Others(E(r.events, e), moved) == Others(E(s.events, e), moved))
  }

  /** t is picked last from the list, but for the item pxIndex points at, if it points at one. */
  predicate PickedLast(line: Line, t: Task) {
    var order := Rotation(line);
    if line.index == 0 then order != [] && order[|order| - 1] == t
    else |order| > 1 && order[|order| - 2] == t
  }

  predicate IsLast(line: seq<Task>, t: Task) {
    line != [] && line[|line| - 1] == t
  }

  // ---- sequences ------------------------------------------------------------------------------

  lemma {:induction false} OthersOfSum<T>(a: seq<T>, b: seq<T>, gone: set<T>)
    ensures Others(a + b, gone) == Others(a, gone) + Others(b, gone)
  {
    if a == [] {
      assert a + b == b;
    } else {
      assert (a + b)[1..] == a[1..] + b;
      OthersOfSum(a[1..], b, gone);
    }
  }

  lemma OthersOfInsert<T>(s: seq<T>, p: nat, x: T, gone: set<T>)
    requires p <= |s| && x in gone
    ensures Others(Insert(s, p, x), gone) == Others(s, gone)
  {
    InsertIs(s, p, x);
    OthersOfSum(s[..p], [x] + s[p..], gone);
    OthersOfSum([x], s[p..], gone);
    OthersOfSum(s[..p], s[p..], gone);
    hide Insert;
  }

  lemma InsertIs<T>(s: seq<T>, p: nat, x: T)
    requires p <= |s|
    ensures Insert(s, p, x) == s[..p] + ([x] + s[p..]) == s[..p] + [x] + s[p..] && s == s[..p] + s[p..]
  {
  }

  lemma OthersOfWithout<T>(s: seq<T>, p: nat, gone: set<T>)
    requires p < |s| && s[p] in gone
    ensures Others(Without(s, p), gone) == Others(s, gone)
  {
    assert Insert(Without(s, p), p, s[p]) == s;
    OthersOfInsert(Without(s, p), p, s[p], gone);
    hide Others;
  }

  /** What is taken out of two sequences alike leaves them alike. */
  lemma {:induction false} OthersOfOthers<T>(s: seq<T>, gone: set<T>, more: set<T>)
    ensures Others(Others(s, gone), more) == Others(s, gone + more)
  {
    if s != [] {
      OthersOfOthers(s[1..], gone, more);
      OthersOfSum(if s[0] in gone then [] else [s[0]], Others(s[1..], gone), more);
    }
  }

  // ---- rings ------------------------------------------------------------------------------------

  lemma RotationOfInsert<T>(r: Ring<T>, p: nat, x: T)
    requires r.index <= |r.items| && p <= |r.items|
    ensures var q := if r.index > p then |r.items| - r.index + p else p - r.index;
            q <= |r.items| && Rotation(InsertAt(r, p, x)) == Insert(Rotation(r), q, x)
  {
  }

  lemma OrderOfInsert<T>(r: Ring<T>, p: nat, x: T, gone: set<T>)
    requires r.index <= |r.items| && p <= |r.items| && x in gone
    ensures Others(Rotation(InsertAt(r, p, x)), gone) == Others(Rotation(r), gone)
  {
    RotationOfInsert(r, p, x);
    OthersOfInsert(Rotation(r), if r.index > p then |r.items| - r.index + p else p - r.index, x, gone);
    hide Rotation, InsertAt, Insert, Others;
  }

  lemma OrderOfRemove<T>(r: Ring<T>, x: T, gone: set<T>)
    requires r.index <= |r.items| && x in r.items && x in gone
    ensures Others(Rotation(Remove(r, x)), gone) == Others(Rotation(r), gone)
  {
    var p := Find(r.items, x);
    RemoveKeepsRotation(r, p);
    OthersOfWithout(Rotation(r), if p >= r.index then p - r.index else |r.items| - r.index + p, gone);
    hide Rotation, RemoveAt, Without, Others;
  }

  lemma InsertedEndIsLast(line: Line, t: Task)
    ensures PickedLast(InsertEnd(line, t), t)
  {
  }

  // ---- the steps that link and unlink one task ----------------------------------------------------

  lemma OrderTwice(s: State, r: State, q: State, moved: set<Task>)
    requires OrderStays(s, r, moved) && OrderStays(r, q, moved)
    ensures OrderStays(s, q, moved)
  {
    hide Others, Rotation, L, E;
    forall id
      ensures Others(Rotation(L(q.lists, id)), moved) == Others(Rotation(L(s.lists, id)), moved)
    {
      assert Others(Rotation(L(r.lists, id)), moved) == Others(Rotation(L(s.lists, id)), moved);
    }
    forall e
      ensures Others(E(q.events, e), moved) == Others(E(s.events, e), moved)
    {
      assert Others(E(r.events, e), moved) == Others(E(s.events, e), moved);
    }
  }

  lemma OrderOfMore(s: State, r: State, moved: set<Task>, more: set<Task>)
    requires OrderStays(s, r, moved) && moved <= more
    ensures OrderStays(s, r, more)
  {
    hide Rotation, L, E, Others;
    assert moved + more == more;
    forall id
      ensures Others(Rotation(L(r.lists, id)), more) == Others(Rotation(L(s.lists, id)), more)
    {
      OthersOfOthers(Rotation(L(r.lists, id)), moved, more);
      OthersOfOthers(Rotation(L(s.lists, id)), moved, more);
    }
    forall e
      ensures Others(E(r.events, e), more) == Others(E(s.events, e), more)
    {
      OthersOfOthers(E(r.events, e), moved, more);
      OthersOfOthers(E(s.events, e), moved, more);
    }
  }

  lemma SameOrder(s: State, r: State, moved: set<Task>)
    requires r.lists == s.lists && r.events == s.events
    ensures OrderStays(s, r, moved)
  {
    hide Others, Rotation, L, E;
  }

  lemma ListOrder(s: State, r: State, id: ListId, moved: set<Task>)
    requires r.events == s.events && forall k | k != id :: L(r.lists, k) == L(s.lists, k)
    requires Others(Rotation(L(r.lists, id)), moved) == Others(Rotation(L(s.lists, id)), moved)
    ensures OrderStays(s, r, moved)
  {
    hide Others, Rotation, L, E;
  }

  lemma EventOrder(s: State, r: State, e: EventId, moved: set<Task>)
    requires r.lists == s.lists && forall k | k != e :: E(r.events, k) == E(s.events, k)
    requires Others(E(r.events, e), moved) == Others(E(s.events, e), moved)
    ensures OrderStays(s, r, moved)
  {
    hide Others, Rotation, L, E;
  }

  lemma TakeOffOrder(s: State, t: Task)
    requires t in s.place
    ensures OrderStays(s, TakeOff(s, t), {t})
  {
    hide Others, Rotation, OrderStays, Remove;
    var line := L(s.lists, s.place[t]);
    if t in line.items {
      OrderOfRemove(line, t, {t});
    }
    TakeOffLists(s, t);
    ListOrder(s, TakeOff(s, t), s.place[t], {t});
    hide TakeOff, L;
  }

  lemma TakeOffLists(s: State, t: Task)
    requires t in s.place
    ensures var line, r := L(s.lists, s.place[t]), TakeOff(s, t);
            && L(r.lists, s.place[t]) == (if t in line.items then Remove(line, t) else line)
            && forall k | k != s.place[t] :: L(r.lists, k) == L(s.lists, k)
  {
    hide Remove;
  }

  lemma PutEndOrder(s: State, id: ListId, t: Task)
    ensures OrderStays(s, PutEnd(s, id, t), {t}) && PickedLast(L(PutEnd(s, id, t).lists, id), t)
  {
    OrderOfInsert(L(s.lists, id), EndPosition(L(s.lists, id)), t, {t});
    InsertedEndIsLast(L(s.lists, id), t);
    ListOrder(s, PutEnd(s, id, t), id, {t});
    hide Others, Rotation, OrderStays, InsertAt, EndPosition, PickedLast;
  }

  lemma PutSortedOrder(s: State, id: ListId, t: Task)
    ensures OrderStays(s, PutSorted(s, id, t), {t})
  {
    var line := L(s.lists, id);
    OrderOfInsert(line, FirstAbove(Wakes(line.items, s.wake), WakeOf(s.wake, t)), t, {t});
    ListOrder(s, PutSorted(s, id, t), id, {t});
    hide Others, Rotation, OrderStays, InsertAt, FirstAbove, Wakes;
  }

  lemma MakeReadyOrder(s: State, t: Task)
    requires t in s.tcb
    ensures OrderStays(s, MakeReady(s, t), {t})
    ensures PickedLast(L(MakeReady(s, t).lists, Ready(s.tcb[t].priority)), t)
  {
    var p := s.tcb[t].priority;
    var s1 := s.(topReady := if p > s.topReady then p else s.topReady);
    SameOrder(s, s1, {t});
    PutEndOrder(s1, Ready(p), t);
    OrderTwice(s, s1, MakeReady(s, t), {t});
    hide OrderStays, PickedLast, PutEnd;
  }

  lemma DropEventOrder(s: State, t: Task)
    ensures OrderStays(s, DropEvent(s, t), {t})
  {
    if t in s.waiting {
      var line := E(s.events, s.waiting[t]);
      if t in line {
        OthersOfWithout(line, Find(line, t), {t});
      }
      EventOrder(s, DropEvent(s, t), s.waiting[t], {t});
    } else {
      SameOrder(s, s, {t});
    }
    hide Others, OrderStays, Find, Without;
  }

  lemma PutEventEndOrder(s: State, e: EventId, t: Task)
    ensures OrderStays(s, PutEventEnd(s, e, t), {t}) && IsLast(E(PutEventEnd(s, e, t).events, e), t)
  {
    var line := E(s.events, e);
    assert Insert(line, |line|, t) == line + [t];
    OthersOfInsert(line, |line|, t, {t});
    EventOrder(s, PutEventEnd(s, e, t), e, {t});
    hide Others, OrderStays, Insert;
  }

  lemma PutEventSortedOrder(s: State, e: EventId, t: Task)
    ensures OrderStays(s, PutEventSorted(s, e, t), {t})
  {
    var line := E(s.events, e);
    OthersOfInsert(line, FirstAbove(EventValues(line, s.tcb), EventValueOf(s.tcb, t)), t, {t});
    EventOrder(s, PutEventSorted(s, e, t), e, {t});
    hide Others, OrderStays, Insert, FirstAbove, EventValues;
  }
}

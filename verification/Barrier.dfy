/** The rendezvous: a fixed set of tasks with distinct bits, each calling xEventGroupSync with its own bit, the
    union of all the bits and no time-out, again and again. */
module Barrier {
  import opened Rings
  import opened EventGroups

  /** Who takes part, and with which bits. */
  datatype Party = Party(members: seq<Task>, own: map<Task, Bits>)

  /** The event group; the tasks that have been let through but have not returned yet, with the value each will
      return; and how many calls each task has entered and finished. */
  datatype State = State(bits: Bits, waiting: seq<Waiter>, through: map<Task, Bits>,
                         entered: map<Task, nat>, finished: map<Task, nat>)

  datatype Step = Enter(task: Task) | Return(task: Task)

  function Own(p: Party, t: Task): Bits {
    if t in p.own then p.own[t] else 0
  }

  function UnionOf(p: Party, members: seq<Task>): Bits {
    if members == [] then 0 else Union(Own(p, members[0]), UnionOf(p, members[1..]))
  }

  function All(p: Party): Bits {
    UnionOf(p, p.members)
  }

  predicate Apart(a: Bits, b: Bits) {
    a & b == 0
  }

  predicate PartyOk(p: Party) {
    && NoDup(p.members) && p.members != []
    && (forall t | t in p.members :: Own(p, t) != 0 && Free(Own(p, t)))
    && (forall t, u | t in p.members && u in p.members && t != u :: Apart(Own(p, t), Own(p, u)))
  }

  predicate IsWaiting(waiting: seq<Waiter>, t: Task) {
    exists i :: 0 <= i < |waiting| && waiting[i].task == t
  }

  function Get(m: map<Task, nat>, t: Task): nat {
    if t in m then m[t] else 0
  }

  predicate Enabled(p: Party, s: State, e: Step) {
    && e.task in p.members
    && match e
       case Enter(t) => !IsWaiting(s.waiting, t) && t !in s.through
       case Return(t) => t in s.through
  }

  /** The tasks released by the pass are let through with the value they find. */
  function LetThrough(through: map<Task, Bits>, found: seq<Waiter>): map<Task, Bits>
    decreases |found|
  {
    if found == [] then through else LetThrough(through[found[0].task := found[0].value], found[1..])
  }

  /** Entering is the first part of xEventGroupSync; returning hands the value to the caller without control bits. */
  function Apply(p: Party, s: State, e: Step): State
    requires Enabled(p, s, e)
  {
    match e
    case Enter(t) =>
      var r := Synchronise(s.bits, s.waiting, t, Own(p, t), All(p), true);
      var through := LetThrough(s.through, r.found);
      s.(bits := r.bits, waiting := r.waiting, entered := s.entered[t := Get(s.entered, t) + 1],
         through := if r.met then through[t := Union(s.bits, Own(p, t))] else through)
    case Return(t) =>
      s.(through := s.through - {t}, finished := s.finished[t := Get(s.finished, t) + 1])
  }

  /** What the call of a task that has been let through returns. */
  function Returned(s: State, t: Task): Bits
    requires t in s.through
  {
    Cleared(s.through[t], CONTROL)
  }

  // ---- bits ------------------------------------------------------------------------------------

  lemma LessOfUnion(v: Bits, a: Bits, b: Bits)
    requires Contains(v, Union(a, b))
    ensures Contains(v, a) && Contains(v, b)
  {
  }

  lemma UnionOfLess(v: Bits, a: Bits, b: Bits)
    requires Contains(v, a) && Contains(v, b)
    ensures Contains(v, Union(a, b))
  {
  }

  lemma UnionIsFree(a: Bits, b: Bits)
    requires Free(a) && Free(b)
    ensures Free(Union(a, b))
  {
  }

  lemma ContainsUnion(v: Bits, a: Bits, b: Bits)
    ensures Contains(v, Union(a, b)) <==> Contains(v, a) && Contains(v, b)
    ensures Free(a) && Free(b) ==> Free(Union(a, b))
  {
    hide Contains, Union, Free;
    if Contains(v, Union(a, b)) {
      LessOfUnion(v, a, b);
    }
    if Contains(v, a) && Contains(v, b) {
      UnionOfLess(v, a, b);
    }
    if Free(a) && Free(b) {
      UnionIsFree(a, b);
    }
  }

  lemma {:induction false} ContainsAll(p: Party, members: seq<Task>, v: Bits)
    requires forall t | t in members :: Free(Own(p, t))
    ensures Contains(v, UnionOf(p, members)) <==> forall t | t in members :: Contains(v, Own(p, t))
    ensures Free(UnionOf(p, members))
  {
    hide Contains, Union, Free;
    if members == [] {
      ContainsNothing(v);
    } else {
      ContainsUnion(v, Own(p, members[0]), UnionOf(p, members[1..]));
      ContainsAll(p, members[1..], v);
    }
  }

  lemma ContainsNothing(v: Bits)
    ensures Contains(v, 0) && Free(0)
  {
  }

  /** Adding one task's bits changes nothing about another's. */
  lemma StillContained(bits: Bits, a: Bits, b: Bits)
    requires Contains(bits, b)
    ensures Contains(Union(bits, a), b)
  {
  }

  lemma WasContained(bits: Bits, a: Bits, b: Bits)
    requires Apart(a, b) && Contains(Union(bits, a), b)
    ensures Contains(bits, b)
  {
  }

  lemma StillApart(bits: Bits, a: Bits, b: Bits)
    requires Apart(a, b) && Apart(bits, b)
    ensures Apart(Union(bits, a), b)
  {
  }

  lemma AddOwn(bits: Bits, a: Bits, b: Bits)
    requires Apart(a, b)
    ensures Contains(Union(bits, a), b) <==> Contains(bits, b)
    ensures Apart(bits, b) ==> Apart(Union(bits, a), b)
  {
    hide Contains, Union, Apart;
    if Contains(bits, b) {
      StillContained(bits, a, b);
    } else if Contains(Union(bits, a), b) {
      WasContained(bits, a, b);
    }
    if Apart(bits, b) {
      StillApart(bits, a, b);
    }
  }

  lemma AddSelf(bits: Bits, a: Bits)
    ensures Contains(Union(bits, a), a) && Cleared(Union(bits, a), 0) == Union(bits, a)
    ensures a != 0 && Apart(bits, a) ==> !Contains(bits, a)
  {
  }

  lemma ClearAll(v: Bits, all: Bits, own: Bits, cleared: Bits)
    requires Contains(all, own)
    ensures Apart(Cleared(Cleared(v, cleared), all), own)
  {
  }

  lemma ReturnContains(v: Bits, all: Bits)
    requires Free(all) && Contains(v, all)
    ensures Contains(Cleared(v, CONTROL), all) && Contains(Cleared(Union(v, UNBLOCKED), CONTROL), all)
  {
  }

  // ---- the pass over waiting tasks that all wait for the same --------------------------------

  predicate Alike(waiting: seq<Waiter>, value: Bits) {
    forall i | 0 <= i < |waiting| :: waiting[i].value == value
  }

  lemma {:induction false} PassIsAllOrNothing(ws: seq<Waiter>, value: Bits, v: Bits)
    requires Alike(ws, value)
    ensures Satisfied(value, v) ==> Kept(ws, v) == [] && Matched(ws, v) == ws
    ensures !Satisfied(value, v) ==> Kept(ws, v) == ws && Matched(ws, v) == []
  {
    hide Satisfied;
    if ws != [] {
      assert ws == [ws[0]] + ws[1..];
      PassIsAllOrNothing(ws[1..], value, v);
    }
  }

  lemma {:induction false} LetThroughIs(through: map<Task, Bits>, ws: seq<Waiter>, v: Bits)
    ensures forall t :: t in LetThrough(through, Found(ws, v)) <==> t in through || IsWaiting(ws, t)
    ensures forall t | t in LetThrough(through, Found(ws, v)) ::
              LetThrough(through, Found(ws, v))[t] == Union(v, UNBLOCKED)
              || (t in through && LetThrough(through, Found(ws, v))[t] == through[t])
    decreases |ws|
  {
    hide Union;
    if ws != [] {
      var u := Union(v, UNBLOCKED);
      assert Found(ws, v)[1..] == Found(ws[1..], v);
      LetThroughIs(through[ws[0].task := u], ws[1..], v);
      forall t
        ensures IsWaiting(ws, t) <==> t == ws[0].task || IsWaiting(ws[1..], t)
      {
        WaitingTail(ws, t);
      }
    }
  }

  lemma WaitingTail(ws: seq<Waiter>, t: Task)
    requires ws != []
    ensures IsWaiting(ws, t) <==> t == ws[0].task || IsWaiting(ws[1..], t)
  {
    if i :| 0 <= i < |ws| && ws[i].task == t {
      if i > 0 {
        assert ws[1..][i - 1].task == t;
      }
    }
    if i :| 0 <= i < |ws[1..]| && ws[1..][i].task == t {
      assert ws[i + 1].task == t;
    }
  }

  // ---- the invariant ----------------------------------------------------------------------------

  /** Round r is under way: a waiting task has entered it, everybody else has not, and the tasks let through have not
      returned from the round before. */
  predicate Counted(p: Party, s: State, r: nat) {
    forall t | t in p.members ::
      && Get(s.entered, t) == (if IsWaiting(s.waiting, t) then r + 1 else r)
      && Get(s.finished, t) + (if IsWaiting(s.waiting, t) || t in s.through then 1 else 0) == Get(s.entered, t)
      && !(IsWaiting(s.waiting, t) && t in s.through)
  }

  predicate Inv(p: Party, s: State, r: nat) {
    && Alike(s.waiting, Coded(All(p), true, true))
    && (forall t | t in p.members ::
          if IsWaiting(s.waiting, t) then Contains(s.bits, Own(p, t)) else Apart(s.bits, Own(p, t)))
    && (forall t | t in s.through :: Contains(Returned(s, t), All(p)))
    && Counted(p, s, r)
  }

  /** The last task to enter finds everybody else waiting. */
  lemma LastFindsAllWaiting(p: Party, s: State, r: nat, t: Task)
    requires PartyOk(p) && Inv(p, s, r) && Enabled(p, s, Enter(t))
    requires Contains(Union(s.bits, Own(p, t)), All(p))
    ensures forall u | u in p.members && u != t :: IsWaiting(s.waiting, u)
  {
    hide Contains, Union, Apart, Coded, Free;
    ContainsAll(p, p.members, Union(s.bits, Own(p, t)));
    forall u | u in p.members && u != t
      ensures IsWaiting(s.waiting, u)
    {
      AddOwn(s.bits, Own(p, t), Own(p, u));
      AddSelf(s.bits, Own(p, u));
    }
  }

  lemma LastEnters(p: Party, s: State, r: nat, t: Task)
    requires PartyOk(p) && Inv(p, s, r) && Enabled(p, s, Enter(t))
    requires Contains(Union(s.bits, Own(p, t)), All(p))
    ensures Inv(p, Apply(p, s, Enter(t)), r + 1)
  {
    hide Contains, Union, Apart, Coded, Free, Cleared, Satisfied, TestWaitCondition, Kept, Matched, Found, LetThrough,
      Clears, UnionOf;
    var v := Union(s.bits, Own(p, t));
    LastFindsAllWaiting(p, s, r, t);
    ContainsAll(p, p.members, v);
    CodedMeans(All(p), true, true, v);
    PassIsAllOrNothing(s.waiting, Coded(All(p), true, true), v);
    AllWaited(v, All(p));
    LetThroughIs(s.through, s.waiting, v);
    ReturnContains(v, All(p));
    forall u | u in p.members
      ensures Apart(Apply(p, s, Enter(t)).bits, Own(p, u))
    {
      ContainsAll(p, p.members, All(p));
      ContainsItself(All(p));
      ClearAll(v, All(p), Own(p, u), Clears(s.waiting));
    }
  }

  lemma AllWaited(v: Bits, all: Bits)
    ensures TestWaitCondition(v, all, true) <==> Contains(v, all)
  {
  }

  lemma ContainsItself(a: Bits)
    ensures Contains(a, a)
  {
  }

  lemma WaitingAppend(ws: seq<Waiter>, w: Waiter, t: Task)
    ensures IsWaiting(ws + [w], t) <==> t == w.task || IsWaiting(ws, t)
  {
    if i :| 0 <= i < |ws| && ws[i].task == t {
      assert (ws + [w])[i].task == t;
    }
    assert (ws + [w])[|ws|] == w;
  }

  lemma NotLastEnters(p: Party, s: State, r: nat, t: Task)
    requires PartyOk(p) && Inv(p, s, r) && Enabled(p, s, Enter(t))
    requires !Contains(Union(s.bits, Own(p, t)), All(p))
    ensures Inv(p, Apply(p, s, Enter(t)), r)
  {
    hide Contains, Union, Apart, Coded, Free, Cleared, Satisfied, TestWaitCondition, Kept, Matched, LetThrough,
      UnionOf, IsWaiting;
    var v := Union(s.bits, Own(p, t));
    var w := Waiter(t, Coded(All(p), true, true));
    ContainsAll(p, p.members, v);
    CodedMeans(All(p), true, true, v);
    AllWaited(v, All(p));
    PassIsAllOrNothing(s.waiting, Coded(All(p), true, true), v);
    NothingFound(s.through, v);
    AddSelf(s.bits, Own(p, t));
    forall u
      ensures IsWaiting(s.waiting + [w], u) <==> u == t || IsWaiting(s.waiting, u)
    {
      WaitingAppend(s.waiting, w, u);
    }
    forall u | u in p.members && u != t
      ensures Contains(v, Own(p, u)) <==> Contains(s.bits, Own(p, u))
      ensures Apart(s.bits, Own(p, u)) ==> Apart(v, Own(p, u))
    {
      AddOwn(s.bits, Own(p, t), Own(p, u));
    }
  }

  lemma NothingFound(through: map<Task, Bits>, v: Bits)
    ensures LetThrough(through, Found([], v)) == through && Clears([]) == 0
  {
  }

  lemma StepKeeps(p: Party, s: State, e: Step, r: nat) returns (next: nat)
    requires PartyOk(p) && Inv(p, s, r) && Enabled(p, s, e)
    ensures Inv(p, Apply(p, s, e), next)
  {
    match e
    case Enter(t) =>
      if Contains(Union(s.bits, Own(p, t)), All(p)) {
        LastEnters(p, s, r, t);
        next := r + 1;
      } else {
        NotLastEnters(p, s, r, t);
        next := r;
      }
    case Return(t) => next := r;
  }

  // ---- runs ---------------------------------------------------------------------------------------

  predicate Allowed(p: Party, s: State, es: seq<Step>)
    decreases |es|
  {
    es == [] || (Enabled(p, s, es[0]) && Allowed(p, Apply(p, s, es[0]), es[1..]))
  }

  function Run(p: Party, s: State, es: seq<Step>): State
    requires Allowed(p, s, es)
    decreases |es|
  {
    if es == [] then s else Run(p, Apply(p, s, es[0]), es[1..])
  }

  lemma {:induction false} RunKeeps(p: Party, s: State, es: seq<Step>, r: nat) returns (last: nat)
    requires PartyOk(p) && Inv(p, s, r) && Allowed(p, s, es)
    ensures Inv(p, Run(p, s, es), last)
    decreases |es|
  {
    hide Inv, Apply, Enabled, PartyOk;
    last := r;
    if es != [] {
      var next := StepKeeps(p, s, es[0], r);
      last := RunKeeps(p, Apply(p, s, es[0]), es[1..], next);
    }
  }

  function Start(): State {
    State(0, [], map[], map[], map[])
  }

  lemma NoBits(a: Bits)
    ensures Apart(0, a)
  {
  }

  /** The barrier, over every run: no task is more than one round ahead of another; nobody has finished more
      rounds than anybody has entered, so nobody finishes a round before all have entered it; and every call
      returns all the bits. */
  lemma NobodyPassesEarly(p: Party, es: seq<Step>, a: Task, b: Task)
    requires PartyOk(p) && Allowed(p, Start(), es) && a in p.members && b in p.members
    ensures var s := Run(p, Start(), es);
            && Get(s.entered, a) <= Get(s.entered, b) + 1
            && Get(s.finished, a) <= Get(s.entered, b)
            && Get(s.finished, a) <= Get(s.finished, b) + 1
            && (a in s.through ==> Contains(Returned(s, a), All(p)))
  {
    forall t | t in p.members
      ensures Apart(0, Own(p, t))
    {
      NoBits(Own(p, t));
    }
    var r := RunKeeps(p, Start(), es, 0);
    hide Contains, Union, Apart, Coded, Run, Allowed;
  }
}

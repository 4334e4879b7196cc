/** Any number of mutexes and tasks: the held count of every task is the number of mutexes that name it as
    holder, priorities stay in range and fall back to the base priority with the last mutex, and a
    recursive mutex becomes free exactly at the give that balances its first take. */
module MutexAccounting {
  import opened KernelState
  import opened KernelSteps
  import opened Options

  /** A mutex queue: pxMutexHolder, and uxRecursiveCallCount for a recursive mutex. */
  datatype Mutex = Mutex(recursive: bool, holder: Option<Task>, count: nat)

  datatype Mutexes = Mutexes(tcb: map<Task, Tcb>, all: map<nat, Mutex>)

  datatype Step =
    | Take(task: Task, mutex: nat)
    | Give(task: Task, mutex: nat)
    | Lend(task: Task, mutex: nat)
    | Withdraw(mutex: nat, highestWaiting: nat)

  predicate Held(q: Mutexes, t: Task, m: nat) {
    m in q.all && q.all[m].holder == Some(t)
  }

  /** A take succeeds on a free mutex, and on a recursive one that the task already holds; only the holder
      gives. A task that blocks on a held mutex lends its priority to the holder, and one that times
      out takes back what the remaining waiting tasks do not need. */
  predicate Enabled(q: Mutexes, e: Step) {
    e.mutex in q.all && match e
    case Take(t, m) => t in q.tcb && (q.all[m].holder == None || (q.all[m].recursive && Held(q, t, m)))
    case Give(t, m) => t in q.tcb && Held(q, t, m)
    case Lend(t, m) => t in q.tcb && q.all[m].holder.Some? && q.all[m].holder.value in q.tcb
    case Withdraw(m, p) => p < PRIORITIES && q.all[m].holder.Some? && q.all[m].holder.value in q.tcb
  }

  function Hold(c: Tcb): Tcb {
    c.(mutexesHeld := c.mutexesHeld + 1)
  }

  function Apply(q: Mutexes, e: Step): Mutexes
    requires Enabled(q, e)
  {
    match e
    case Take(t, m) =>
      var x := q.all[m];
      if x.holder == None then
        Mutexes(q.tcb[t := Hold(q.tcb[t])],
                q.all[m := x.(holder := Some(t), count := if x.recursive then x.count + 1 else 0)])
      else
        q.(all := q.all[m := x.(count := x.count + 1)])
    case Give(t, m) =>
      var x := q.all[m];
      if x.recursive && x.count > 1 then
        q.(all := q.all[m := x.(count := x.count - 1)])
      else
        Mutexes(if q.tcb[t].mutexesHeld > 0 then q.tcb[t := Returned(q.tcb[t])] else q.tcb,
                q.all[m := x.(holder := None, count := 0)])
    case Lend(t, m) =>
      var h := q.all[m].holder.value;
      q.(tcb := q.tcb[h := Lent(q.tcb[h], q.tcb[t].priority)])
    case Withdraw(m, p) =>
      var h := q.all[m].holder.value;
      q.(tcb := q.tcb[h := Withdrawn(q.tcb[h], p)])
  }

  // ---- the same control blocks as in the kernel ------------------------------------------------

  /** The running task's steps change the control blocks exactly as the scheduler's critical sections do. */
  lemma SameAsKernel(s: State, q: Mutexes, e: Step)
    requires q.tcb == s.tcb && s.current in s.tcb && Enabled(q, e)
    requires (e.Take? || e.Give? || e.Lend?) ==> e.task == s.current
    ensures var x, r := q.all[e.mutex], Apply(q, e);
            match e
            case Take(_, _) => r.tcb == if x.holder == None then HoldMutex(s).tcb else s.tcb
            case Give(t, _) => s.tcb[t].mutexesHeld > 0 ==>
                                 r.tcb == if x.recursive && x.count > 1 then s.tcb else Disinherit(s).tcb
            case Lend(_, _) => r.tcb == Inherit(s, x.holder.value).tcb
            case Withdraw(_, p) => r.tcb == DisinheritAfterTimeout(s, x.holder.value, p).tcb
  {
    if q.all[e.mutex].holder.Some? && q.all[e.mutex].holder.value in s.tcb {
      ControlBlocks(s, q.all[e.mutex].holder.value, if e.Withdraw? then e.highestWaiting else 0);
    }
    hide Reprioritise, Inherit, Disinherit, DisinheritAfterTimeout, Lent, Returned, Withdrawn;
  }

  lemma ControlBlocks(s: State, holder: Task, highestWaiting: nat)
    requires s.current in s.tcb && holder in s.tcb
    ensures s.tcb[s.current].mutexesHeld > 0 ==> Disinherit(s).tcb == s.tcb[s.current := Returned(s.tcb[s.current])]
    ensures Inherit(s, holder).tcb == s.tcb[holder := Lent(s.tcb[holder], s.tcb[s.current].priority)]
    ensures DisinheritAfterTimeout(s, holder, highestWaiting).tcb
            == s.tcb[holder := Withdrawn(s.tcb[holder], highestWaiting)]
  {
    hide Reprioritise, CodedPriority;
    ReprioritiseTcb(s, holder, Lent(s.tcb[holder], s.tcb[s.current].priority));
    ReprioritiseTcb(s, holder, Withdrawn(s.tcb[holder], highestWaiting));
    if s.tcb[s.current].mutexesHeld > 0 {
      ReprioritiseTcb(s, s.current, Returned(s.tcb[s.current]));
    }
    assert s.tcb == s.tcb[holder := s.tcb[holder]];
  }

  // ---- accounting --------------------------------------------------------------------------------

  /** The mutexes that name t as their holder. */
  function MutexesOf(all: map<nat, Mutex>, t: Task): set<nat> {
    set m | m in all && all[m].holder == Some(t)
  }

  predicate TcbOk(c: Tcb) {
    c.basePriority <= c.priority < PRIORITIES && (c.mutexesHeld == 0 ==> c.priority == c.basePriority)
  }

  ghost predicate Accounted(q: Mutexes) {
    && (forall t | t in q.tcb :: TcbOk(q.tcb[t]) && q.tcb[t].mutexesHeld == |MutexesOf(q.all, t)|)
    && (forall m | m in q.all :: q.all[m].recursive ==> (q.all[m].holder == None <==> q.all[m].count == 0))
    && (forall m | m in q.all && q.all[m].holder.Some? :: q.all[m].holder.value in q.tcb)
  }

  lemma MutexesOfChange(all: map<nat, Mutex>, m: nat, x: Mutex, t: Task)
    requires m in all
    ensures MutexesOf(all[m := x], t)
         == (if x.holder == Some(t) then MutexesOf(all, t) + {m} else MutexesOf(all, t) - {m})
  {
  }

  lemma TakeKeeps(q: Mutexes, t: Task, m: nat)
    requires Accounted(q) && Enabled(q, Take(t, m))
    ensures Accounted(Apply(q, Take(t, m)))
  {
    var r := Apply(q, Take(t, m));
    forall u | u in q.tcb
      ensures TcbOk(r.tcb[u]) && r.tcb[u].mutexesHeld == |MutexesOf(r.all, u)|
    {
      MutexesOfChange(q.all, m, r.all[m], u);
      if q.all[m].holder == Some(u) {
        assert MutexesOf(r.all, u) == MutexesOf(q.all, u);
      } else {
        assert m !in MutexesOf(q.all, u);
      }
    }
  }

  lemma ReturnedOk(c: Tcb)
    requires TcbOk(c) && c.mutexesHeld > 0
    ensures TcbOk(Returned(c)) && Returned(c).mutexesHeld == c.mutexesHeld - 1
  {
  }

  lemma GiveKeeps(q: Mutexes, t: Task, m: nat)
    requires Accounted(q) && Enabled(q, Give(t, m))
    ensures Accounted(Apply(q, Give(t, m)))
  {
    hide Returned, TcbOk, MutexesOf;
    var r := Apply(q, Give(t, m));
    HolderCounts(q, t, m);
    ReturnedOk(q.tcb[t]);
    forall u | u in q.tcb
      ensures TcbOk(r.tcb[u]) && r.tcb[u].mutexesHeld == |MutexesOf(r.all, u)|
    {
      MutexesOfChange(q.all, m, r.all[m], u);
      NotHeld(q.all, m, u);
    }
  }

  lemma HolderCounts(q: Mutexes, t: Task, m: nat)
    requires Accounted(q) && t in q.tcb && Held(q, t, m)
    ensures m in MutexesOf(q.all, t) && |MutexesOf(q.all, t)| > 0
  {
    assert m in MutexesOf(q.all, t);
  }

  lemma NotHeld(all: map<nat, Mutex>, m: nat, t: Task)
    requires m in all
    ensures all[m].holder == Some(t) ==> MutexesOf(all, t) + {m} == MutexesOf(all, t)
    ensures all[m].holder != Some(t) ==> MutexesOf(all, t) - {m} == MutexesOf(all, t)
  {
  }

  lemma LendKeeps(q: Mutexes, e: Step)
    requires Accounted(q) && Enabled(q, e) && (e.Lend? || e.Withdraw?)
    ensures Accounted(Apply(q, e))
  {
    var h := q.all[e.mutex].holder.value;
    assert e.mutex in MutexesOf(q.all, h);
    assert |MutexesOf(q.all, h)| > 0;
  }

  /** Mutex accounting over one step. */
  lemma StepKeeps(q: Mutexes, e: Step)
    requires Accounted(q) && Enabled(q, e)
    ensures Accounted(Apply(q, e))
  {
    match e
    case Take(t, m) => TakeKeeps(q, t, m);
    case Give(t, m) => GiveKeeps(q, t, m);
    case Lend(_, _) => LendKeeps(q, e);
    case Withdraw(_, _) => LendKeeps(q, e);
  }

  // ---- runs ----------------------------------------------------------------------------------------

  predicate Allowed(q: Mutexes, es: seq<Step>)
    decreases |es|
  {
    es == [] || (Enabled(q, es[0]) && Allowed(Apply(q, es[0]), es[1..]))
  }

  function Run(q: Mutexes, es: seq<Step>): Mutexes
    requires Allowed(q, es)
    decreases |es|
  {
    if es == [] then q else Run(Apply(q, es[0]), es[1..])
  }

  /** The takes of mutex m along a run, less the gives. */
  function Balance(es: seq<Step>, m: nat): int {
    if es == [] then 0 else
      (match es[0]
       case Take(_, x) => if x == m then 1 else 0
       case Give(_, x) => if x == m then -1 else 0
       case _ => 0) + Balance(es[1..], m)
  }

  lemma {:induction false} RunKeeps(q: Mutexes, es: seq<Step>, m: nat)
    requires Accounted(q) && Allowed(q, es)
    ensures Accounted(Run(q, es)) && Run(q, es).all.Keys == q.all.Keys
    ensures m in q.all && q.all[m].recursive ==>
              Run(q, es).all[m].recursive && Run(q, es).all[m].count == q.all[m].count + Balance(es, m)
    decreases |es|
  {
    hide Accounted;
    if es != [] {
      StepKeeps(q, es[0]);
      CountStep(q, es[0], m);
      RunKeeps(Apply(q, es[0]), es[1..], m);
    }
  }

  lemma CountStep(q: Mutexes, e: Step, m: nat)
    requires Accounted(q) && Enabled(q, e)
    ensures Apply(q, e).all.Keys == q.all.Keys
    ensures m in q.all && q.all[m].recursive ==>
              Apply(q, e).all[m].recursive && Apply(q, e).all[m].count == q.all[m].count + Balance([e], m)
  {
  }

  /** Nobody holds anything, and every task runs at its base priority. */
  predicate Fresh(q: Mutexes) {
    && (forall t | t in q.tcb :: q.tcb[t].basePriority == q.tcb[t].priority < PRIORITIES && q.tcb[t].mutexesHeld == 0)
    && (forall m | m in q.all :: q.all[m].holder == None && q.all[m].count == 0)
  }

  /** Over every run: the held counts are right, priorities are in range and never below the base, and a task
      that holds no mutex runs at its base priority. */
  lemma AccountsAlwaysBalance(q: Mutexes, es: seq<Step>, t: Task)
    requires Fresh(q) && Allowed(q, es) && t in Run(q, es).tcb
    ensures var r := Run(q, es);
            && r.tcb[t].mutexesHeld == |MutexesOf(r.all, t)|
            && r.tcb[t].basePriority <= r.tcb[t].priority < PRIORITIES
            && (r.tcb[t].mutexesHeld == 0 ==> r.tcb[t].priority == r.tcb[t].basePriority)
  {
    FreshIsAccounted(q);
    RunKeeps(q, es, 0);
  }

  lemma FreshIsAccounted(q: Mutexes)
    requires Fresh(q)
    ensures Accounted(q)
  {
    forall t | t in q.tcb
      ensures MutexesOf(q.all, t) == {}
    {
    }
  }

  /** A recursive mutex is free exactly when every take has been given back. */
  lemma FreeOnlyWhenBalanced(q: Mutexes, es: seq<Step>, m: nat)
    requires Fresh(q) && Allowed(q, es) && m in q.all && q.all[m].recursive
    ensures m in Run(q, es).all && Run(q, es).all[m].count == Balance(es, m)
    ensures Run(q, es).all[m].holder == None <==> Balance(es, m) == 0
  {
    FreshIsAccounted(q);
    RunKeeps(q, es, m);
  }
}

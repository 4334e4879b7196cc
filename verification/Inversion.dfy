/** Priority inheritance on one mutex with any number of tasks. Every step is one critical section of
    xQueueSemaphoreTake or of giving the mutex, a time-out, or a context switch; tasks that are not
    waiting for the mutex may also sleep and wake. Base priorities are fixed. */
module Inversion {
  import opened KernelState
  import opened Options
  import opened Rings

  /** Where a task is in xQueueSemaphoreTake; inherited is xInheritanceOccurred, and spent says that the time-out check
      has set xTicksToWait to zero. */
  datatype Phase =
    | Outside
    | Trying(inherited: bool, spent: bool)
    | Blocking(inherited: bool)
    | Waiting(inherited: bool)
    | GivingUp(inherited: bool)
    | Withdrawing

  /** The control blocks, the mutex (holder None means it is free) with the list of tasks waiting for it,
      the ready tasks, and the running task. */
  datatype System = System(tcb: map<Task, Tcb>, holder: Option<Task>, waiters: seq<Task>,
                           ready: set<Task>, phases: map<Task, Phase>, current: Task)

  datatype Step =
    | Call | Try(blockTime: bool) | Block(expired: bool, next: Task) | GiveUp | Withdraw
    | Give(next: Task) | Expire(task: Task) | Sleep(next: Task) | Wake(task: Task) | Switch(next: Task)

  function PhaseOf(q: System, t: Task): Phase {
    if t in q.phases then q.phases[t] else Outside
  }

  function Priority(tcb: map<Task, Tcb>, t: Task): nat {
    if t in tcb then tcb[t].priority else 0
  }

  /** vTaskSwitchContext picks one of the ready tasks of the highest priority. */
  predicate Highest(q: System, ready: set<Task>, t: Task) {
    t in ready && forall u | u in ready :: Priority(q.tcb, u) <= Priority(q.tcb, t)
  }

  /** prvGetDisinheritPriorityAfterTimeout: decoded from the event item value at the head of the list */
  function HighestWaiting(q: System): nat {
    if q.waiters == [] || EventValueOf(q.tcb, q.waiters[0]) > PRIORITIES then 0
    else PRIORITIES - EventValueOf(q.tcb, q.waiters[0])
  }

  /** Put t behind the waiting tasks of its own or a higher priority, as vListInsert does with the event item values. */
  function Queue(tcb: map<Task, Tcb>, waiters: seq<Task>, t: Task): seq<Task> {
    Insert(waiters, FirstAbove(EventValues(waiters, tcb), EventValueOf(tcb, t)), t)
  }

  function Lend(q: System): map<Task, Tcb>
    requires q.holder.Some? && q.holder.value in q.tcb
  {
    q.tcb[q.holder.value := Lent(q.tcb[q.holder.value], Priority(q.tcb, q.current))]
  }

  predicate Enabled(q: System, e: Step) {
    && q.current in q.tcb
    && match e
       case Call => PhaseOf(q, q.current) == Outside && q.holder != Some(q.current)
       case Try(blockTime) =>
         var p := PhaseOf(q, q.current);
         p.Trying? && (p.spent ==> !blockTime) && (p.inherited && !p.spent ==> blockTime)
       case Block(expired, next) =>
         PhaseOf(q, q.current).Blocking?
         && (!expired && q.holder.Some? ==>
               q.holder.value in q.tcb && Highest(q.(tcb := Lend(q)), q.ready - {q.current}, next))
       case GiveUp => PhaseOf(q, q.current).GivingUp?
       case Withdraw => PhaseOf(q, q.current).Withdrawing? && (q.holder.Some? ==> q.holder.value in q.tcb)
       case Give(next) =>
         q.holder == Some(q.current) && PhaseOf(q, q.current) == Outside && q.tcb[q.current].mutexesHeld > 0
         && (Preempts(q) ==> Highest(Given(q), Given(q).ready, next))
       case Expire(t) => PhaseOf(q, t).Waiting? && t in q.waiters
       case Sleep(next) => PhaseOf(q, q.current) == Outside && Highest(q, q.ready - {q.current}, next)
       case Wake(t) => t in q.tcb && PhaseOf(q, t) == Outside
       case Switch(next) => Highest(q, q.ready, next)
  }

  /** The state after the running task has given the mutex back, before any switch: its own priority
      is restored and the first waiting task is ready and will try again. */
  function Given(q: System): System
    requires q.current in q.tcb && q.tcb[q.current].mutexesHeld > 0
  {
    var r := q.(tcb := q.tcb[q.current := Returned(q.tcb[q.current])], holder := None);
    if q.waiters == [] then r else
      var w := q.waiters[0];
      r.(waiters := q.waiters[1..], ready := q.ready + {w},
         phases := q.phases[w := Trying(PhaseInherited(q, w), false)])
  }

  function PhaseInherited(q: System, t: Task): bool {
    match PhaseOf(q, t)
    case Waiting(inherited) => inherited
    case _ => false
  }

  /** Giving makes the kernel yield if it woke a task of higher priority, or if nobody waits and the giver
      lost an inherited priority. */
  predicate Preempts(q: System)
    requires q.current in q.tcb && q.tcb[q.current].mutexesHeld > 0
  {
    if q.waiters != [] then Priority(Given(q).tcb, q.waiters[0]) > Priority(Given(q).tcb, q.current)
    else Returned(q.tcb[q.current]).priority != q.tcb[q.current].priority
  }

  function Apply(q: System, e: Step): System
    requires Enabled(q, e)
  {
    var t := q.current;
    match e
    case Call => q.(phases := q.phases[t := Trying(false, false)])
    case Try(blockTime) =>
      var inherited := PhaseOf(q, t).inherited;
      if q.holder == None then
        q.(holder := Some(t), tcb := q.tcb[t := q.tcb[t].(mutexesHeld := q.tcb[t].mutexesHeld + 1)],
           phases := q.phases[t := Outside])
      else
        q.(phases := q.phases[t := if blockTime then Blocking(inherited) else Outside])
    case Block(expired, next) =>
      var inherited := PhaseOf(q, t).inherited;
      if expired then q.(phases := q.phases[t := GivingUp(inherited)])
      else if q.holder == None then q.(phases := q.phases[t := Trying(inherited, false)])
      else
        q.(tcb := Lend(q), waiters := Queue(q.tcb, q.waiters, t), ready := q.ready - {t}, current := next,
           phases := q.phases[t := Phase.Waiting(q.tcb[q.holder.value].basePriority < Priority(q.tcb, t)
                                           || q.tcb[q.holder.value].priority < Priority(q.tcb, t))])
    case GiveUp =>
      q.(phases := q.phases[t := if q.holder == None then Trying(PhaseOf(q, t).inherited, true)
                                 else if PhaseOf(q, t).inherited then Withdrawing else Outside])
    case Withdraw =>
      var r := q.(phases := q.phases[t := Outside]);
      if q.holder == None then r
      else r.(tcb := q.tcb[q.holder.value := Withdrawn(q.tcb[q.holder.value], HighestWaiting(q))])
    case Give(next) => if Preempts(q) then Given(q).(current := next) else Given(q)
    case Expire(u) =>
      q.(waiters := Without(q.waiters, Find(q.waiters, u)), ready := q.ready + {u},
         phases := q.phases[u := Trying(PhaseOf(q, u).inherited, false)])
    case Sleep(next) => q.(ready := q.ready - {t}, current := next)
    case Wake(u) => q.(ready := q.ready + {u})
    case Switch(next) => q.(current := next)
  }

  // ---- the invariant --------------------------------------------------------------------------

  /** Only the holder runs above its base priority, and event item values code priorities. */
  predicate TcbsOk(tcb: map<Task, Tcb>, holder: Option<Task>) {
    forall t | t in tcb ::
      && tcb[t].eventValue == PRIORITIES - tcb[t].priority
      && tcb[t].basePriority <= tcb[t].priority < PRIORITIES
      && tcb[t].mutexesHeld == (if holder == Some(t) then 1 else 0)
      && (holder != Some(t) ==> tcb[t].priority == tcb[t].basePriority)
  }

  /** The waiting tasks are those in phase Waiting, asleep, none of them the holder. */
  predicate WaitersOk(q: System) {
    && NoDup(q.waiters)
    && (forall t | t in q.waiters :: t in q.tcb && t in q.phases && q.phases[t].Waiting? && t !in q.ready)
    && (forall t | t in q.phases && q.phases[t].Waiting? :: t in q.waiters)
    && (q.holder.Some? ==> q.holder.value in q.tcb && PhaseOf(q, q.holder.value) == Outside)
    && q.current in q.ready && (forall t | t in q.ready :: t in q.tcb)
  }

  /** Highest priority first. */
  predicate InOrder(tcb: map<Task, Tcb>, waiters: seq<Task>) {
    forall i, j | 0 <= i < j < |waiters| :: Priority(tcb, waiters[i]) >= Priority(tcb, waiters[j])
  }

  predicate AllBelow(tcb: map<Task, Tcb>, waiters: seq<Task>, p: nat) {
    forall t | t in waiters :: Priority(tcb, t) <= p
  }

  /** The bound: the holder has at least the priority of every waiting task; when the mutex is free, the
      running task does, and so does a ready task that is about to try again. */
  ghost predicate Bounded(q: System) {
    if q.holder.Some? then AllBelow(q.tcb, q.waiters, Priority(q.tcb, q.holder.value))
    else
      && AllBelow(q.tcb, q.waiters, Priority(q.tcb, q.current))
      && (q.waiters != [] ==>
            exists r ::
              r in q.ready && r in q.phases && q.phases[r].Trying? && AllBelow(q.tcb, q.waiters, Priority(q.tcb, r)))
  }

  ghost predicate Inv(q: System) {
    TcbsOk(q.tcb, q.holder) && WaitersOk(q) && InOrder(q.tcb, q.waiters) && Bounded(q)
  }

  // ---- every step keeps it ----------------------------------------------------------------------

  predicate CodesPriority(tcb: map<Task, Tcb>, t: Task) {
    Priority(tcb, t) < PRIORITIES && EventValueOf(tcb, t) == PRIORITIES - Priority(tcb, t)
  }

  /** The event item values rise exactly when the priorities fall. */
  lemma OrderIsSorted(tcb: map<Task, Tcb>, waiters: seq<Task>)
    requires forall t | t in waiters :: CodesPriority(tcb, t)
    ensures InOrder(tcb, waiters) <==> Sorted(EventValues(waiters, tcb))
  {
    forall i | 0 <= i < |waiters|
      ensures EventValues(waiters, tcb)[i] == PRIORITIES - Priority(tcb, waiters[i])
    {
      assert waiters[i] in waiters;
    }
  }

  lemma QueueInOrder(tcb: map<Task, Tcb>, waiters: seq<Task>, t: Task)
    requires InOrder(tcb, waiters) && forall u | u in waiters || u == t :: CodesPriority(tcb, u)
    ensures InOrder(tcb, Queue(tcb, waiters, t))
    ensures forall u :: u in Queue(tcb, waiters, t) <==> u == t || u in waiters
    ensures NoDup(waiters) && t !in waiters ==> NoDup(Queue(tcb, waiters, t))
  {
    hide InOrder, NoDup, Sorted, CodesPriority;
    var coded, v := EventValues(waiters, tcb), EventValueOf(tcb, t);
    var p := FirstAbove(coded, v);
    OrderIsSorted(tcb, waiters);
    SortedInsertion(coded, v);
    InsertMembers(waiters, p, t);
    assert EventValues(Insert(waiters, p, t), tcb) == Insert(coded, p, v);
    OrderIsSorted(tcb, Insert(waiters, p, t));
  }

  /** The order and the bound depend on priorities only. */
  lemma SamePriorities(tcb: map<Task, Tcb>, tcb': map<Task, Tcb>, waiters: seq<Task>, p: nat)
    requires forall t | t in waiters :: Priority(tcb', t) == Priority(tcb, t)
    ensures InOrder(tcb, waiters) ==> InOrder(tcb', waiters)
    ensures AllBelow(tcb, waiters, p) ==> AllBelow(tcb', waiters, p)
  {
    forall i, j | 0 <= i < j < |waiters| && InOrder(tcb, waiters)
      ensures Priority(tcb', waiters[i]) >= Priority(tcb', waiters[j])
    {
      assert waiters[i] in waiters && waiters[j] in waiters;
    }
  }

  lemma HeadIsHighest(q: System)
    requires InOrder(q.tcb, q.waiters) && forall t | t in q.waiters :: CodesPriority(q.tcb, t)
    ensures AllBelow(q.tcb, q.waiters, HighestWaiting(q)) && HighestWaiting(q) < PRIORITIES
    ensures q.waiters != [] ==> HighestWaiting(q) == Priority(q.tcb, q.waiters[0])
  {
    assert q.waiters != [] ==> q.waiters[0] in q.waiters;
    forall t | t in q.waiters
      ensures Priority(q.tcb, t) <= HighestWaiting(q)
    {
      var i :| 0 <= i < |q.waiters| && q.waiters[i] == t;
      assert Priority(q.tcb, q.waiters[0]) >= Priority(q.tcb, q.waiters[i]);
    }
  }

  lemma WaitersCoded(q: System)
    requires TcbsOk(q.tcb, q.holder) && WaitersOk(q)
    ensures forall t | t in q.waiters || t == q.current :: CodesPriority(q.tcb, t)
  {
  }

  lemma TryKeeps(q: System, blockTime: bool)
    requires Inv(q) && Enabled(q, Try(blockTime))
    ensures Inv(Apply(q, Try(blockTime)))
  {
    var r := Apply(q, Try(blockTime));
    SamePriorities(q.tcb, r.tcb, q.waiters, Priority(q.tcb, q.current));
  }

  /** Lending raises the holder to the running task's priority, if that is higher, and touches nobody else. */
  lemma LendRaises(q: System)
    requires TcbsOk(q.tcb, q.holder) && q.holder.Some? && q.holder.value in q.tcb && q.current in q.tcb
    ensures TcbsOk(Lend(q), q.holder) && Lend(q).Keys == q.tcb.Keys
    ensures forall t | t != q.holder.value :: Priority(Lend(q), t) == Priority(q.tcb, t)
    ensures var own, other := Priority(q.tcb, q.holder.value), Priority(q.tcb, q.current);
            Priority(Lend(q), q.holder.value) == if own < other then other else own
  {
  }

  lemma PlacedAmongWaiters(q: System, next: Task)
    requires Inv(q) && Enabled(q, Block(false, next)) && q.holder.Some?
    ensures WaitersOk(Apply(q, Block(false, next)))
    ensures q.holder.value !in Queue(q.tcb, q.waiters, q.current)
  {
    hide Lend, TcbsOk, Bounded, InOrder, Queue;
    QueueIs(q);
    LendRaises(q);
  }

  lemma QueueIs(q: System)
    requires Inv(q) && q.current in q.tcb && PhaseOf(q, q.current).Blocking?
    ensures InOrder(q.tcb, Queue(q.tcb, q.waiters, q.current)) && NoDup(Queue(q.tcb, q.waiters, q.current))
    ensures forall u :: u in Queue(q.tcb, q.waiters, q.current) <==> u == q.current || u in q.waiters
  {
    WaitersCoded(q);
    QueueInOrder(q.tcb, q.waiters, q.current);
    hide Queue, TcbsOk, Bounded, InOrder, CodesPriority;
  }

  lemma BlockKeeps(q: System, expired: bool, next: Task)
    requires Inv(q) && Enabled(q, Block(expired, next))
    ensures Inv(Apply(q, Block(expired, next)))
  {
    if !expired && q.holder.Some? {
      PlacedAmongWaiters(q, next);
      QueueIs(q);
      LendRaises(q);
      var r := Apply(q, Block(expired, next));
      SamePriorities(q.tcb, r.tcb, r.waiters, Priority(r.tcb, q.holder.value));
      hide Lend, TcbsOk, Queue, InOrder, WaitersOk;
    } else {
      hide TcbsOk, InOrder, Lend, Queue;
    }
  }

  /** Withdrawing leaves the holder with the larger of its own priority and the highest that waits, and touches
      nobody else. */
  lemma WithdrawnCovers(q: System)
    requires TcbsOk(q.tcb, q.holder) && q.holder.Some? && q.holder.value in q.tcb
    requires HighestWaiting(q) < PRIORITIES
    ensures var tcb := q.tcb[q.holder.value := Withdrawn(q.tcb[q.holder.value], HighestWaiting(q))];
            && TcbsOk(tcb, q.holder) && tcb.Keys == q.tcb.Keys
            && (forall t | t != q.holder.value :: Priority(tcb, t) == Priority(q.tcb, t))
            && var own := q.tcb[q.holder.value].basePriority;
            Priority(tcb, q.holder.value) == if own < HighestWaiting(q) then HighestWaiting(q) else own
  {
    hide HighestWaiting;
  }

  lemma WithdrawKeeps(q: System)
    requires Inv(q) && Enabled(q, Withdraw)
    ensures Inv(Apply(q, Withdraw))
  {
    hide Withdrawn, TcbsOk, InOrder, CodesPriority, HighestWaiting;
    WaitersCoded(q);
    HeadIsHighest(q);
    var r := Apply(q, Withdraw);
    if q.holder.Some? {
      WithdrawnCovers(q);
    }
    SamePriorities(q.tcb, r.tcb, q.waiters, HighestWaiting(q));
  }

  /** Giving restores the giver's own priority and touches nobody else. */
  lemma ReturnedRestores(q: System)
    requires TcbsOk(q.tcb, q.holder) && q.current in q.tcb && q.tcb[q.current].mutexesHeld > 0
             && q.holder == Some(q.current)
    ensures var tcb := q.tcb[q.current := Returned(q.tcb[q.current])];
            && TcbsOk(tcb, None) && tcb.Keys == q.tcb.Keys
            && Priority(tcb, q.current) == q.tcb[q.current].basePriority
            && forall t | t != q.current :: Priority(tcb, t) == Priority(q.tcb, t)
  {
  }

  /** What giving does before any switch: the giver is back at its own priority; the head of the list is ready to try
      again, and has at least the priority of everyone behind it. The giver yields exactly to a task of a higher
      priority, or, when nobody waits, if it has lost an inherited one. */
  lemma GivenIs(q: System)
    requires Inv(q) && q.current in q.tcb && q.tcb[q.current].mutexesHeld > 0 && q.holder == Some(q.current)
    ensures var g := Given(q);
            && TcbsOk(g.tcb, None) && WaitersOk(g) && InOrder(g.tcb, g.waiters)
            && g.holder == None && g.current == q.current
            && (q.waiters != [] ==>
                  var w := q.waiters[0];
                  && w in g.ready && w in g.phases && g.phases[w].Trying? && q.waiters == [w] + g.waiters
                  && AllBelow(g.tcb, g.waiters, Priority(g.tcb, w)))
            && (q.waiters == [] ==> g.waiters == [])
            && Priority(g.tcb, q.current) == q.tcb[q.current].basePriority
            && (Preempts(q) <==>
                  if q.waiters != [] then Priority(q.tcb, q.waiters[0]) > q.tcb[q.current].basePriority
                  else q.tcb[q.current].priority != q.tcb[q.current].basePriority)
  {
    hide Returned, TcbsOk, CodesPriority, HighestWaiting;
    ReturnedRestores(q);
    WaitersCoded(q);
    HeadIsHighest(q);
    SamePriorities(q.tcb, Given(q).tcb, q.waiters, HighestWaiting(q));
  }

  lemma GiveKeeps(q: System, next: Task)
    requires Inv(q) && Enabled(q, Give(next))
    ensures Inv(Apply(q, Give(next)))
  {
    hide TcbsOk, InOrder, Given, Returned, NoDup;
    GivenIs(q);
  }

  lemma MoveKeeps(q: System, e: Step)
    requires Inv(q) && Enabled(q, e) && (e.Call? || e.GiveUp? || e.Sleep? || e.Wake? || e.Switch?)
    ensures Inv(Apply(q, e))
  {
  }

  lemma ExpireKeeps(q: System, t: Task)
    requires Inv(q) && Enabled(q, Expire(t))
    ensures Inv(Apply(q, Expire(t)))
  {
    hide TcbsOk, Without, Find;
    var p := Find(q.waiters, t);
    WithoutMembers(q.waiters, p);
    WithoutOrder(q.tcb, q.waiters, p);
  }

  lemma WithoutOrder(tcb: map<Task, Tcb>, waiters: seq<Task>, p: nat)
    requires p < |waiters| && InOrder(tcb, waiters)
    ensures InOrder(tcb, Without(waiters, p))
  {
  }

  lemma StepKeeps(q: System, e: Step)
    requires Inv(q) && Enabled(q, e)
    ensures Inv(Apply(q, e))
  {
    hide Inv, Enabled, Apply;
    match e
    case Try(blockTime) => TryKeeps(q, blockTime);
    case Block(expired, next) => BlockKeeps(q, expired, next);
    case Withdraw => WithdrawKeeps(q);
    case Give(next) => GiveKeeps(q, next);
    case Expire(t) => ExpireKeeps(q, t);
    case _ => MoveKeeps(q, e);
  }

  // ---- inheritance ends -------------------------------------------------------------------------

  /** The task waits for the mutex, or has waited and not been through giving up yet, and knows that the holder has
      inherited. */
  predicate StillLends(p: Phase) {
    match p
    case Trying(inherited, spent) => inherited && !spent
    case Blocking(inherited) => inherited
    case Waiting(inherited) => inherited
    case GivingUp(inherited) => inherited
    case Withdrawing => true
    case Outside => false
  }

  ghost predicate LentBy(q: System, p: nat) {
    exists t | t in q.phases :: StillLends(q.phases[t]) && Priority(q.tcb, t) >= p
  }

  /** What the holder has above its own priority it has from a task that still lends it; and every waiting task of
      a priority above the holder's own does. */
  ghost predicate Justified(q: System) {
    q.holder.Some? && q.holder.value in q.tcb ==>
      var h, base := q.holder.value, q.tcb[q.holder.value].basePriority;
      && (Priority(q.tcb, h) > base ==> LentBy(q, Priority(q.tcb, h)))
      && forall t | t in q.waiters && t in q.phases && Priority(q.tcb, t) > base :: StillLends(q.phases[t])
  }

  /** Whoever lent that much still does. */
  lemma LendersStay(q: System, r: System, p: nat)
    requires forall t | t in q.phases && StillLends(q.phases[t]) && Priority(q.tcb, t) >= p ::
               t in r.phases && StillLends(r.phases[t]) && Priority(r.tcb, t) >= p
    ensures LentBy(q, p) ==> LentBy(r, p)
  {
    if LentBy(q, p) {
      var t :| t in q.phases && StillLends(q.phases[t]) && Priority(q.tcb, t) >= p;
      assert t in r.phases && StillLends(r.phases[t]) && Priority(r.tcb, t) >= p;
    }
  }

  /** Steps that change no priority and no holder, but phases. */
  lemma PhasesJustified(q: System, r: System)
    requires Justified(q) && r.tcb == q.tcb && r.holder == q.holder
    requires forall t | t in r.waiters ::
               t in q.waiters && (t in q.phases ==> t in r.phases && r.phases[t] == q.phases[t])
    requires forall t | t in r.waiters && t in r.phases :: t in q.phases
    requires forall t | t in q.phases && StillLends(q.phases[t]) :: t in r.phases && StillLends(r.phases[t])
    ensures Justified(r)
  {
    if q.holder.Some? && q.holder.value in q.tcb {
      LendersStay(q, r, Priority(q.tcb, q.holder.value));
    }
    hide LentBy;
  }

  lemma TryJustified(q: System, blockTime: bool)
    requires Inv(q) && Justified(q) && Enabled(q, Try(blockTime))
    ensures Justified(Apply(q, Try(blockTime)))
  {
    hide InOrder, NoDup, LentBy;
    if q.holder.Some? {
      hide Justified;
      PhasesJustified(q, Apply(q, Try(blockTime)));
    }
  }

  lemma BlockJustified(q: System, expired: bool, next: Task)
    requires Inv(q) && Justified(q) && Enabled(q, Block(expired, next))
    ensures Justified(Apply(q, Block(expired, next)))
  {
    hide InOrder, NoDup, LentBy;
    if expired {
      hide Justified;
      PhasesJustified(q, Apply(q, Block(expired, next)));
    } else if q.holder.Some? {
      LendJustified(q, next);
    }
  }

  lemma LendJustified(q: System, next: Task)
    requires Inv(q) && Justified(q) && Enabled(q, Block(false, next)) && q.holder.Some?
    ensures Justified(Apply(q, Block(false, next)))
  {
    QueueIs(q);
    LendRaises(q);
    var h, t, r := q.holder.value, q.current, Apply(q, Block(false, next));
    assert Lend(q)[h].basePriority == q.tcb[h].basePriority;
    hide InOrder, Queue, Lend;
    if Priority(q.tcb, h) < Priority(q.tcb, t) {
      assert StillLends(r.phases[t]) && Priority(r.tcb, t) >= Priority(r.tcb, h);
    } else if Priority(q.tcb, h) > q.tcb[h].basePriority {
      LendersStay(q, r, Priority(q.tcb, h));
    }
  }

  lemma WithdrawJustified(q: System)
    requires Inv(q) && Justified(q) && Enabled(q, Withdraw)
    ensures Justified(Apply(q, Withdraw))
  {
    WaitersCoded(q);
    HeadIsHighest(q);
    if q.holder.Some? {
      WithdrawnCovers(q);
      var h, r := q.holder.value, Apply(q, Withdraw);
      assert r.tcb[h].basePriority == q.tcb[h].basePriority;
      if q.waiters != [] {
        assert q.waiters[0] in q.waiters;
      }
    }
    hide InOrder, NoDup, Withdrawn, HighestWaiting, CodesPriority;
  }

  lemma MoveJustified(q: System, e: Step)
    requires Inv(q) && Justified(q) && Enabled(q, e) && (e.Call? || e.GiveUp? || e.Sleep? || e.Wake? || e.Switch?)
    ensures Justified(Apply(q, e))
  {
    hide InOrder, NoDup, LentBy, Justified, TcbsOk, Bounded;
    PhasesJustified(q, if q.holder.Some? then Apply(q, e) else q);
    NobodyHolds(Apply(q, e));
  }

  lemma NobodyHolds(q: System)
    ensures q.holder == None ==> Justified(q)
  {
  }

  lemma ExpireJustified(q: System, t: Task)
    requires Inv(q) && Justified(q) && Enabled(q, Expire(t))
    ensures Justified(Apply(q, Expire(t)))
  {
    hide InOrder, LentBy, Justified, TcbsOk, Bounded;
    WithoutMembers(q.waiters, Find(q.waiters, t));
    PhasesJustified(q, Apply(q, Expire(t)));
    hide Without, Find, NoDup;
  }

  lemma StepJustified(q: System, e: Step)
    requires Inv(q) && Justified(q) && Enabled(q, e)
    ensures Justified(Apply(q, e))
  {
    hide Inv, Enabled, Apply, Justified;
    match e
    case Try(blockTime) => TryJustified(q, blockTime);
    case Block(expired, next) => BlockJustified(q, expired, next);
    case Withdraw => WithdrawJustified(q);
    case Give(next) => GiveJustified(q, next);
    case Expire(t) => ExpireJustified(q, t);
    case _ => MoveJustified(q, e);
  }

  lemma GiveJustified(q: System, next: Task)
    requires Enabled(q, Give(next))
    ensures Justified(Apply(q, Give(next)))
  {
    hide Justified;
    NobodyHolds(Apply(q, Give(next)));
  }

  // ---- runs ---------------------------------------------------------------------------------------

  ghost predicate Allowed(q: System, es: seq<Step>)
    decreases |es|
  {
    es == [] || (Enabled(q, es[0]) && Allowed(Apply(q, es[0]), es[1..]))
  }

  ghost function Run(q: System, es: seq<Step>): System
    requires Allowed(q, es)
    decreases |es|
  {
    if es == [] then q else Run(Apply(q, es[0]), es[1..])
  }

  lemma {:induction false} RunKeeps(q: System, es: seq<Step>)
    requires Inv(q) && Allowed(q, es)
    ensures Inv(Run(q, es))
    decreases |es|
  {
    hide Inv, Enabled, Apply;
    if es != [] {
      StepKeeps(q, es[0]);
      RunKeeps(Apply(q, es[0]), es[1..]);
    }
  }

  /** Tasks at their base priorities, the mutex free, nobody in a take, one of the ready tasks running. */
  predicate Initial(q: System) {
    && (forall t | t in q.tcb :: q.tcb[t].basePriority == q.tcb[t].priority < PRIORITIES && q.tcb[t].mutexesHeld == 0
                                 && q.tcb[t].eventValue == PRIORITIES - q.tcb[t].priority)
    && q.holder == None && q.waiters == [] && q.phases == map[]
    && q.current in q.ready && forall t | t in q.ready :: t in q.tcb
  }

  /** The inversion bound, in every reachable state: a task waiting for the mutex never has a higher priority than
      the holder; and when the mutex is free although tasks wait, never a higher one than the running task. */
  lemma InversionIsBounded(q: System, es: seq<Step>, w: Task)
    requires Initial(q) && Allowed(q, es) && w in Run(q, es).waiters
    ensures var r := Run(q, es);
            if r.holder.Some? then Priority(r.tcb, w) <= Priority(r.tcb, r.holder.value)
            else Priority(r.tcb, w) <= Priority(r.tcb, r.current)
  {
    RunKeeps(q, es);
    hide Run, Allowed;
  }

  lemma {:induction false} RunJustified(q: System, es: seq<Step>)
    requires Inv(q) && Justified(q) && Allowed(q, es)
    ensures Justified(Run(q, es))
    decreases |es|
  {
    hide Inv, Enabled, Apply, Justified;
    if es != [] {
      StepKeeps(q, es[0]);
      StepJustified(q, es[0]);
      RunJustified(Apply(q, es[0]), es[1..]);
    }
  }

  /** Nobody inherits more than is needed, nor longer: in every reachable state the holder runs at its own priority, or
      some task of at least the priority it runs at waits for the mutex, or has stopped waiting and will take the
      inheritance back before it leaves. */
  lemma InheritanceIsNeeded(q: System, es: seq<Step>)
    requires Initial(q) && Allowed(q, es) && Run(q, es).holder.Some?
    ensures var r := Run(q, es); var h := r.holder.value;
            && h in r.tcb
            && (r.tcb[h].priority == r.tcb[h].basePriority
                || exists t | t in r.phases :: StillLends(r.phases[t]) && Priority(r.tcb, t) >= r.tcb[h].priority)
  {
    RunKeeps(q, es);
    RunJustified(q, es);
    hide Run, Allowed;
  }

  /** Inheritance ends with the mutex: whoever does not hold it runs at its base priority. */
  lemma OnlyTheHolderInherits(q: System, es: seq<Step>, t: Task)
    requires Initial(q) && Allowed(q, es) && t in Run(q, es).tcb && Run(q, es).holder != Some(t)
    ensures Run(q, es).tcb[t].priority == Run(q, es).tcb[t].basePriority
  {
    RunKeeps(q, es);
    hide Run, Allowed;
  }
}

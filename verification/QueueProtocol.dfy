/** Blocking on a queue as a protocol between tasks and interrupts. Every step is one critical section of
    xQueueGenericSend, xQueueReceive, xQueuePeek, xQueueSemaphoreTake, prvLockQueue, prvUnlockQueue or an
    interrupt-safe function; tasks may be preempted between any two of their steps, and interrupts
    may come anywhere. Proved: no wake-up is lost. */
module QueueProtocol {
  import opened Rings
  import opened Options

  type Task = nat

  /** queueUNLOCKED, and the largest value of the int8_t lock counters */
  const UNLOCKED: int := -1
  const LOCK_MAX: int := 127

  /** One side of the queue: the tasks waiting for data, with cTxLock counting the data posted while the
      queue is locked; or the tasks waiting for space, with cRxLock counting the items removed. woken
      holds the tasks taken off the list that have not looked at the queue since. */
  datatype Side = Side(wait: seq<Task>, woken: set<Task>, lock: int)

  datatype Op = Receive | Peek | Send
  /** What the task will do once it has unlocked the queue and resumed the scheduler. */
  datatype Next = Block | Retry | GiveUp
  datatype Phase =
    | Idle | Trying(op: Op) | Suspending(op: Op)
    | Locking(op: Op) | Timing(op: Op) | Testing(op: Op) | Placing(op: Op)
    | UnlockingTx(op: Op, next: Next) | UnlockingRx(op: Op, next: Next) | Resuming(op: Op, next: Next)
    | Waiting(op: Op) | Deciding(op: Op)

  /** owner is the task that has suspended the scheduler, if any. */
  datatype Queue = Queue(length: nat, itemSize: nat, messages: nat, data: Side, space: Side,
                         phases: map<Task, Phase>, owner: Option<Task>)

  datatype Step =
    | Call(task: Task, op: Op) | Try(task: Task, blockTime: bool) | Overwrite(task: Task)
    | Suspend(task: Task) | Lock(task: Task) | CheckTime(task: Task, expired: bool) | Test(task: Task)
    | Place(task: Task, position: nat) | UnlockTx(task: Task) | UnlockRx(task: Task) | Resume(task: Task)
    | Decide(task: Task) | RunAgain(task: Task) | TimeOut(task: Task)
    | IsrSend | IsrOverwrite | IsrReceive

  function PhaseOf(q: Queue, t: Task): Phase {
    if t in q.phases then q.phases[t] else Idle
  }

  function Count(lock: int): nat {
    if lock > 0 then lock else 0
  }

  // ---- one side ------------------------------------------------------------------------------

  /** Take the first waiting task off the list, if there is one. */
  function Signal(s: Side): Side {
    if s.wait == [] then s else s.(wait := s.wait[1..], woken := s.woken + {s.wait[0]})
  }

  /** One half of prvUnlockQueue */
  function Unlock(s: Side): Side
    decreases Count(s.lock)
  {
    if s.lock > 0 && s.wait != [] then Unlock(Signal(s).(lock := s.lock - 1)) else s.(lock := UNLOCKED)
  }

  function LockSide(s: Side): Side {
    if s.lock == UNLOCKED then s.(lock := 0) else s
  }

  /** A value stored in an int8_t. */
  function Int8(x: int): int {
    (x + 128) % 256 - 128
  }

  /** What an interrupt does to the side it serves. */
  function IsrSignal(s: Side): Side {
    if s.lock == UNLOCKED then Signal(s) else s.(lock := Int8(s.lock + 1))
  }

  /** The task looks at the queue. */
  function Recheck(s: Side, t: Task): Side {
    s.(woken := s.woken - {t})
  }

  /** If somebody waits, then whatever is available is spoken for: by a woken task that has not looked yet,
      or by a count that prvUnlockQueue will turn into a wake-up. */
  predicate Balanced(s: Side, available: int) {
    s.wait != [] ==> available <= |s.woken| + Count(s.lock)
  }

  predicate SideOk(s: Side) {
    NoDup(s.wait) && s.lock >= UNLOCKED && forall t | t in s.wait :: t !in s.woken
  }

  /** No task joins the list, and none is woken that was not on it. */
  predicate Shrinks(s: Side, r: Side) {
    && (forall t | t in r.wait :: t in s.wait)
    && (forall t | t in r.woken :: t in s.woken || t in s.wait)
  }

  /** One side after a step that makes the given number of items or places available. */
  predicate Served(s: Side, r: Side, available: int) {
    SideOk(r) && Balanced(r, available) && Shrinks(s, r)
  }

  /** A wake-up goes to the head of the list, which has the highest priority and has waited longest, and to nobody
      else. */
  lemma SignalTakesHead(s: Side)
    ensures var r := Signal(s);
            if s.wait == [] then r == s
            else s.wait == [s.wait[0]] + r.wait && r.woken == s.woken + {s.wait[0]} && r.lock == s.lock
  {
  }

  /** An interrupt wakes the head of the list at once, or leaves that to the task that has locked the queue. */
  lemma IsrSignalIs(s: Side)
    requires -1 <= s.lock <= 127
    ensures var r := IsrSignal(s);
            && (s.lock == -1 && s.wait != [] ==>
                  s.wait == [s.wait[0]] + r.wait && r.woken == s.woken + {s.wait[0]} && r.lock == -1)
            && (s.lock == -1 && s.wait == [] ==> r == s)
            && (0 <= s.lock < 127 ==> r == s.(lock := s.lock + 1))
            && (s.lock == 127 ==> r == s.(lock := -128))
  {
    SignalTakesHead(s);
  }

  /** Unlocking wakes as many tasks as were counted, or all there are, from the head of the list on. */
  lemma {:induction false} UnlockWakes(s: Side)
    ensures var r := Unlock(s); var n := if Count(s.lock) < |s.wait| then Count(s.lock) else |s.wait|;
            && s.wait == s.wait[..n] + r.wait && r.lock == -1
            && forall t :: t in r.woken <==> t in s.woken || t in s.wait[..n]
    decreases Count(s.lock)
  {
    if s.lock > 0 && s.wait != [] {
      UnlockWakes(Signal(s).(lock := s.lock - 1));
    }
  }

  lemma SignalKeeps(s: Side, available: int)
    requires SideOk(s) && Balanced(s, available)
    ensures Served(s, Signal(s), available + 1) && Served(s, Signal(s), available) && Signal(s).lock == s.lock
  {
  }

  lemma {:induction false} UnlockKeeps(s: Side, available: int)
    requires SideOk(s) && Balanced(s, available)
    ensures Served(s, Unlock(s), available) && Unlock(s).lock == UNLOCKED
    decreases Count(s.lock)
  {
    if s.lock > 0 && s.wait != [] {
      SignalKeeps(s, available - 1);
      UnlockKeeps(Signal(s).(lock := s.lock - 1), available);
    }
  }

  lemma LockKeeps(s: Side, available: int)
    requires SideOk(s) && Balanced(s, available)
    ensures Served(s, LockSide(s), available) && LockSide(s).lock >= 0
  {
  }

  lemma IsrSignalKeeps(s: Side, available: int)
    requires SideOk(s) && Balanced(s, available) && s.lock < LOCK_MAX
    ensures Served(s, IsrSignal(s), available + 1) && Served(s, IsrSignal(s), available)
    ensures s.lock >= 0 ==> IsrSignal(s).lock == s.lock + 1
    ensures s.lock == UNLOCKED ==> IsrSignal(s).lock == s.lock
  {
    SignalKeeps(s, available);
  }

  lemma RecheckKeeps(s: Side, t: Task, available: int)
    requires SideOk(s) && Balanced(s, available)
    ensures Served(s, Recheck(s, t), available - 1) && Recheck(s, t).lock == s.lock
    ensures available <= 0 ==> Served(s, Recheck(s, t), available)
  {
  }

  /** A peek leaves its item to the next waiting task. */
  lemma PeekKeeps(s: Side, t: Task, available: int)
    requires SideOk(s) && Balanced(s, available) && t !in s.wait
    ensures var r := Signal(Recheck(s, t)); Served(s, r, available) && t !in r.wait && t !in r.woken && r.lock == s.lock
  {
    RecheckKeeps(s, t, available);
    SignalKeeps(Recheck(s, t), available - 1);
  }

  // ---- steps ---------------------------------------------------------------------------------

  function SetPhase(q: Queue, t: Task, p: Phase): Queue {
    q.(phases := q.phases[t := p])
  }

  predicate OwnerPhase(p: Phase) {
    p.Locking? || p.Timing? || p.Testing? || p.Placing? || p.UnlockingTx? || p.UnlockingRx? || p.Resuming?
  }

  function SideOf(q: Queue, op: Op): Side {
    if op == Send then q.space else q.data
  }

  function SetSide(q: Queue, op: Op, s: Side): Queue {
    if op == Send then q.(space := s) else q.(data := s)
  }

  /** What the side of op is waiting for. */
  function Available(q: Queue, op: Op): int {
    if op == Send then q.length - q.messages else q.messages
  }

  /** The count after overwriting. prvCopyDataToQueue takes an overwritten item off the count only if items have
      bytes. */
  function Overwritten(itemSize: nat, messages: nat): nat {
    if itemSize > 0 && messages > 0 then messages else messages + 1
  }

  /** The overwritten item is taken off the count, or there is none. */
  predicate OverwriteFits(length: nat, itemSize: nat, messages: nat) {
    itemSize > 0 || messages < length
  }

  predicate Enabled(q: Queue, e: Step) {
    match e
    case IsrSend => q.messages < q.length && q.data.lock < LOCK_MAX
    case IsrOverwrite => q.length == 1 && OverwriteFits(q.length, q.itemSize, q.messages) && q.data.lock < LOCK_MAX
    case IsrReceive => q.messages > 0 && q.space.lock < LOCK_MAX
    case Call(t, _) => q.owner == None && PhaseOf(q, t) == Idle
    case Overwrite(t) =>
      q.owner == None && PhaseOf(q, t) == Idle && q.length == 1 && OverwriteFits(q.length, q.itemSize, q.messages)
    case Try(t, _) => q.owner == None && PhaseOf(q, t).Trying?
    case Suspend(t) => q.owner == None && PhaseOf(q, t).Suspending?
    case Lock(t) => q.owner == Some(t) && PhaseOf(q, t).Locking?
    case CheckTime(t, _) => q.owner == Some(t) && PhaseOf(q, t).Timing?
    case Test(t) => q.owner == Some(t) && PhaseOf(q, t).Testing?
    case Place(t, p) => q.owner == Some(t) && PhaseOf(q, t).Placing? && p <= |SideOf(q, PhaseOf(q, t).op).wait|
    case UnlockTx(t) => q.owner == Some(t) && PhaseOf(q, t).UnlockingTx?
    case UnlockRx(t) => q.owner == Some(t) && PhaseOf(q, t).UnlockingRx?
    case Resume(t) => q.owner == Some(t) && PhaseOf(q, t).Resuming?
    case Decide(t) => q.owner == None && PhaseOf(q, t).Deciding?
    case RunAgain(t) => q.owner == None && PhaseOf(q, t).Waiting? && t !in SideOf(q, PhaseOf(q, t).op).wait
    case TimeOut(t) => q.owner == None && PhaseOf(q, t).Waiting? && t in SideOf(q, PhaseOf(q, t).op).wait
  }

  /** The critical section at the top of the loops: succeed, give up for want of a block time, or go on to block. */
  function TryOp(q: Queue, t: Task, op: Op, blockTime: bool): Queue {
    if Available(q, op) > 0 then
      SetPhase(match op
               case Receive => q.(messages := q.messages - 1, data := Recheck(q.data, t), space := Signal(q.space))
               case Peek => q.(data := Signal(Recheck(q.data, t)))
               case Send => q.(messages := q.messages + 1, space := Recheck(q.space, t), data := Signal(q.data)),
               t, Idle)
    else
      SetPhase(SetSide(q, op, Recheck(SideOf(q, op), t)), t, if blockTime then Suspending(op) else Idle)
  }

  function Apply(q: Queue, e: Step): Queue
    requires Enabled(q, e)
  {
    match e
    case IsrSend => q.(messages := q.messages + 1, data := IsrSignal(q.data))
    case IsrOverwrite => q.(messages := Overwritten(q.itemSize, q.messages), data := IsrSignal(q.data))
    case IsrReceive => q.(messages := q.messages - 1, space := IsrSignal(q.space))
    case Call(t, op) => SetPhase(q, t, Trying(op))
    case Overwrite(t) => q.(messages := Overwritten(q.itemSize, q.messages), data := Signal(q.data))
    case Try(t, blockTime) => TryOp(q, t, PhaseOf(q, t).op, blockTime)
    case Suspend(t) => SetPhase(q, t, Locking(PhaseOf(q, t).op)).(owner := Some(t))
    case Lock(t) => SetPhase(q, t, Timing(PhaseOf(q, t).op)).(data := LockSide(q.data), space := LockSide(q.space))
    case CheckTime(t, expired) =>
      var op := PhaseOf(q, t).op;
      SetPhase(q, t, if expired then UnlockingTx(op, GiveUp) else Testing(op))
    case Test(t) =>
      var op := PhaseOf(q, t).op;
      SetPhase(q, t, if Available(q, op) == 0 then Placing(op) else UnlockingTx(op, Retry))
    case Place(t, p) =>
      var op := PhaseOf(q, t).op;
      var s := SideOf(q, op);
      SetPhase(SetSide(q, op, s.(wait := Insert(s.wait, p, t))), t, UnlockingTx(op, Block))
    case UnlockTx(t) =>
      var p := PhaseOf(q, t);
      SetPhase(q, t, UnlockingRx(p.op, p.next)).(data := Unlock(q.data))
    case UnlockRx(t) =>
      var p := PhaseOf(q, t);
      SetPhase(q, t, Resuming(p.op, p.next)).(space := Unlock(q.space))
    case Resume(t) =>
      var p := PhaseOf(q, t);
      SetPhase(q, t, match p.next
                     case Block => Waiting(p.op)
                     case Retry => Trying(p.op)
                     case GiveUp => if p.op == Send then Idle else Deciding(p.op)).(owner := None)
    case Decide(t) =>
      SetPhase(q, t, if q.messages == 0 then Idle else Trying(PhaseOf(q, t).op))
    case RunAgain(t) => SetPhase(q, t, Trying(PhaseOf(q, t).op))
    case TimeOut(t) =>
      var op := PhaseOf(q, t).op;
      var s := SideOf(q, op);
      SetPhase(SetSide(q, op, s.(wait := Without(s.wait, Find(s.wait, t)))), t, Trying(op))
  }

  /** A call succeeds exactly if it finds an item, or a place, and has then ended; otherwise it ends without a block
      time, and goes on to block with one, and the contents stay. A peek leaves the item. */
  lemma TryEffect(q: Queue, t: Task, blockTime: bool)
    requires Enabled(q, Try(t, blockTime)) && q.messages <= q.length
    ensures var r, op := Apply(q, Try(t, blockTime)), PhaseOf(q, t).op;
            var succeeds := if op == Send then q.messages < q.length else q.messages > 0;
            && PhaseOf(r, t) == (if succeeds || !blockTime then Idle else Suspending(op))
            && r.messages == (if !succeeds || op == Peek then q.messages
                              else if op == Send then q.messages + 1 else q.messages - 1)
            && (forall u | u != t :: PhaseOf(r, u) == PhaseOf(q, u))
            && r.owner == q.owner && r.length == q.length && r.itemSize == q.itemSize
  {
  }

  /** A call ends only where it has succeeded, where it finds nothing and was given no block time, or where its time
      has run out: then a sender gives up, and a receiver only if the queue is still empty. A task that has blocked
      always looks again. */
  lemma CallEnds(q: Queue, e: Step, t: Task)
    requires Enabled(q, e) && PhaseOf(q, t) != Idle
    ensures var p, r := PhaseOf(q, t), Apply(q, e);
            && (PhaseOf(r, t) == Idle <==>
                  || (e.Try? && e.task == t && (Available(q, p.op) > 0 || !e.blockTime))
                  || (e == Resume(t) && p.next == GiveUp && p.op == Send)
                  || (e == Decide(t) && q.messages == 0))
            && ((PhaseOf(r, t).UnlockingTx? && PhaseOf(r, t).next == GiveUp && !p.UnlockingTx?) ==>
                  e == CheckTime(t, true))
            && (p.Waiting? && PhaseOf(r, t) != p ==> PhaseOf(r, t) == Trying(p.op))
            && (PhaseOf(r, t) != Idle ==> PhaseOf(r, t).op == p.op)
  {
  }

  // ---- the invariant -------------------------------------------------------------------------

  predicate Serves(p: Phase, forSpace: bool) {
    !p.Idle? && (p.op == Send <==> forSpace)
  }

  predicate Placed(p: Phase) {
    p.Waiting? || ((p.UnlockingTx? || p.UnlockingRx? || p.Resuming?) && p.next == Block)
  }

  /** Only tasks that have been placed wait; only tasks that have been placed, or are about to look, are woken. */
  predicate Members(phases: map<Task, Phase>, s: Side, forSpace: bool) {
    && (forall t | t in s.wait :: t in phases && Serves(phases[t], forSpace) && Placed(phases[t]))
    && (forall t | t in s.woken ::
          t in phases && Serves(phases[t], forSpace) && (Placed(phases[t]) || phases[t].Trying?))
  }

  /** Only the owner is inside a blocking section. */
  predicate Ownership(phases: map<Task, Phase>, owner: Option<Task>) {
    && (forall t | t in phases && OwnerPhase(phases[t]) :: owner == Some(t))
    && (owner.Some? ==> owner.value in phases && OwnerPhase(phases[owner.value]))
  }

  /** The phase that decides what the locks may be: the owner's, or none. */
  function SectionPhase(q: Queue): Phase {
    if q.owner.Some? && q.owner.value in q.phases then q.phases[q.owner.value] else Idle
  }

  /** The queue is locked exactly between prvLockQueue and the two halves of prvUnlockQueue; and while
      the owner is between its test and its place on the list, whatever has become available
      meanwhile is in the lock count. */
  predicate Window(p: Phase, q: Queue) {
    match p
    case Timing(_) | Testing(_) | UnlockingTx(_, _) => q.data.lock >= 0 && q.space.lock >= 0
    case Placing(op) => q.data.lock >= 0 && q.space.lock >= 0 && Available(q, op) <= Count(SideOf(q, op).lock)
    case UnlockingRx(_, _) => q.data.lock == UNLOCKED && q.space.lock >= 0
    case _ => q.data.lock == UNLOCKED && q.space.lock == UNLOCKED
  }

  predicate Accounted(q: Queue) {
    && q.messages <= q.length
    && SideOk(q.data) && SideOk(q.space)
    && Balanced(q.data, q.messages) && Balanced(q.space, q.length - q.messages)
    && Members(q.phases, q.data, false) && Members(q.phases, q.space, true)
    && Ownership(q.phases, q.owner)
  }

  predicate Inv(q: Queue) {
    Accounted(q) && Window(SectionPhase(q), q)
  }

  // ---- every step keeps it -------------------------------------------------------------------

  lemma MembersShrink(phases: map<Task, Phase>, s: Side, r: Side, forSpace: bool)
    requires Members(phases, s, forSpace) && Shrinks(s, r)
    ensures Members(phases, r, forSpace)
  {
  }

  /** A task changes its phase; it may stay on the list, or stay woken, if the new phase allows it. */
  lemma MembersPhase(phases: map<Task, Phase>, s: Side, forSpace: bool, t: Task, p: Phase)
    requires Members(phases, s, forSpace)
    requires t in s.wait ==> Serves(p, forSpace) && Placed(p)
    requires t in s.woken ==> Serves(p, forSpace) && (Placed(p) || p.Trying?)
    ensures Members(phases[t := p], s, forSpace)
  {
  }

  lemma OwnershipPhase(phases: map<Task, Phase>, owner: Option<Task>, t: Task, p: Phase)
    requires Ownership(phases, owner)
    ensures owner == Some(t) && OwnerPhase(p) ==> Ownership(phases[t := p], owner)
    ensures owner == Some(t) && !OwnerPhase(p) ==> Ownership(phases[t := p], None)
    ensures owner == None && !OwnerPhase(p) ==> Ownership(phases[t := p], None)
    ensures owner == None && OwnerPhase(p) ==> Ownership(phases[t := p], Some(t))
  {
  }

  /** Steps that only move a task on. */
  lemma MoveKeeps(q: Queue, t: Task, p: Phase, owner: Option<Task>)
    requires Accounted(q) && (q.owner == None || q.owner == Some(t))
             && owner == (if OwnerPhase(p) then Some(t) else None)
    requires t in q.data.wait ==> Serves(p, false) && Placed(p)
    requires t in q.data.woken ==> Serves(p, false) && (Placed(p) || p.Trying?)
    requires t in q.space.wait ==> Serves(p, true) && Placed(p)
    requires t in q.space.woken ==> Serves(p, true) && (Placed(p) || p.Trying?)
    requires Window(p, q)
    ensures Inv(SetPhase(q, t, p).(owner := owner))
  {
    hide SideOk, Balanced, Members, Ownership, Placed, Serves;
    MembersPhase(q.phases, q.data, false, t, p);
    MembersPhase(q.phases, q.space, true, t, p);
    OwnershipPhase(q.phases, q.owner, t, p);
  }

  /** Both sides have been served. */
  lemma ServeKeeps(q: Queue, messages: nat, data: Side, space: Side)
    requires Accounted(q) && messages <= q.length
    requires Served(q.data, data, messages) && Served(q.space, space, q.length - messages)
    ensures Accounted(q.(messages := messages, data := data, space := space))
  {
    hide SideOk, Balanced, Members, Ownership, Shrinks;
    MembersShrink(q.phases, q.data, data, false);
    MembersShrink(q.phases, q.space, space, true);
  }

  lemma TryKeeps(q: Queue, t: Task, blockTime: bool)
    requires Inv(q) && Enabled(q, Try(t, blockTime))
    ensures Inv(Apply(q, Try(t, blockTime)))
  {
    hide SideOk, Balanced, Shrinks, Signal, Ownership, Window;
    var op := PhaseOf(q, t).op;
    var free := q.length - q.messages;
    var r := TryOp(q, t, op, blockTime);
    NotWaiting(q, t);
    RecheckKeeps(q.data, t, q.messages);
    RecheckKeeps(q.space, t, free);
    SignalKeeps(q.data, q.messages);
    SignalKeeps(q.space, free);
    PeekKeeps(q.data, t, q.messages);
    Unchanged(q);
    OpenBetween(q, r);
    ServeKeeps(q, r.messages, r.data, r.space);
    var p := PhaseOf(r, t);
    var moved := q.(messages := r.messages, data := r.data, space := r.space);
    NotWoken(q, r, t);
    MoveKeeps(moved, t, p, None);
    assert r == SetPhase(moved, t, p).(owner := None);
  }

  /** A task about to look is on no list, and is woken only on the side it looks at. */
  lemma NotWaiting(q: Queue, t: Task)
    requires Inv(q) && PhaseOf(q, t).Trying?
    ensures t !in q.data.wait && t !in q.space.wait
    ensures PhaseOf(q, t).op == Send ==> t !in q.data.woken
    ensures PhaseOf(q, t).op != Send ==> t !in q.space.woken
    ensures q.owner == None ==> t in q.phases
  {
  }

  lemma Unchanged(q: Queue)
    requires Inv(q)
    ensures Served(q.data, q.data, q.messages) && Served(q.space, q.space, q.length - q.messages)
  {
  }

  lemma OpenBetween(q: Queue, r: Queue)
    requires Inv(q) && q.owner == None && r.data.lock == q.data.lock && r.space.lock == q.space.lock
    ensures forall p: Phase | p.Idle? || p.Suspending? ::
            Window(p, q.(messages := r.messages, data := r.data, space := r.space))
  {
  }

  lemma NotWoken(q: Queue, r: Queue, t: Task)
    requires Inv(q) && PhaseOf(q, t).Trying? && exists blockTime :: r == TryOp(q, t, PhaseOf(q, t).op, blockTime)
    ensures t !in r.data.wait && t !in r.space.wait && t !in r.data.woken && t !in r.space.woken
  {
    NotWaiting(q, t);
  }

  lemma PhaseKeeps(q: Queue, e: Step)
    requires Inv(q) && Enabled(q, e)
    requires e.Call? || e.Suspend? || e.CheckTime? || e.Test? || e.Resume? || e.Decide? || e.RunAgain?
    ensures Inv(Apply(q, e))
  {
    hide SideOk, Balanced, Ownership, Members;
    var r := Apply(q, e);
    StepOn(q, e);
    MoveKeeps(q, e.task, PhaseOf(r, e.task), r.owner);
    assert r == SetPhase(q, e.task, PhaseOf(r, e.task)).(owner := r.owner);
  }

  lemma StepOn(q: Queue, e: Step)
    requires Inv(q) && Enabled(q, e)
    requires e.Call? || e.Suspend? || e.CheckTime? || e.Test? || e.Resume? || e.Decide? || e.RunAgain?
    ensures var t := e.task; var p := PhaseOf(Apply(q, e), t);
            && (t in q.data.wait ==> Serves(p, false) && Placed(p))
            && (t in q.data.woken ==> Serves(p, false) && (Placed(p) || p.Trying?))
            && (t in q.space.wait ==> Serves(p, true) && Placed(p))
            && (t in q.space.woken ==> Serves(p, true) && (Placed(p) || p.Trying?))
            && Window(p, q)
  {
    hide SideOk, Balanced;
  }

  /** A task on its way to the list is on neither list and has not been woken. */
  lemma PlaceSide(q: Queue, t: Task, p: nat)
    requires Inv(q) && Enabled(q, Place(t, p))
    ensures var op := PhaseOf(q, t).op; var s := SideOf(q, op);
            var r := s.(wait := Insert(s.wait, p, t));
            && SideOk(r) && Balanced(r, Available(q, op)) && Window(UnlockingTx(op, Block), SetSide(q, op, r))
            && (forall u :: u in r.wait <==> u == t || u in s.wait)
    ensures t !in q.data.wait && t !in q.data.woken && t !in q.space.wait && t !in q.space.woken && t in q.phases
  {
    var s := SideOf(q, PhaseOf(q, t).op);
    InsertMembers(s.wait, p, t);
  }

  lemma MembersPlaced(phases: map<Task, Phase>, s: Side, r: Side, forSpace: bool, t: Task, p: Phase)
    requires Members(phases, s, forSpace) && t !in s.wait && t !in s.woken && Serves(p, forSpace) && Placed(p)
    requires r.woken == s.woken && forall u :: u in r.wait <==> u == t || u in s.wait
    ensures Members(phases[t := p], r, forSpace)
  {
  }

  lemma PlaceKeeps(q: Queue, t: Task, p: nat)
    requires Inv(q) && Enabled(q, Place(t, p))
    ensures Inv(Apply(q, Place(t, p)))
  {
    hide SideOk, Balanced, Members, Ownership, Insert;
    var op := PhaseOf(q, t).op;
    var s := SideOf(q, op);
    PlaceSide(q, t, p);
    MembersPlaced(q.phases, s, s.(wait := Insert(s.wait, p, t)), op == Send, t, UnlockingTx(op, Block));
    MembersPhase(q.phases, if op == Send then q.data else q.space, op != Send, t, UnlockingTx(op, Block));
    OwnershipPhase(q.phases, q.owner, t, UnlockingTx(op, Block));
  }

  lemma UnlockingKeeps(q: Queue, e: Step)
    requires Inv(q) && Enabled(q, e) && (e.Lock? || e.UnlockTx? || e.UnlockRx?)
    ensures Inv(Apply(q, e))
  {
    hide SideOk, Balanced, Shrinks, Ownership, Unlock, LockSide, Members;
    var r := Apply(q, e);
    var t := e.task;
    Unchanged(q);
    UnlockKeeps(q.data, q.messages);
    UnlockKeeps(q.space, q.length - q.messages);
    LockKeeps(q.data, q.messages);
    LockKeeps(q.space, q.length - q.messages);
    OwnerIsListed(q);
    ServeKeeps(q, r.messages, r.data, r.space);
    var moved := q.(messages := r.messages, data := r.data, space := r.space);
    StillPlaced(moved, t, PhaseOf(q, t), PhaseOf(r, t));
    MoveKeeps(moved, t, PhaseOf(r, t), Some(t));
    assert r == SetPhase(moved, t, PhaseOf(r, t)).(owner := Some(t));
  }

  lemma OwnerIsListed(q: Queue)
    requires Inv(q)
    ensures q.owner.Some? ==> q.owner.value in q.phases
  {
  }

  /** A task that is placed stays placed when it goes on to the next step of unlocking. */
  lemma StillPlaced(q: Queue, t: Task, p: Phase, next: Phase)
    requires Accounted(q) && PhaseOf(q, t) == p && !p.Idle? && !next.Idle? && next.op == p.op
    requires !p.Trying? && (Placed(p) ==> Placed(next))
    ensures t in q.data.wait ==> Serves(next, false) && Placed(next)
    ensures t in q.data.woken ==> Serves(next, false) && (Placed(next) || next.Trying?)
    ensures t in q.space.wait ==> Serves(next, true) && Placed(next)
    ensures t in q.space.woken ==> Serves(next, true) && (Placed(next) || next.Trying?)
  {
  }

  lemma TimeOutSide(q: Queue, t: Task)
    requires Inv(q) && Enabled(q, TimeOut(t))
    ensures var op := PhaseOf(q, t).op; var s := SideOf(q, op);
            var r := s.(wait := Without(s.wait, Find(s.wait, t)));
            Served(s, r, Available(q, op)) && t !in r.wait && t !in r.woken && r.lock == UNLOCKED
    ensures PhaseOf(q, t).op == Send ==> t !in q.data.wait && t !in q.data.woken
    ensures PhaseOf(q, t).op != Send ==> t !in q.space.wait && t !in q.space.woken
    ensures q.data.lock == UNLOCKED && q.space.lock == UNLOCKED
  {
    var s := SideOf(q, PhaseOf(q, t).op);
    WithoutMembers(s.wait, Find(s.wait, t));
  }

  lemma TimeOutKeeps(q: Queue, t: Task)
    requires Inv(q) && Enabled(q, TimeOut(t))
    ensures Inv(Apply(q, TimeOut(t)))
  {
    hide SideOk, Balanced, Members, Ownership, Without, Shrinks;
    var op := PhaseOf(q, t).op;
    var s := SideOf(q, op);
    TimeOutSide(q, t);
    Unchanged(q);
    var r := SetSide(q, op, s.(wait := Without(s.wait, Find(s.wait, t))));
    ServeKeeps(q, q.messages, r.data, r.space);
    MoveKeeps(r, t, Trying(op), None);
  }

  lemma IsrKeeps(q: Queue, e: Step)
    requires Inv(q) && Enabled(q, e) && (e.IsrSend? || e.IsrOverwrite? || e.IsrReceive? || e.Overwrite?)
    ensures Inv(Apply(q, e))
  {
    hide SideOk, Shrinks, Signal, Ownership, IsrSignal, Members;
    var r := Apply(q, e);
    var free := q.length - q.messages;
    Unchanged(q);
    SignalKeeps(q.data, q.messages);
    if e.IsrReceive? {
      IsrSignalKeeps(q.space, free);
    } else if !e.Overwrite? {
      IsrSignalKeeps(q.data, q.messages);
    }
    Slack(q.space, free);
    ServeKeeps(q, r.messages, r.data, r.space);
  }

  lemma Slack(s: Side, available: int)
    requires SideOk(s) && Balanced(s, available)
    ensures Served(s, s, available - 1)
  {
  }

  lemma StepKeeps(q: Queue, e: Step)
    requires Inv(q) && Enabled(q, e)
    ensures Inv(Apply(q, e))
  {
    hide Inv, Apply, Enabled;
    match e
    case Try(t, blockTime) => TryKeeps(q, t, blockTime);
    case Place(t, p) => PlaceKeeps(q, t, p);
    case Lock(_) | UnlockTx(_) | UnlockRx(_) => UnlockingKeeps(q, e);
    case TimeOut(t) => TimeOutKeeps(q, t);
    case IsrSend | IsrOverwrite | IsrReceive | Overwrite(_) => IsrKeeps(q, e);
    case _ => PhaseKeeps(q, e);
  }

  // ---- runs ----------------------------------------------------------------------------------

  function NewQueue(length: nat, itemSize: nat): Queue {
    Queue(length, itemSize, 0, Side([], {}, UNLOCKED), Side([], {}, UNLOCKED), map[], None)
  }

  predicate Allowed(q: Queue, es: seq<Step>)
    decreases |es|
  {
    es == [] || (Enabled(q, es[0]) && Allowed(Apply(q, es[0]), es[1..]))
  }

  function Run(q: Queue, es: seq<Step>): Queue
    requires Allowed(q, es)
    decreases |es|
  {
    if es == [] then q else Run(Apply(q, es[0]), es[1..])
  }

  lemma {:induction false} RunKeeps(q: Queue, es: seq<Step>)
    requires Inv(q) && Allowed(q, es)
    ensures Inv(Run(q, es))
    decreases |es|
  {
    hide Inv, Apply, Enabled;
    if es != [] {
      StepKeeps(q, es[0]);
      RunKeeps(Apply(q, es[0]), es[1..]);
    }
  }

  /** No lost wake-up. In every state that tasks and interrupts can reach: if tasks wait for data, every item in
      the queue is matched by a woken task that has not looked yet or by a count in the lock;
      and likewise for tasks waiting for space and free places. */
  lemma NoLostWakeUp(length: nat, itemSize: nat, es: seq<Step>)
    requires Allowed(NewQueue(length, itemSize), es)
    ensures var q := Run(NewQueue(length, itemSize), es);
            && (q.data.wait != [] ==> q.messages <= |q.data.woken| + Count(q.data.lock))
            && (q.space.wait != [] ==> q.length - q.messages <= |q.space.woken| + Count(q.space.lock))
  {
    RunKeeps(NewQueue(length, itemSize), es);
  }

  /** Whenever no task is inside its blocking section the queue is unlocked; and if then no woken task is
      outstanding, receivers wait only for an empty queue and senders only for a full one. */
  lemma WaitersMeanEmptyOrFull(length: nat, itemSize: nat, es: seq<Step>)
    requires Allowed(NewQueue(length, itemSize), es)
    requires Run(NewQueue(length, itemSize), es).owner == None
    ensures var q := Run(NewQueue(length, itemSize), es);
            && q.data.lock == UNLOCKED && q.space.lock == UNLOCKED
            && (q.data.wait != [] && q.data.woken == {} ==> q.messages == 0)
            && (q.space.wait != [] && q.space.woken == {} ==> q.messages == q.length)
  {
    RunKeeps(NewQueue(length, itemSize), es);
  }

  // ---- where the assumptions are needed --------------------------------------------------------

  /** The queue after an overwrite by a task, or by an interrupt. */
  function AfterOverwrite(q: Queue, isr: bool): Queue {
    q.(messages := Overwritten(q.itemSize, q.messages), data := if isr then IsrSignal(q.data) else Signal(q.data))
  }

  /** Overwriting in a queue of one place keeps the count within the length, and with it the whole invariant,
      exactly when the items have bytes or the queue is empty. */
  lemma OverwriteKeepsWhen(q: Queue, t: Task)
    requires Inv(q) && q.length == 1
    ensures Overwritten(q.itemSize, q.messages) <= q.length <==> OverwriteFits(q.length, q.itemSize, q.messages)
    ensures q.owner == None && PhaseOf(q, t) == Idle ==>
              (Inv(AfterOverwrite(q, false)) <==> OverwriteFits(q.length, q.itemSize, q.messages))
    ensures q.data.lock < LOCK_MAX ==>
              (Inv(AfterOverwrite(q, true)) <==> OverwriteFits(q.length, q.itemSize, q.messages))
  {
    hide SideOk, Balanced, Members, Ownership, Window, Signal, IsrSignal;
    if OverwriteFits(q.length, q.itemSize, q.messages) {
      if q.data.lock < LOCK_MAX {
        IsrKeeps(q, IsrOverwrite);
      }
      if q.owner == None && PhaseOf(q, t) == Idle {
        IsrKeeps(q, Overwrite(t));
      }
    }
  }

  /** A queue of one item of no bytes, filled and then overwritten, counts two items. */
  lemma OverwriteCountsTwo(t: Task)
    ensures var q := NewQueue(1, 0);
            && Enabled(q, Overwrite(t))
            && var r := Apply(q, Overwrite(t));
            Inv(r) && r.messages == 1 && AfterOverwrite(r, false).messages == 2 && !Inv(AfterOverwrite(r, false))
  {
    StepKeeps(NewQueue(1, 0), Overwrite(t));
  }

  /** A task has put itself on the list of those waiting for data, and has the queue still locked. */
  function Blocking(t: Task): seq<Step> {
    [Call(t, Receive), Try(t, true), Step.Suspend(t), Step.Lock(t), CheckTime(t, false), Step.Test(t), Place(t, 0)]
  }

  function Posts(n: nat): seq<Step> {
    seq(n, i => IsrSend)
  }

  lemma {:induction false} RunsOn(q: Queue, es: seq<Step>, more: seq<Step>)
    requires Allowed(q, es) && Allowed(Run(q, es), more)
    ensures Allowed(q, es + more) && Run(q, es + more) == Run(Run(q, es), more)
    decreases |es|
  {
    hide Enabled, Apply;
    if es == [] {
      assert [] + more == more;
    } else {
      RunsOn(Apply(q, es[0]), es[1..], more);
      assert (es + more)[1..] == es[1..] + more;
    }
  }

  lemma RunsStep(q: Queue, e: Step, rest: seq<Step>)
    requires Enabled(q, e) && Allowed(Apply(q, e), rest)
    ensures Allowed(q, [e] + rest) && Run(q, [e] + rest) == Run(Apply(q, e), rest)
  {
    hide Enabled, Apply;
    assert ([e] + rest)[1..] == rest;
  }

  /** The queue once t has locked it. */
  function Locked(length: nat, itemSize: nat, t: Task): Queue {
    NewQueue(length, itemSize).(data := Side([], {}, 0), space := Side([], {}, 0),
                                phases := map[t := Timing(Receive)], owner := Some(t))
  }

  lemma LockingRuns(length: nat, itemSize: nat, t: Task)
    ensures var es := [Call(t, Receive), Try(t, true), Step.Suspend(t), Step.Lock(t)];
            && Allowed(NewQueue(length, itemSize), es)
            && Run(NewQueue(length, itemSize), es) == Locked(length, itemSize, t)
  {
    var q0 := NewQueue(length, itemSize);
    var q1 := Apply(q0, Call(t, Receive));
    var q2 := Apply(q1, Try(t, true));
    var q3 := Apply(q2, Step.Suspend(t));
    RunsStep(q3, Step.Lock(t), []);
    RunsStep(q2, Step.Suspend(t), [Step.Lock(t)]);
    RunsStep(q1, Try(t, true), [Step.Suspend(t), Step.Lock(t)]);
    RunsStep(q0, Call(t, Receive), [Try(t, true), Step.Suspend(t), Step.Lock(t)]);
    assert Apply(q3, Step.Lock(t)).phases == map[t := Timing(Receive)];
    hide Allowed, Run;
  }

  lemma PlacingRuns(length: nat, itemSize: nat, t: Task)
    ensures var q, es := Locked(length, itemSize, t), [CheckTime(t, false), Step.Test(t), Place(t, 0)];
            && Allowed(q, es)
            && Run(q, es).data == Side([t], {}, 0) && Run(q, es).messages == 0 && Run(q, es).length == length
  {
    var q4 := Locked(length, itemSize, t);
    var q5 := Apply(q4, CheckTime(t, false));
    var q6 := Apply(q5, Step.Test(t));
    assert Insert([], 0, t) == [t];
    RunsStep(q6, Place(t, 0), []);
    RunsStep(q5, Step.Test(t), [Place(t, 0)]);
    RunsStep(q4, CheckTime(t, false), [Step.Test(t), Place(t, 0)]);
  }

  lemma BlockingRuns(length: nat, itemSize: nat, t: Task)
    ensures Allowed(NewQueue(length, itemSize), Blocking(t))
    ensures var q := Run(NewQueue(length, itemSize), Blocking(t));
            q.data == Side([t], {}, 0) && q.messages == 0 && q.length == length
  {
    hide Allowed, Run, Locked;
    LockingRuns(length, itemSize, t);
    PlacingRuns(length, itemSize, t);
    var first, second := Blocking(t)[..4], Blocking(t)[4..];
    assert first == [Call(t, Receive), Try(t, true), Step.Suspend(t), Step.Lock(t)];
    assert second == [CheckTime(t, false), Step.Test(t), Place(t, 0)];
    RunsOn(NewQueue(length, itemSize), first, second);
    assert Blocking(t) == first + second;
  }

  lemma {:induction false} PostsAreCounted(q: Queue, n: nat)
    requires 0 <= q.data.lock && q.data.lock + n <= LOCK_MAX && q.messages + n <= q.length
    ensures Allowed(q, Posts(n))
    ensures Run(q, Posts(n)) == q.(messages := q.messages + n, data := q.data.(lock := q.data.lock + n))
    decreases n
  {
    if n > 0 {
      PostsAreCounted(Apply(q, IsrSend), n - 1);
      RunsStep(q, IsrSend, Posts(n - 1));
      assert Posts(n) == [IsrSend] + Posts(n - 1);
    }
  }

  /** The bound on interrupts per lock interval is needed: at 127 the counter wraps to -128, and the unlock
      then wakes nobody, however many tasks wait. */
  lemma WrappedLockLosesWakeUps(s: Side)
    requires s.lock == LOCK_MAX
    ensures IsrSignal(s).lock == -128
    ensures Unlock(IsrSignal(s)).wait == s.wait && Unlock(IsrSignal(s)).woken == s.woken
  {
  }

  /** While the queue is locked and tasks wait, the unlock after one more post leaves items and wake-ups in
      balance exactly when the counter was not full, or enough tasks had been woken before. */
  lemma PostsBalanceWhen(s: Side, available: int)
    requires SideOk(s) && Balanced(s, available) && 0 <= s.lock <= LOCK_MAX && s.wait != []
    ensures Balanced(Unlock(IsrSignal(s)), available + 1) <==> s.lock < LOCK_MAX || available + 1 <= |s.woken|
  {
    if s.lock < LOCK_MAX {
      IsrSignalKeeps(s, available);
      UnlockKeeps(IsrSignal(s), available + 1);
    } else {
      WrappedLockLosesWakeUps(s);
    }
  }

  /** The lock counter can fill up: a task blocks on the empty queue, and 127 interrupts post before it has unlocked the
      queue. With the next post the task's wake-up is lost. */
  lemma LockFillsUp(length: nat, itemSize: nat, t: Task)
    requires length > LOCK_MAX
    ensures var es := Blocking(t) + Posts(LOCK_MAX);
            && Allowed(NewQueue(length, itemSize), es)
            && var q := Run(NewQueue(length, itemSize), es);
            && q.data == Side([t], {}, LOCK_MAX) && q.messages == LOCK_MAX < q.length
            && !Balanced(Unlock(IsrSignal(q.data)), q.messages + 1)
  {
    hide Enabled, Apply, Blocking, Posts;
    BlockingRuns(length, itemSize, t);
    var q := Run(NewQueue(length, itemSize), Blocking(t));
    PostsAreCounted(q, LOCK_MAX);
    RunsOn(NewQueue(length, itemSize), Blocking(t), Posts(LOCK_MAX));
    PostsBalanceWhen(Side([t], {}, LOCK_MAX), LOCK_MAX);
  }
}

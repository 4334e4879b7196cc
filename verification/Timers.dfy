/** The timer service of timers.c: a daemon with two sorted lists of active timers and its own command
    queue. Ghost state holds the true times behind the 32-bit values. */
module Timers {
  import opened Ticks
  import opened Rings
  import opened KernelState
  import opened KernelTime

  type Id = Task

  // ---- prvInsertTimerInActiveList -----------------------------------------------------------

  datatype Placement = ProcessNow | Current | Overflow

  /** Where prvInsertTimerInActiveList puts a timer, all values being 32-bit. */
  function Decide(next: nat, now: nat, command: nat, period: nat): Placement {
    if next <= now then
      if Wrap(now - command) >= period then ProcessNow else Overflow
    else
      if now < command && next >= command then ProcessNow else Current
  }

  /** The decision in terms of the 32-bit time since the command. */
  lemma DecideSince(command: nat, since: nat, period: nat)
    requires IsTick(command) && IsTick(since) && 0 < period <= MAX_DELAY
    ensures Decide(Wrap(command + period), Wrap(command + since), command, period) == ProcessNow <==> since >= period
  {
    RemainderIs(command + period, if command + period < MODULUS then 0 else 1,
                if command + period < MODULUS then command + period else command + period - MODULUS);
    var now := if command + since < MODULUS then command + since else command + since - MODULUS;
    RemainderIs(command + since, if command + since < MODULUS then 0 else 1, now);
    RemainderIs(now - command, if command + since < MODULUS then 0 else -1, since);
  }

  /** Whatever the true times are, "process now" means that the time since the command, modulo 2^32, has reached
      the period. */
  lemma DecideFinds(c: nat, n: nat, period: nat)
    requires c <= n && 0 < period <= MAX_DELAY
    ensures Decide(Wrap(c + period), Wrap(n), Wrap(c), period) == ProcessNow <==> Wrap(n - c) >= period
  {
    hide Decide;
    DecideSince(Wrap(c), Wrap(n - c), period);
    WrapAdd(c, period);
    WrapAdd(n - c, c);
    WrapAdd(c, Wrap(n - c));
  }

  /** Insertion is right about an elapsed period exactly when the command is less than 2^32 ticks old, or the
      surplus over whole turns of the counter reaches the period too. */
  lemma InsertionIsRightWhen(c: nat, n: nat, period: nat)
    requires c <= n && 0 < period <= MAX_DELAY
    ensures (Decide(Wrap(c + period), Wrap(n), Wrap(c), period) == ProcessNow <==> c + period <= n)
        <==> (n - c < MODULUS || Wrap(n - c) >= period)
  {
    DecideFinds(c, n, period);
    WrapEpoch(n - c);
  }

  /** Insertion is exact for a command at true time c processed at true time n, less than 2^32 ticks
      later: at once when the period is over, otherwise in the list of the epoch of the expiry. */
  lemma InsertionIsExact(c: nat, n: nat, period: nat)
    requires c <= n < c + MODULUS && 0 < period <= MAX_DELAY
    ensures var d := Decide(Wrap(c + period), Wrap(n), Wrap(c), period);
            && (d == ProcessNow <==> c + period <= n)
            && (d == Current <==> c + period > n && Epoch(c + period) == Epoch(n))
            && (d == Overflow <==> c + period > n && Epoch(c + period) == Epoch(n) + 1)
    ensures c == n ==> Decide(Wrap(c + period), Wrap(n), Wrap(c), period) != ProcessNow
  {
    DecideFinds(c, n, period);
    WrapEpoch(n - c);
    if c + period > n {
      WrapCrossing(n, c + period - n);
    }
  }

  /** One sample of the clock per turn is not enough: a reload command 2^32 + 10 ticks old, for a timer whose period
      is over, is put in the overflow list, to expire a whole turn of the counter late. */
  lemma LateCommandIsMisplaced()
    ensures var c, n, period := 10, MODULUS + 20, MODULUS - 5;
            c + period <= n && Decide(Wrap(c + period), Wrap(n), Wrap(c), period) == Overflow
  {
    RemainderIs(10 + MODULUS - 5, 1, 5);
    RemainderIs(MODULUS + 20, 1, 20);
  }

  // ---- the state of the daemon ----------------------------------------------------------------

  datatype Timer = Timer(period: nat, autoReload: bool)

  /** The commands that change lists; resetting is starting, and deleting is stopping. */
  datatype CommandId = Start | Stop | ChangePeriod

  datatype Command = Command(id: CommandId, timer: Id, value: nat)

  /** The true time a timer was started at, and how often its callback had run before. */
  datatype Beginning = Beginning(time: nat, calls: nat)

  /** What there is to know about the timers but for the order of the lists. */
  datatype Account = Account(begun: map<Id, Beginning>, timers: map<Id, Timer>, calls: map<Id, nat>, due: Dues,
                             commands: seq<Command>)

  /** The pending commands for one timer. */
  function CommandsFor(commands: seq<Command>, t: Id): seq<Command> {
    if commands == [] then []
    else (if commands[0].timer == t then [commands[0]] else []) + CommandsFor(commands[1..], t)
  }

  lemma {:induction false} CommandsForAppend(commands: seq<Command>, c: Command, t: Id)
    ensures CommandsFor(commands + [c], t) == CommandsFor(commands, t) + (if c.timer == t then [c] else [])
  {
    if commands != [] {
      assert (commands + [c])[1..] == commands[1..] + [c];
      CommandsForAppend(commands[1..], c, t);
    }
  }

  predicate CommandsOk(commands: seq<Command>, timers: map<Id, Timer>) {
    forall c | c in commands :: c.timer in timers && IsTick(c.value) && (c.id == ChangePeriod ==> c.value > 0)
  }

  ghost predicate TimersOk(timers: map<Id, Timer>, calls: map<Id, nat>, due: Dues) {
    && (forall t | t in timers :: 0 < timers[t].period <= MAX_DELAY && t in calls)
    && (forall t | t in due :: t in timers)
  }

  /** The last expiry handled, or the start: one period for every callback since. */
  ghost function Base(b: Beginning, calls: nat, period: nat): int {
    b.time + (calls - b.calls) * period
  }

  lemma BaseStep(b: Beginning, calls: nat, period: nat)
    ensures Base(b, calls + 1, period) == Base(b, calls, period) + period
  {
    assert (calls + 1 - b.calls) * period == (calls - b.calls) * period + period;
  }

  /** One timer that has been started and given no other command: it is due one period after its base, or
      its reload command is on the way, or it was a one-shot timer and has run. */
  ghost predicate OnCourse(b: Beginning, timer: Timer, calls: nat, pending: seq<Command>, t: Id, due: Dues, now: nat) {
    var base := Base(b, calls, timer.period);
    && b.calls <= calls && 0 <= base <= now
    && (!timer.autoReload ==> calls <= b.calls + 1)
    && if t in due then
         due[t] == base + timer.period && pending == [] && (!timer.autoReload ==> calls == b.calls)
       else if !timer.autoReload && calls > b.calls then pending == []
       else pending == [Command(Start, t, Wrap(base))]
  }

  ghost predicate AllOnCourse(begun: map<Id, Beginning>, timers: map<Id, Timer>, calls: map<Id, nat>,
                              commands: seq<Command>, due: Dues, now: nat)
  {
    forall t | t in begun ::
      t in timers && t in calls && OnCourse(begun[t], timers[t], calls[t], CommandsFor(commands, t), t, due, now)
  }

  ghost predicate ListsOk(current: seq<Id>, overflow: seq<Id>, expiry: map<Id, nat>, now: nat, due: Dues) {
    Schedule(current, overflow, expiry, Epoch(now), due) && NoDup(current) && NoDup(overflow)
  }

  // ---- lemmas about one change ------------------------------------------------------------------

  /** Changing one timer's entry, or appending a command for it, does not concern the others. */
  lemma OthersOnCourse(begun: map<Id, Beginning>, timers: map<Id, Timer>, calls: map<Id, nat>, calls': map<Id, nat>,
                       commands: seq<Command>, commands': seq<Command>, due: Dues, due': Dues, now: nat, later: nat,
                       t: Id)
    requires AllOnCourse(begun, timers, calls, commands, due, now) && now <= later
    requires forall u | u != t :: (u in due' <==> u in due) && (u in due ==> due'[u] == due[u])
    requires forall u | u in calls && u != t :: u in calls' && calls'[u] == calls[u]
    requires forall u | u != t :: CommandsFor(commands', u) == CommandsFor(commands, u)
    ensures AllOnCourse(begun - {t}, timers, calls', commands', due', later)
  {
  }

  lemma WithTimer(begun: map<Id, Beginning>, timers: map<Id, Timer>, calls: map<Id, nat>, commands: seq<Command>,
                  due: Dues, now: nat, t: Id, b: Beginning)
    requires AllOnCourse(begun - {t}, timers, calls, commands, due, now)
    requires t in timers && t in calls && OnCourse(b, timers[t], calls[t], CommandsFor(commands, t), t, due, now)
    ensures AllOnCourse(begun[t := b], timers, calls, commands, due, now)
  {
  }

  function Potential(values: seq<nat>): nat {
    if values == [] then 0 else (if values[0] <= MODULUS then MODULUS - values[0] else 0) + Potential(values[1..])
  }

  lemma {:induction false} PotentialInsert(values: seq<nat>, p: nat, v: nat)
    requires p <= |values| && v <= MODULUS
    ensures Potential(Insert(values, p, v)) == Potential(values) + MODULUS - v
    decreases p
  {
    if p == 0 {
      assert Insert(values, p, v) == [v] + values;
    } else {
      assert Insert(values, p, v) == [values[0]] + Insert(values[1..], p - 1, v);
      PotentialInsert(values[1..], p - 1, v);
    }
  }

  class Daemon {
    var timers: map<Id, Timer>
    var current: seq<Id>
    var overflow: seq<Id>
    var expiry: map<Id, nat>
    var commands: seq<Command>
    var lastTime: nat
    var calls: map<Id, nat>
    ghost var now: nat
    ghost var clock: nat
    ghost var due: Dues
    ghost var begun: map<Id, Beginning>

    ghost predicate ListsValid()
      reads this
    {
      && ListsOk(current, overflow, expiry, now, due) && TimersOk(timers, calls, due)
      && CommandsOk(commands, timers)
    }

    ghost predicate Valid()
      reads this
    {
      ListsValid() && AllOnCourse(begun, timers, calls, commands, due, clock)
    }

    /** prvCheckForValidListAndQueue */
    constructor ()
      ensures Valid() && Sampled() && clock == now == 0 && begun == map[] && timers == map[] && due == map[]
      ensures current == overflow == [] && commands == []
    {
      timers, current, overflow, expiry, commands, lastTime, calls := map[], [], [], map[], [], 0, map[];
      now, clock, due, begun := 0, 0, map[], map[];
    }

    /** prvInitialiseNewTimer */
    method CreateTimer(t: Id, period: nat, autoReload: bool)
      requires Valid() && t !in timers && 0 < period <= MAX_DELAY
      modifies `timers, `calls
      ensures Valid() && timers == old(timers)[t := Timer(period, autoReload)] && calls == old(calls)[t := 0]
    {
      hide Schedule, OnCourse, Wrap, Epoch;
      timers := timers[t := Timer(period, autoReload)];
      calls := calls[t := 0];
    }

    /** prvGetNextExpireTime */
    method GetNextExpireTime() returns (nextExpire: nat, listWasEmpty: bool)
      ensures listWasEmpty == (current == [])
      ensures nextExpire == if current == [] then 0 else WakeOf(expiry, current[0])
    {
      listWasEmpty := current == [];
      nextExpire := if listWasEmpty then 0 else WakeOf(expiry, current[0]);
    }

    /** xLastTime is the last sample of the clock; the true clock may have moved on since. */
    ghost predicate Sampled()
      reads this
    {
      lastTime == Wrap(now) && now <= clock
    }

    /** The true time a timer on course counts its next period from. */
    ghost function BaseOf(t: Id): int
      requires t in begun && t in calls && t in timers
      reads this
    {
      Base(begun[t], calls[t], timers[t].period)
    }

    ghost function Books(): Account
      reads this
    {
      Account(begun, timers, calls, due, commands)
    }

    /** vListInsert into the current list, for a timer due at true time d */
    method InsertCurrent(t: Id, next: nat, ghost d: nat)
      requires ListsValid() && t in timers && t !in due && Epoch(d) == Epoch(now) && next == Wrap(d)
      modifies `current, `expiry, `due
      ensures ListsValid() && due == old(due)[t := d] && expiry == old(expiry)[t := next]
      ensures current == Insert(old(current), FirstAbove(Wakes(old(current), expiry), next), t)
    {
      hide Schedule, FirstAbove, Insert, Wakes, Wrap, Epoch, NoDup;
      PutEarly(current, overflow, expiry, Epoch(now), due, t, d);
      expiry := expiry[t := next];
      current := Insert(current, FirstAbove(Wakes(current, expiry), next), t);
      due := due[t := d];
    }

    /** vListInsert into the overflow list */
    method InsertOverflow(t: Id, next: nat, ghost d: nat)
      requires ListsValid() && t in timers && t !in due && Epoch(d) == Epoch(now) + 1 && next == Wrap(d)
      modifies `overflow, `expiry, `due
      ensures ListsValid() && due == old(due)[t := d] && expiry == old(expiry)[t := next]
      ensures overflow == Insert(old(overflow), FirstAbove(Wakes(old(overflow), expiry), next), t)
    {
      hide Schedule, FirstAbove, Insert, Wakes, Wrap, Epoch, NoDup;
      PutLate(current, overflow, expiry, Epoch(now), due, t, d);
      expiry := expiry[t := next];
      overflow := Insert(overflow, FirstAbove(Wakes(overflow, expiry), next), t);
      due := due[t := d];
    }

    /** prvInsertTimerInActiveList: the list decides the true time the timer is due. */
    method InsertTimerInActiveList(t: Id, next: nat, timeNow: nat, commandTime: nat) returns (processNow: bool)
      requires ListsValid() && t in timers && t !in due && timeNow == Wrap(now) && IsTick(next) && IsTick(commandTime)
      modifies `current, `overflow, `expiry, `due
      ensures ListsValid()
      ensures var d := Decide(next, timeNow, commandTime, timers[t].period);
              && processNow == (d == ProcessNow)
              && due == (if d == ProcessNow then old(due)
                         else old(due)[t := (Epoch(now) + if d == Overflow then 1 else 0) * MODULUS + next])
      ensures t in due ==> due[t] > now
    {
      hide ListsOk, FirstAbove, Insert, Wakes;
      processNow := false;
      ghost var epoch := Epoch(now);
      InList(epoch, next);
      InList(epoch + 1, next);
      WrapEpoch(now);
      if next <= timeNow {
        if Wrap(timeNow - commandTime) >= timers[t].period {
          processNow := true;
        } else {
          InsertOverflow(t, next, (epoch + 1) * MODULUS + next);
        }
      } else {
        if timeNow < commandTime && next >= commandTime {
          processNow := true;
        } else {
          InsertCurrent(t, next, epoch * MODULUS + next);
        }
      }
    }

    /** uxListRemove, when the timer is in a list */
    method RemoveTimer(t: Id)
      requires ListsValid()
      modifies `current, `overflow, `due
      ensures ListsValid() && due == old(due) - {t} && t !in current && t !in overflow
      ensures t in old(current) ==> current == Without(old(current), Find(old(current), t))
      ensures t !in old(current) ==> current == old(current)
      ensures t !in old(overflow) ==> overflow == old(overflow)
    {
      hide Schedule, Wakes, Without;
      TakeTimer(current, overflow, expiry, Epoch(now), due, t);
      if t in current {
        current := Without(current, Find(current, t));
      } else if t in overflow {
        overflow := Without(overflow, Find(overflow, t));
      }
      due := due - {t};
    }

    /** The timer is given back to the daemon as a command with the time of its last expiry. */
    method SendStart(t: Id, value: nat)
      requires t in timers && IsTick(value) && CommandsOk(commands, timers)
      modifies `commands
      ensures commands == old(commands) + [Command(Start, t, value)] && CommandsOk(commands, timers)
    {
      commands := commands + [Command(Start, t, value)];
    }

    /** One pass of the loop of prvSwitchTimerLists; n is the true time of the sample that saw the counter wrap,
        and moved the timers that were in the list at first. */
    method ProcessBeforeSwitch(ghost n: nat, ghost moved: seq<Id>)
      requires ListsValid() && AllOnCourse(begun, timers, calls, commands, due, n)
      requires current != [] && Epoch(n) == Epoch(now) + 1
      requires AllSwitchedOut(begun, timers, calls, due, moved, current, Epoch(now))
      modifies `current, `overflow, `expiry, `commands, `calls, `due
      ensures ListsValid() && AllOnCourse(begun, timers, calls, commands, due, n)
      ensures Untouched(moved, old(due), due, old(calls), calls, old(commands), commands)
      ensures AllSwitchedOut(begun, timers, calls, due, moved, current, Epoch(now))
      ensures Potential(Wakes(current, expiry)) < old(Potential(Wakes(current, expiry)))
    {
      hide ListsOk, Wakes, Wrap, Epoch, AllOnCourse, Find, FirstAbove, Untouched, Potential, Without, Insert,
        WakeOf, CommandsFor, AllSwitchedOut;
      var t := current[0];
      var next := WakeOf(expiry, t);
      ghost var list, d, k := current, due, calls;
      HeadOfCurrent(current, overflow, expiry, now, due, n);
      ghost var e := due[t];
      FireKeeps(begun, timers, calls, commands, due, n, t);
      HeadIsMoved(begun, timers, calls, due, moved, current, Epoch(now));
      UntouchedStep(moved, due, calls, commands, t, e + timers[t].period, next);
      FiredOut(begun, timers, calls, commands, due, moved, current, n, Epoch(now));
      RemoveTimer(t);
      calls := calls[t := calls[t] + 1];
      if timers[t].autoReload {
        var reload := Wrap(next + timers[t].period);
        ReloadIs(e, timers[t].period);
        if reload > next {
          PotentialReload(current, expiry, t, reload);
          FiredAgain(begun, timers, k, d, moved, list, FirstAbove(Wakes(current, expiry[t := reload]), reload),
                     e + timers[t].period, Epoch(now));
          InsertCurrent(t, reload, e + timers[t].period);
        } else {
          SendStart(t, next);
        }
      }
    }

    /** prvSwitchTimerLists: every timer still in the current list has expired, some perhaps several times. Each pass
        takes a timer out or puts it back with a later 32-bit expiry, so the loop ends. */
    method SwitchTimerLists(ghost n: nat)
      requires Valid() && Epoch(n) == Epoch(now) + 1 && clock <= n
      modifies `current, `overflow, `expiry, `commands, `calls, `due, `now, `clock
      ensures Valid() && now == clock == n && overflow == []
      ensures Untouched(old(current), old(due), due, old(calls), calls, old(commands), commands)
      ensures AllSwitchedOut(begun, timers, calls, due, old(current), [], Epoch(old(now)))
    {
      hide Schedule, Wakes, Wrap, Epoch, AllOnCourse, Untouched, Potential, AllSwitchedOut;
      SameUntouched(current, due, calls, commands);
      NobodySwitchedOut(begun, timers, calls, due, current, Epoch(now));
      LaterOnCourse(begun, timers, calls, commands, due, clock, n);
      while current != []
        invariant ListsValid() && now == old(now)
        invariant AllOnCourse(begun, timers, calls, commands, due, n)
        invariant Untouched(old(current), old(due), due, old(calls), calls, old(commands), commands)
        invariant AllSwitchedOut(begun, timers, calls, due, old(current), current, Epoch(old(now)))
        decreases Potential(Wakes(current, expiry))
      {
        ghost var d, k, c := due, calls, commands;
        ProcessBeforeSwitch(n, old(current));
        UntouchedTwice(old(current), old(due), d, due, old(calls), k, calls, old(commands), c, commands);
      }
      Swapped(overflow, expiry, now, due, n);
      current, overflow := overflow, current;
      now, clock := n, n;
    }

    /** prvSampleTimeNow, called less than 2^32 ticks after the last sample */
    method SampleTimeNow(timeNow: nat, ghost n: nat) returns (switched: bool)
      requires Valid() && Sampled() && timeNow == Wrap(n) && clock <= n < now + MODULUS
      modifies `current, `overflow, `expiry, `commands, `calls, `due, `now, `clock, `lastTime
      ensures Valid() && Sampled() && now == clock == n && switched == (Epoch(n) != Epoch(old(now)))
      ensures !switched ==> current == old(current) && overflow == old(overflow) && expiry == old(expiry)
                            && commands == old(commands) && calls == old(calls) && due == old(due)
      ensures Untouched(old(current), old(due), due, old(calls), calls, old(commands), commands)
      ensures switched ==> AllSwitchedOut(begun, timers, calls, due, old(current), [], Epoch(old(now)))
    {
      hide Schedule, Wrap, Epoch, AllOnCourse, Untouched, AllSwitchedOut;
      SameUntouched(current, due, calls, commands);
      SampleSees(now, n);
      switched := timeNow < lastTime;
      if switched {
        SwitchTimerLists(n);
      } else {
        LaterOnCourse(begun, timers, calls, commands, due, clock, n);
        now, clock := n, n;
      }
      lastTime := timeNow;
    }

    /** The reload of prvProcessExpiredTimer, for a periodic timer due at e that has been taken out of its list. */
    method ReloadTimer(t: Id, nextExpire: nat, timeNow: nat, ghost e: nat)
      requires ListsValid() && t in timers && t !in due && timeNow == Wrap(now)
      requires nextExpire == Wrap(e) && e <= now < e + MODULUS
      modifies `current, `overflow, `expiry, `commands, `due
      ensures ListsValid()
      ensures var next := e + timers[t].period;
              if next > now then due == old(due)[t := next] && commands == old(commands)
              else due == old(due) && commands == old(commands) + [Command(Start, t, nextExpire)]
    {
      hide ListsOk, Wrap, Epoch, Decide;
      var period := timers[t].period;
      InsertionIsExact(e, now, period);
      ReloadIs(e, period);
      var processNow := InsertTimerInActiveList(t, Wrap(nextExpire + period), timeNow, nextExpire);
      if processNow {
        SendStart(t, nextExpire);
      } else {
        InsertedAt(e + period, now, Decide(Wrap(nextExpire + period), timeNow, nextExpire, period));
      }
    }

    /** prvProcessExpiredTimer: the head of the current list is due by now. */
    method ProcessExpiredTimer(nextExpire: nat, timeNow: nat)
      requires Valid() && Sampled() && timeNow == Wrap(now)
      requires current != [] && nextExpire == WakeOf(expiry, current[0]) && nextExpire <= timeNow
      modifies `current, `overflow, `expiry, `commands, `calls, `due
      ensures Valid() && Sampled()
      ensures old(current)[0] in calls && calls == old(calls)[old(current)[0] := old(calls)[old(current)[0]] + 1]
      ensures old(current)[0] in old(due) && old(current)[0] in timers
      ensures Reloaded(old(current)[0], timers[old(current)[0]], old(due), due, old(commands), commands, now)
    {
      hide ListsOk, Wrap, Epoch, AllOnCourse, Without, Find, WakeOf, CommandsFor;
      var t := current[0];
      ExpiredHead(current, overflow, expiry, now, due);
      ghost var e := due[t];
      FireKeeps(begun, timers, calls, commands, due, clock, t);
      RemoveTimer(t);
      if timers[t].autoReload {
        ReloadTimer(t, nextExpire, timeNow, e);
      }
      calls := calls[t := calls[t] + 1];
    }

    /** prvProcessTimerOrBlockTask. The daemon waits exactly if the counter has not wrapped and no timer is due: until
        the first timer of the turn is due, or until the counter wraps, or for ever if no timer is active. Otherwise, if
        the counter has not wrapped, the first timer is called. */
    method ProcessTimerOrBlock(timeNow: nat, ghost n: nat) returns (waits: bool, ticks: nat, forEver: bool)
      requires Valid() && Sampled() && timeNow == Wrap(n) && clock <= n < now + MODULUS
      modifies `current, `overflow, `expiry, `commands, `calls, `due, `now, `clock, `lastTime
      ensures Valid() && Sampled() && now == clock == n
      ensures waits <==> Epoch(n) == Epoch(old(now)) && forall t | t in old(due) :: old(due)[t] > n
      ensures waits ==> calls == old(calls) && commands == old(commands) && due == old(due)
      ensures waits ==> forall t | t in due :: n + ticks <= due[t] && n < due[t]
      ensures waits && current != [] ==> current[0] in due && n + ticks == due[current[0]]
      ensures waits && current == [] ==> Wrap(n + ticks) == 0 && ticks < MODULUS
      ensures forEver <==> waits && due == map[]
      ensures !waits && Epoch(n) == Epoch(old(now)) ==>
                && old(current) != []
                && var t := old(current)[0];
                && t in old(due) && old(due)[t] <= n && t in old(calls) && t in timers
                && calls == old(calls)[t := old(calls)[t] + 1]
                && Reloaded(t, timers[t], old(due), due, old(commands), commands, n)
      ensures waits && commands == [] ==> forall t | t in begun ::
                t in timers && t in calls && InFull(begun[t], timers[t], calls[t], n)
      ensures calls.Keys == old(calls).Keys && forall t | t in old(calls) :: calls[t] >= old(calls)[t]
      ensures !waits && Epoch(n) == Epoch(old(now)) ==> Expired(due, n) < Expired(old(due), n)
      ensures Epoch(n) != Epoch(old(now)) ==>
                && Untouched(old(current), old(due), due, old(calls), calls, old(commands), commands)
                && AllSwitchedOut(begun, timers, calls, due, old(current), [], Epoch(old(now)))
    {
      hide ListsOk, Wrap, Epoch, AllOnCourse, AllSwitchedOut, Reloaded, WakeOf, InFull, Expired,
        CommandsFor;
      waits, ticks, forEver := false, 0, false;
      var nextExpire, listWasEmpty := GetNextExpireTime();
      var switched := SampleTimeNow(timeNow, n);
      if !switched {
        if !listWasEmpty && nextExpire <= timeNow {
          ExpiredHead(current, overflow, expiry, now, due);
          ghost var d, c := due, commands;
          ProcessExpiredTimer(nextExpire, timeNow);
          OneLessExpired(old(current)[0], timers[old(current)[0]], d, due, c, commands, n);
        } else {
          waits := true;
          ticks := Wrap(nextExpire - timeNow);
          forEver := listWasEmpty && overflow == [];
          WaitIsSafe(current, overflow, expiry, now, due);
          WaitIsExact(current, overflow, expiry, now, due);
          if commands == [] {
            AllInFull(begun, timers, calls, due, n);
          }
        }
      }
    }

    /** xTimerGenericCommand from a task or interrupt, which has read the tick at true time c and gets to queue
        the command at true time at; the daemon may have sampled the clock, and others have queued commands, in
        between. A timer that is idle and is started is on course from c on; any other command for it takes it off
        course. */
    method SendCommand(id: CommandId, t: Id, value: nat, ghost c: nat, ghost at: nat)
      requires Valid() && Sampled() && clock <= at && c <= at && t in timers && IsTick(value)
      requires id == ChangePeriod ==> value > 0
      requires id == Start ==> value == Wrap(c)
      modifies `commands, `clock, `begun
      ensures Valid() && Sampled() && commands == old(commands) + [Command(id, t, value)] && clock == at
      ensures id == Start && t !in due && CommandsFor(old(commands), t) == [] ==>
                begun == old(begun)[t := Beginning(c, calls[t])]
      ensures !(id == Start && t !in due && CommandsFor(old(commands), t) == []) ==> begun == old(begun) - {t}
    {
      hide Schedule, Wakes;
      SendKeeps(begun, timers, calls, commands, due, clock, c, at, Command(id, t, value));
      if id == Start && t !in due && CommandsFor(commands, t) == [] {
        begun := begun[t := Beginning(c, calls[t])];
      } else {
        begun := begun - {t};
      }
      commands := commands + [Command(id, t, value)];
      clock := at;
    }

    /** The start branch of prvProcessReceivedCommands. */
    method StartTimer(t: Id, value: nat, timeNow: nat, ghost b: Beginning, ghost tracked: bool)
      requires ListsValid() && Sampled() && now == clock && timeNow == Wrap(now)
      requires t in timers && t !in due && IsTick(value)
      requires t !in begun && AllOnCourse(begun, timers, calls, commands, due, clock)
      requires tracked ==> Returning(b, timers[t], calls[t], CommandsFor(commands, t), value, now)
      modifies `current, `overflow, `expiry, `commands, `calls, `due, `begun
      ensures Valid() && Sampled() && begun == if tracked then old(begun)[t := b] else old(begun)
      ensures StartedOnce(timers[t], t, value, timeNow, old(calls), calls, old(commands), commands)
      ensures SameDues(old(due), due, t) && (t in due ==> due[t] > now)
      ensures var age := Wrap(timeNow - value);
              if age < timers[t].period then t in due && due[t] == now - age + timers[t].period else t !in due
    {
      hide ListsOk, Wrap, Epoch, AllOnCourse, Decide, Returning, CommandsFor;
      var period := timers[t].period;
      DecideFindsAnyway(value, timeNow, period);
      DueFromAge(value, now, period);
      StartKeeps(begun, timers, calls, commands, due, now, t, value, b, tracked);
      var processNow := InsertTimerInActiveList(t, Wrap(value + period), timeNow, value);
      if processNow {
        calls := calls[t := calls[t] + 1];
        if timers[t].autoReload {
          SendStart(t, Wrap(value + period));
        }
      }
      if tracked {
        begun := begun[t := b];
      }
    }

    /** The change-period branch of prvProcessReceivedCommands. */
    method ChangeTimerPeriod(t: Id, value: nat, timeNow: nat)
      requires ListsValid() && Sampled() && now == clock && timeNow == Wrap(now)
      requires t in timers && t !in due && 0 < value <= MAX_DELAY
      requires t !in begun && AllOnCourse(begun, timers, calls, commands, due, clock)
      modifies `timers, `current, `overflow, `expiry, `due, `begun
      ensures Valid() && Sampled() && timers == old(timers)[t := old(timers)[t].(period := value)]
      ensures due == old(due)[t := now + value]
      ensures begun == if CommandsFor(commands, t) == [] then old(begun)[t := Beginning(now, calls[t])] else old(begun)
    {
      hide Schedule, Epoch, AllOnCourse, Decide, Wrap, CommandsFor, NoDup;
      timers := timers[t := timers[t].(period := value)];
      InsertionIsExact(now, now, value);
      ReloadIs(now, value);
      PeriodKeeps(begun, old(timers), calls, commands, due, now, t, value);
      ghost var d := Decide(Wrap(timeNow + value), timeNow, timeNow, value);
      InsertedAt(now + value, now, d);
      var _ := InsertTimerInActiveList(t, Wrap(timeNow + value), timeNow, timeNow);
      if CommandsFor(commands, t) == [] {
        begun := begun[t := Beginning(now, calls[t])];
      }
    }

    /** The switch over the commands, for a timer that is in no list; b says which timers were on course before. */
    method Act(message: Command, timeNow: nat, ghost b: map<Id, Beginning>)
      requires ListsValid() && Sampled() && now == clock && timeNow == Wrap(now)
      requires message.timer in timers && message.timer !in due && begun == b - {message.timer}
      requires IsTick(message.value) && (message.id == ChangePeriod ==> message.value > 0)
      requires AllOnCourse(begun, timers, calls, commands, due, clock)
      requires var t := message.timer;
               t in b ==>
                 && message.id == Start
                 && Returning(b[t], timers[t], calls[t], CommandsFor(commands, t), message.value, now)
      modifies `timers, `current, `overflow, `expiry, `commands, `calls, `due, `begun
      ensures Valid() && Sampled() && timers.Keys == old(timers).Keys
      ensures Passed(Account(b, old(timers), old(calls), old(due), [message] + old(commands)), Books())
      ensures Progress(Account(b, old(timers), old(calls), old(due), [message] + old(commands)), Books(), now)
      ensures var t := message.timer;
              && t in old(calls)
              && Obeyed(message, old(timers)[t], old(calls)[t], CommandsFor(old(commands), t), Books(), now)
    {
      hide Schedule, Wrap, Epoch, AllOnCourse, Progress, Passed, Returning, CommandsFor, SameDues;
      var t := message.timer;
      ghost var o := Account(b, timers, calls, due, [message] + commands);
      assert o.commands[1..] == commands;
      match message.id {
        case Start =>
          StartTimer(t, message.value, timeNow, if t in b then b[t] else Beginning(0, 0), t in b);
          assert begun == b;
          StartProgress(o, Books(), now);
          StartObeyed(o, Books(), now);
        case Stop =>
          assert begun == b;
          StopProgress(o, now);
        case ChangePeriod =>
          ChangeTimerPeriod(t, message.value, timeNow);
          ChangeProgress(o, Books(), now);
      }
    }

    /** One pass of the loop of prvProcessReceivedCommands: receive a command, take its timer out of its list,
        look at the clock, act. A timer on course whose command is older than a turn of the counter falls behind
        by as many turns. */
    method ProcessReceivedCommand(timeNow: nat, ghost n: nat)
      requires Valid() && Sampled() && commands != []
      requires timeNow == Wrap(n) && clock <= n < now + MODULUS
      modifies `timers, `current, `overflow, `expiry, `commands, `lastTime, `calls, `due, `now, `clock, `begun
      ensures Valid() && Sampled() && now == clock == n && timers.Keys == old(timers).Keys
      ensures Passed(FallenBehind(old(Books()), n), Books())
      ensures Epoch(n) == Epoch(old(now)) ==> Progress(FallenBehind(old(Books()), n), Books(), n)
      ensures var c := old(commands)[0];
              && c.timer in old(timers) && c.timer in old(calls)
              && Obeyed(c, old(timers)[c.timer], old(calls)[c.timer], CommandsFor(old(commands)[1..], c.timer),
                        Books(), n)
    {
      hide ListsOk, Wrap, Epoch, AllOnCourse, Progress, Passed, Slip, Base, Turns, FallenBehind, Returning, Find,
        Without, Obeyed;
      var message := commands[0];
      var t := message.timer;
      ghost var o := FallenBehind(Books(), n);
      BooksAreKept();
      ReceiveKeeps(begun, timers, calls, commands, due, clock, n);
      BehindIs(Books(), n);
      assert commands == [message] + commands[1..];
      commands := commands[1..];
      begun := begun - {t};
      RemoveTimer(t);
      var switched := SampleTimeNow(timeNow, n);
      ghost var a := Account(o.begun, timers, calls, due, [message] + commands);
      ReceivedPassed(o, a);
      assert !switched ==> a == o.(due := o.due - {t});
      Act(message, timeNow, o.begun);
      PassedTwice(o, a, Books());
      if !switched {
        ProgressFrom(o, a, Books(), n);
      }
    }

    /** The loop of prvProcessReceivedCommands, with a sample of the clock for each command and as long as there
        are samples. While the clock stands it ends, with the queue empty, a timer that has missed several periods
        going round once for each; and then the callback of a periodic timer that was on its way has run for every
        whole period exactly if its command was less than 2^32 ticks old. */
    method ProcessReceivedCommands(samples: seq<nat>, ghost times: seq<nat>) returns (taken: nat)
      requires Valid() && Sampled() && ClockRuns(samples, times, now, clock)
      modifies `timers, `current, `overflow, `expiry, `commands, `lastTime, `calls, `due, `now, `clock, `begun
      ensures taken <= |samples| && (commands == [] || taken == |samples|)
      ensures taken > 0 <==> old(commands) != [] && samples != []
      ensures taken == 0 ==> Books() == old(Books())
      ensures Valid() && Sampled() && timers.Keys == old(timers).Keys
      ensures if taken == 0 then now == old(now) && clock == old(clock) else now == clock == times[taken - 1]
      ensures Followed(old(Books()), Books(), now)
      ensures Stands(times, old(now)) ==>
                && DrainedSoFar(old(Books()), Books(), times[0])
                && Expired(due, times[0]) <= Expired(old(due), times[0])
                && (|samples| >= Work(old(commands), samples[0]) ==>
                      commands == [] && (taken > 0 ==> CountedInFull(old(Books()), Books(), times[0])))
    {
      hide Valid, Progress, Passed, Work, Followed, DrainedSoFar, CountedInFull, FallenBehind, Epoch, Wrap, Expired,
        Obeyed;
      taken := 0;
      ghost var o := Books();
      BooksAreKept();
      BasesArePast(o, clock, if times == [] then clock else times[0]);
      NothingDrained(o, if times == [] then 0 else times[0], now);
      while commands != [] && taken < |samples|
        invariant taken <= |samples| && Valid() && Sampled() && timers.Keys == old(timers).Keys
                  && Followed(o, Books(), now)
        invariant if taken == 0 then now == old(now) && clock == old(clock) else now == clock == times[taken - 1]
        invariant Stands(times, old(now)) ==>
                    && DrainedSoFar(o, Books(), times[0]) && Expired(due, times[0]) <= Expired(o.due, times[0])
                    && Work(commands, samples[0]) + taken <= Work(o.commands, samples[0])
        invariant if taken == 0 then Books() == o else o.commands != []
        decreases |samples| - taken
      {
        ghost var a, n := Books(), times[taken];
        ghost var was := now;
        BooksAreKept();
        BasesArePast(a, clock, n);
        ProcessReceivedCommand(samples[taken], n);
        BooksAreKept();
        FollowStep(o, a, Books(), was, n);
        if Stands(times, old(now)) {
          DrainStep(o, a, Books(), n);
          NoneExpires(a, Books(), n);
        }
        taken := taken + 1;
      }
      WorkLeft(commands, if samples == [] then 0 else samples[0]);
      if commands == [] && taken > 0 && Stands(times, old(now)) {
        BooksAreKept();
        DrainEnds(o, Books(), times[0]);
      }
    }

    /** The loop of prvTimerTask, from a sample of the clock on and as long as the clock stands: it ends in a wait, with
        the queue empty and no timer due, and the callbacks of the timers on course have run in full. */
    method RunUntilWaiting(timeNow: nat, ghost n: nat) returns (ticks: nat, forEver: bool)
      requires Valid() && Sampled() && now == clock == n && timeNow == Wrap(n)
      modifies `timers, `current, `overflow, `expiry, `commands, `lastTime, `calls, `due, `now, `clock, `begun
      ensures Valid() && Sampled() && now == clock == n && commands == []
      ensures forall t | t in due :: due[t] > n && n + ticks <= due[t]
      ensures forEver <==> due == map[]
      ensures Followed(old(Books()), Books(), n)
      ensures forall t | t in begun :: t in timers && t in calls && InFull(begun[t], timers[t], calls[t], n)
    {
      hide Valid, Sampled, Followed, DrainedSoFar, CountedInFull, Expired, Epoch, Wrap, InFull, Reloaded, Untouched,
        AllSwitchedOut, Work;
      ghost var o, a := Books(), Books();
      SampledIs();
      Drain(timeNow, n);
      a := Books();
      var waits;
      waits, ticks, forEver := ProcessTimerOrBlock(timeNow, n);
      FollowOn(o, a, Books(), n);
      while !waits
        invariant Valid() && Sampled() && now == clock == n && Followed(o, Books(), n)
        invariant waits ==> commands == [] && forall t | t in due :: due[t] > n && n + ticks <= due[t]
        invariant waits ==> forall t | t in begun ::
                      t in timers && t in calls && InFull(begun[t], timers[t], calls[t], n)
        invariant forEver <==> waits && due == map[]
        decreases Expired(due, n), !waits
      {
        a := Books();
        Drain(timeNow, n);
        FollowedTwice(o, a, Books(), n);
        a := Books();
        waits, ticks, forEver := ProcessTimerOrBlock(timeNow, n);
        FollowOn(o, a, Books(), n);
      }
    }

    lemma SampledIs()
      requires Sampled()
      ensures lastTime == Wrap(now) && now <= clock
    {
    }

    /** The loop of prvProcessReceivedCommands while the clock stands. */
    method Drain(timeNow: nat, ghost n: nat)
      requires Valid() && Sampled() && now == clock == n && timeNow == Wrap(n)
      modifies `timers, `current, `overflow, `expiry, `commands, `lastTime, `calls, `due, `now, `clock, `begun
      ensures Valid() && Sampled() && now == clock == n && commands == []
      ensures Followed(old(Books()), Books(), n) && Expired(due, n) <= Expired(old(due), n)
    {
      hide Valid, Sampled, Followed, DrainedSoFar, CountedInFull, Expired, Epoch, Wrap, Work;
      var count := Work(commands, timeNow);
      WorkLeft(commands, timeNow);
      SameExpired(due, n);
      var taken := ProcessReceivedCommands(seq(count, i => timeNow), seq(count, i => n));
      assert count > 0 ==> Stands(seq(count, i => n), n);
    }

    /** Only known timers are on course. */
    lemma BooksAreKept()
      requires Valid()
      ensures Kept(Books(), clock)
    {
      hide OnCourse, Schedule;
    }
  }

  /** The timers on course are on course, and every timer is known. */
  ghost predicate Kept(o: Account, n: nat) {
    && AllOnCourse(o.begun, o.timers, o.calls, o.commands, o.due, n)
    && (forall t | t in o.begun :: t in o.timers && t in o.calls)
    && (forall t | t in o.timers :: 0 < o.timers[t].period <= MAX_DELAY)
  }

  /** One true time for each sample, never going back, less than 2^32 ticks apart. */
  ghost predicate ClockRuns(samples: seq<nat>, times: seq<nat>, now: nat, clock: nat) {
    && |samples| == |times|
    && forall i {:trigger times[i]} | 0 <= i < |times| ::
         && samples[i] == Wrap(times[i])
         && (if i == 0 then clock <= times[i] < now + MODULUS else times[i - 1] <= times[i] < times[i - 1] + MODULUS)
  }

  /** Every sample is the same, in the turn of the counter of the last sample before. */
  ghost predicate Stands(times: seq<nat>, now: nat) {
    times != [] && Epoch(times[0]) == Epoch(now) && forall i | 0 <= i < |times| :: times[i] == times[0]
  }

  /** What becomes of a timer that has been called for its due time: a periodic timer is in a list for one period later,
      or, if that has passed too, it has been sent a command that carries the time it was due. */
  ghost predicate Reloaded(t: Id, timer: Timer, due: Dues, due': Dues, commands: seq<Command>, commands': seq<Command>,
                           now: nat)
    requires t in due
  {
    && SameDues(due, due', t)
    && var next := due[t] + timer.period;
    if timer.autoReload && next > now then t in due' && due'[t] == next && commands' == commands
    else t !in due' && commands' == commands + if timer.autoReload then [Command(Start, t, Wrap(due[t]))] else []
  }

  /** What a command does to its timer, which had been called that often and had those other commands pending. The age
      of a start command, in 32-bit ticks, decides whether the period is over. */
  ghost predicate Obeyed(c: Command, timer: Timer, calls: nat, pending: seq<Command>, r: Account, n: nat) {
    var t, age := c.timer, Wrap(n - c.value);
    && t in r.timers && t in r.calls
    && r.timers[t] == (if c.id == ChangePeriod then timer.(period := c.value) else timer)
    && match c.id
       case Stop => t !in r.due && r.calls[t] == calls && CommandsFor(r.commands, t) == pending
       case ChangePeriod =>
         t in r.due && r.due[t] == n + c.value && r.calls[t] == calls && CommandsFor(r.commands, t) == pending
       case Start =>
         if age < timer.period then
           && t in r.due && r.due[t] == n - age + timer.period
           && r.calls[t] == calls && CommandsFor(r.commands, t) == pending
         else
           && t !in r.due && r.calls[t] == calls + 1
           && CommandsFor(r.commands, t)
              == pending + if timer.autoReload then [Command(Start, t, Wrap(c.value + timer.period))] else []
  }

  predicate SameDues(due: Dues, due': Dues, t: Id) {
    && (forall u | u in due && u != t :: u in due' && due'[u] == due[u])
    && (forall u | u in due' && u != t :: u in due)
  }

  /** A start command either fires the timer, and then comes back one period later if the timer is periodic, or not. */
  ghost predicate StartedOnce(timer: Timer, t: Id, value: nat, timeNow: nat, calls: map<Id, nat>, calls': map<Id, nat>,
                              commands: seq<Command>, commands': seq<Command>)
  {
    if t in calls && Wrap(timeNow - value) >= timer.period then
      && calls' == calls[t := calls[t] + 1]
      && commands' == if timer.autoReload then commands + [Command(Start, t, Wrap(value + timer.period))] else commands
    else calls' == calls && commands' == commands
  }

  /** The age of a command in 32-bit ticks bounds how often it can come back. */
  function Weight(c: Command, timeNow: nat): nat {
    if c.id == Start then Wrap(timeNow - c.value) + 1 else 1
  }

  function Work(commands: seq<Command>, timeNow: nat): nat {
    if commands == [] then 0 else Weight(commands[0], timeNow) + Work(commands[1..], timeNow)
  }

  lemma {:induction false} WorkAppend(commands: seq<Command>, c: Command, timeNow: nat)
    ensures Work(commands + [c], timeNow) == Work(commands, timeNow) + Weight(c, timeNow)
  {
    hide Weight;
    if commands == [] {
      assert [] + [c] == [c];
    } else {
      assert (commands + [c])[1..] == commands[1..] + [c];
      WorkAppend(commands[1..], c, timeNow);
    }
  }

  predicate Tracked(o: Account, t: Id) {
    t in o.begun && t in o.timers && t in o.calls
  }

  ghost function BaseIn(o: Account, t: Id): int
    requires Tracked(o, t)
  {
    Base(o.begun[t], o.calls[t], o.timers[t].period)
  }

  /** Nothing about the timer has changed. */
  ghost predicate SameTimer(o: Account, r: Account, t: Id) {
    && (t in r.begun <==> t in o.begun) && (t in o.begun ==> r.begun[t] == o.begun[t])
    && (t in r.timers <==> t in o.timers) && (t in o.timers ==> r.timers[t] == o.timers[t])
    && (t in r.calls <==> t in o.calls) && (t in o.calls ==> r.calls[t] == o.calls[t])
    && (t in r.due <==> t in o.due) && (t in o.due ==> r.due[t] == o.due[t])
    && CommandsFor(r.commands, t) == CommandsFor(o.commands, t)
  }

  /** The timers on course stay on course from the same beginning. */
  ghost predicate Passed(o: Account, r: Account) {
    forall t | Tracked(o, t) ::
      Tracked(r, t) && r.begun[t] == o.begun[t] && r.timers[t] == o.timers[t] && r.calls[t] >= o.calls[t]
  }

  lemma PassedTwice(o: Account, a: Account, r: Account)
    requires Passed(o, a) && Passed(a, r)
    ensures Passed(o, r)
  {
  }

  lemma ReceivedPassed(o: Account, a: Account)
    requires a.begun == o.begun && a.timers == o.timers && a.calls.Keys == o.calls.Keys
    requires forall t | t in o.calls :: a.calls[t] >= o.calls[t]
    ensures Passed(o, a)
  {
  }

  /** What handling the first command at true time n does while the clock stands: less work is left, no other timer is
      concerned, and the timer is in no list that was due before. */
  ghost predicate Progress(o: Account, r: Account, n: nat) {
    && o.commands != [] && Work(r.commands, Wrap(n)) < Work(o.commands, Wrap(n))
    && var t := o.commands[0].timer;
    && (forall u | u != t :: SameTimer(o, r, u))
    && (o.commands[0].id == Stop ==> t !in r.due)
    && (t in r.due ==> r.due[t] > n)
  }

  /** The timers that are due. */
  ghost function Expired(due: Dues, n: nat): set<Id> {
    set t | t in due && due[t] <= n
  }

  lemma OneLessExpired(t: Id, timer: Timer, due: Dues, due': Dues, commands: seq<Command>, commands': seq<Command>,
                       n: nat)
    requires t in due && due[t] <= n && Reloaded(t, timer, due, due', commands, commands', n)
    ensures Expired(due', n) < Expired(due, n)
  {
    assert t in Expired(due, n) && t !in Expired(due', n);
    hide Wrap;
  }

  lemma SameExpired(due: Dues, n: nat)
    ensures Expired(due, n) <= Expired(due, n)
  {
  }

  /** Handling a command while the clock stands makes no timer due. */
  lemma NoneExpires(a: Account, r: Account, n: nat)
    requires a.commands != [] && Progress(FallenBehind(a, n), r, n)
    ensures Expired(r.due, n) <= Expired(a.due, n)
  {
    hide Work, CommandsFor, Wrap, Slip, Turns, Base;
    ProgressIs(a, r, n);
    var o := FallenBehind(a, n);
    forall t | t in Expired(r.due, n)
      ensures t in Expired(a.due, n)
    {
      assert t != a.commands[0].timer;
      assert SameTimer(a, r, t);
    }
  }

  lemma ProgressFrom(o: Account, a: Account, r: Account, n: nat)
    requires o.commands != [] && a == o.(due := o.due - {o.commands[0].timer}) && Progress(a, r, n)
    ensures Progress(o, r, n)
  {
    hide Work, CommandsFor, Wrap;
    forall u | u != o.commands[0].timer
      ensures SameTimer(o, r, u)
    {
      assert SameTimer(a, r, u);
    }
  }

  // ---- commands that come late ------------------------------------------------------------------

  /** The beginning of a timer that has fallen behind by whole turns of the counter. */
  ghost function Slip(b: Beginning, turns: nat): Beginning {
    Beginning(b.time + turns * MODULUS, b.calls)
  }

  /** The whole turns of the counter from base to n. */
  ghost function Turns(base: int, n: nat): nat {
    if base <= n then Epoch(n - base) else 0
  }

  lemma TurnsIs(base: int, n: nat)
    requires base <= n
    ensures base + Turns(base, n) * MODULUS <= n < base + Turns(base, n) * MODULUS + MODULUS
    ensures Turns(base, n) == 0 <==> n < base + MODULUS
  {
    WrapEpoch(n - base);
  }

  lemma SlipBase(b: Beginning, turns: nat, calls: nat, period: nat)
    ensures Base(Slip(b, turns), calls, period) == Base(b, calls, period) + turns * MODULUS
    ensures Slip(b, 0) == b
  {
  }

  /** A command's 32-bit value does not show how many turns of the counter have passed. */
  lemma SlipIsUnseen(base: nat, turns: nat)
    ensures Wrap(base + turns * MODULUS) == Wrap(base)
  {
    WrapEpoch(base);
    RemainderIs(base + turns * MODULUS, Epoch(base) + turns, Wrap(base));
  }

  /** The timer of the first command has fallen behind by the whole turns that command is old at n. */
  ghost function FallenBehind(o: Account, n: nat): Account {
    if o.commands == [] || !Tracked(o, o.commands[0].timer) then o else
      var t := o.commands[0].timer;
      o.(begun := o.begun[t := Slip(o.begun[t], Turns(BaseIn(o, t), n))])
  }

  lemma BehindIs(o: Account, n: nat)
    requires o.commands != [] && forall t | t in o.begun :: t in o.timers && t in o.calls
    ensures var r, t := FallenBehind(o, n), o.commands[0].timer;
            && r == o.(begun := r.begun) && r.begun - {t} == o.begun - {t} && (t in r.begun <==> t in o.begun)
            && (t in o.begun ==>
                  r.begun[t] == Slip(o.begun[t], Turns(Base(o.begun[t], o.calls[t], o.timers[t].period), n)))
  {
    hide Slip, Turns, Base;
  }

  // ---- progress ------------------------------------------------------------------------------

  lemma StartProgress(o: Account, r: Account, n: nat)
    requires o.commands != [] && o.commands[0].id == Start && r.begun == o.begun && r.timers == o.timers
    requires var c := o.commands[0];
             && c.timer in o.timers && c.timer in o.calls && o.timers[c.timer].period > 0
             && StartedOnce(o.timers[c.timer], c.timer, c.value, Wrap(n), o.calls, r.calls, o.commands[1..], r.commands)
             && SameDues(o.due, r.due, c.timer) && (c.timer in r.due ==> r.due[c.timer] > n)
    ensures Progress(o, r, n) && Passed(o, r)
  {
    hide Wrap, Work;
    var c := o.commands[0];
    var period := o.timers[c.timer].period;
    var again := Command(Start, c.timer, Wrap(c.value + period));
    PoppedFor(o.commands);
    SentFor(o.commands[1..], again);
    WorkAppend(o.commands[1..], again, Wrap(n));
    WorkHead(o.commands, Wrap(n));
    if Wrap(Wrap(n) - c.value) >= period {
      ReturnsYounger(c.value, Wrap(n), period);
    }
    hide CommandsFor;
  }

  lemma StartObeyed(o: Account, r: Account, n: nat)
    requires o.commands != [] && o.commands[0].id == Start && r.timers == o.timers
    requires var c := o.commands[0];
             && c.timer in o.timers && c.timer in o.calls
             && StartedOnce(o.timers[c.timer], c.timer, c.value, Wrap(n), o.calls, r.calls, o.commands[1..], r.commands)
             && var age := Wrap(Wrap(n) - c.value);
             if age < o.timers[c.timer].period
             then c.timer in r.due && r.due[c.timer] == n - age + o.timers[c.timer].period else c.timer !in r.due
    ensures var c := o.commands[0];
            Obeyed(c, o.timers[c.timer], o.calls[c.timer], CommandsFor(o.commands[1..], c.timer), r, n)
  {
    var c := o.commands[0];
    WrapAdd(n, 0 - c.value as int);
    SentFor(o.commands[1..], Command(Start, c.timer, Wrap(c.value + o.timers[c.timer].period)));
    hide Wrap, CommandsFor;
  }

  /** A command that is not yet a period old makes the timer due one period from the time it carries. */
  lemma DueFromAge(value: nat, n: nat, period: nat)
    requires IsTick(value) && 0 < period <= MAX_DELAY
    ensures var age, p := Wrap(Wrap(n) - value), Decide(Wrap(value + period), Wrap(n), value, period);
            age < period ==>
              && p != ProcessNow
              && (Epoch(n) + if p == Overflow then 1 else 0) * MODULUS + Wrap(value + period) == n - age + period
  {
    hide Decide, Wrap, Epoch;
    var age := Wrap(Wrap(n) - value);
    var later := n + MODULUS;
    var c := later - age;
    WrapEpoch(n);
    TurnLater(n);
    WrapAdd(n, 0 - value as int);
    WrapAdd(later, 0 - (n - value));
    TurnsOff(n, value);
    if age < period {
      InsertionIsExact(c, later, period);
      WrapAdd(c, period);
      InsertedAt(c + period, later, Decide(Wrap(c + period), Wrap(later), Wrap(c), period));
    }
  }

  lemma TurnLater(n: nat)
    ensures Wrap(n + MODULUS) == Wrap(n) && Epoch(n + MODULUS) == Epoch(n) + 1
  {
    WrapEpoch(n);
    RemainderIs(n + MODULUS, Epoch(n) + 1, Wrap(n));
    WrapEpoch(n + MODULUS);
  }

  /** The time a 32-bit value stands for, a turn later than the latest it can be. */
  lemma TurnsOff(n: nat, value: nat)
    requires IsTick(value)
    ensures Wrap(n + MODULUS - Wrap(Wrap(n) - value)) == value
  {
    WrapAdd(n + MODULUS, Wrap(n) - value);
    TurnLater(n);
    WrapAdd(n + MODULUS, value - Wrap(n));
    RemainderIs(value, 0, value);
    WrapEpoch(n);
    RemainderIs(n + MODULUS - (Wrap(n) - value), Epoch(n) + 1, value);
  }

  lemma WorkHead(commands: seq<Command>, timeNow: nat)
    requires commands != []
    ensures Work(commands, timeNow) == Weight(commands[0], timeNow) + Work(commands[1..], timeNow)
    ensures Work(commands, timeNow) > Work(commands[1..], timeNow)
  {
    hide Wrap;
  }

  lemma StopProgress(o: Account, n: nat)
    requires o.commands != [] && o.commands[0].timer !in o.due
    ensures Progress(o, o.(commands := o.commands[1..]), n) && Passed(o, o.(commands := o.commands[1..]))
  {
    hide Wrap, Work;
    PoppedFor(o.commands);
    WorkHead(o.commands, Wrap(n));
    hide CommandsFor;
  }

  lemma ChangeProgress(o: Account, r: Account, n: nat)
    requires o.commands != [] && o.commands[0].id == ChangePeriod && o.commands[0].timer !in o.begun
    requires r.commands == o.commands[1..] && r.calls == o.calls
    requires var t := o.commands[0].timer;
             && t in o.timers && t in r.timers && r.timers == o.timers[t := r.timers[t]]
             && t in r.due && r.due == o.due[t := r.due[t]] && r.due[t] > n
             && (r.begun == o.begun || (t in r.begun && r.begun == o.begun[t := r.begun[t]]))
    ensures Progress(o, r, n) && Passed(o, r)
  {
    hide Wrap, Work;
    PoppedFor(o.commands);
    WorkHead(o.commands, Wrap(n));
    hide CommandsFor;
  }

  lemma DecideFindsAnyway(value: nat, timeNow: nat, period: nat)
    requires IsTick(value) && IsTick(timeNow) && 0 < period <= MAX_DELAY
    ensures Decide(Wrap(value + period), timeNow, value, period) == ProcessNow <==> Wrap(timeNow - value) >= period
  {
    var n := timeNow + MODULUS;
    RemainderIs(n, 1, timeNow);
    RemainderIs(value, 0, value);
    WrapAdd(n, 0 - value as int);
    DecideFinds(value, n, period);
  }

  /** A command that comes back is one period younger. */
  lemma ReturnsYounger(value: nat, timeNow: nat, period: nat)
    requires Wrap(timeNow - value) >= period > 0
    ensures Wrap(timeNow - Wrap(value + period)) == Wrap(timeNow - value) - period
  {
    WrapAdd(timeNow, value + period);
    var q := (timeNow - value) / 0x1_0000_0000;
    RemainderIs(timeNow - (value + period), q, Wrap(timeNow - value) - period);
  }

  lemma HeadIsPending(commands: seq<Command>)
    requires commands != []
    ensures CommandsFor(commands, commands[0].timer) != []
  {
    assert CommandsFor(commands, commands[0].timer)[0] == commands[0];
  }

  lemma BaseRises(b: Beginning, calls: nat, calls': nat, period: nat)
    requires calls <= calls'
    ensures Base(b, calls, period) <= Base(b, calls', period)
  {
    MulLess(calls - b.calls, calls' - b.calls, period);
  }

  lemma MulLess(a: int, b: int, c: nat)
    requires a <= b
    ensures a * c <= b * c
  {
    assert b * c == a * c + (b - a) * c;
  }

  // ---- following the timers through the loop ---------------------------------------------------

  /** The same beginning, or one a number of whole turns of the counter later. */
  predicate WholeTurnsLater(b: Beginning, c: Beginning) {
    c.calls == b.calls && c.time >= b.time && Wrap(c.time - b.time) == 0
  }

  lemma SlipsOn(b: Beginning, c: Beginning, turns: nat)
    requires WholeTurnsLater(b, c)
    ensures WholeTurnsLater(b, Slip(c, turns)) && WholeTurnsLater(b, b)
  {
    SlipIsUnseen(c.time - b.time, turns);
  }

  /** Every timer on course is followed: its beginning has moved by whole turns of the counter at most, and not at
      all if the time is less than 2^32 ticks past the base it had. */
  ghost predicate Followed(o: Account, r: Account, now: nat) {
    forall t | Tracked(o, t) ::
      && Tracked(r, t) && r.timers[t] == o.timers[t] && r.calls[t] >= o.calls[t]
      && WholeTurnsLater(o.begun[t], r.begun[t]) && (now < BaseIn(o, t) + MODULUS ==> r.begun[t] == o.begun[t])
  }

  lemma FollowStep(o: Account, a: Account, r: Account, was: nat, n: nat)
    requires Followed(o, a, was) && was <= n && Passed(FallenBehind(a, n), r)
    ensures Followed(o, r, n)
  {
    hide Slip, Turns, Base, WholeTurnsLater, FallenBehind;
    forall t | Tracked(o, t)
      ensures Tracked(r, t) && r.timers[t] == o.timers[t] && r.calls[t] >= o.calls[t]
      ensures WholeTurnsLater(o.begun[t], r.begun[t]) && (n < BaseIn(o, t) + MODULUS ==> r.begun[t] == o.begun[t])
    {
      var turns := Turns(BaseIn(a, t), n);
      FallenBehindAt(a, t, n);
      SlipsOn(o.begun[t], a.begun[t], turns);
      if n < BaseIn(o, t) + MODULUS {
        BaseRises(o.begun[t], o.calls[t], a.calls[t], o.timers[t].period);
        NoTurns(BaseIn(a, t), n);
        SlipBase(a.begun[t], 0, 0, 0);
      }
    }
  }

  lemma FollowedTwice(o: Account, a: Account, r: Account, n: nat)
    requires Followed(o, a, n) && Followed(a, r, n)
    ensures Followed(o, r, n)
  {
    hide Base, WholeTurnsLater;
    forall t | Tracked(o, t)
      ensures Tracked(r, t) && r.timers[t] == o.timers[t] && r.calls[t] >= o.calls[t]
      ensures WholeTurnsLater(o.begun[t], r.begun[t]) && (n < BaseIn(o, t) + MODULUS ==> r.begun[t] == o.begun[t])
    {
      WholeTurnsTwice(o.begun[t], a.begun[t], r.begun[t]);
      BaseRises(o.begun[t], o.calls[t], a.calls[t], o.timers[t].period);
    }
  }

  lemma WholeTurnsTwice(b: Beginning, c: Beginning, d: Beginning)
    requires WholeTurnsLater(b, c) && WholeTurnsLater(c, d)
    ensures WholeTurnsLater(b, d)
  {
    WrapAdd(c.time - b.time, d.time - c.time);
    RemainderIs(0 + (d.time - c.time), Epoch(d.time - c.time), 0);
    WrapEpoch(d.time - c.time);
  }

  /** Calling timers leaves the beginnings alone. */
  lemma FollowOn(o: Account, a: Account, r: Account, n: nat)
    requires Followed(o, a, n) && r.begun == a.begun && r.timers == a.timers
    requires forall t | t in a.calls :: t in r.calls && r.calls[t] >= a.calls[t]
    ensures Followed(o, r, n)
  {
    hide WholeTurnsLater;
  }

  lemma NoTurns(base: int, n: nat)
    requires n < base + MODULUS
    ensures Turns(base, n) == 0
  {
    if base <= n {
      TurnsIs(base, n);
    }
  }

  lemma FallenBehindAt(o: Account, t: Id, n: nat)
    requires Tracked(o, t)
    ensures var r := FallenBehind(o, n);
            && Tracked(r, t) && r.timers == o.timers && r.calls == o.calls && r.due == o.due && r.commands == o.commands
            && r.begun[t] == (if o.commands != [] && o.commands[0].timer == t
                              then Slip(o.begun[t], Turns(BaseIn(o, t), n)) else o.begun[t])
  {
    hide Slip, Turns, Base;
  }

  /** The command of a timer has been handled, once or several times, at n: the timer has fallen behind by the
      whole turns the command was old, its base is no more than a turn old, and if it is in a list it is not due
      yet. */
  ghost predicate Handled(o: Account, r: Account, t: Id, n: nat)
    requires Tracked(o, t) && Tracked(r, t)
  {
    && r.begun[t] == Slip(o.begun[t], Turns(BaseIn(o, t), n)) && r.timers[t] == o.timers[t]
    && n < BaseIn(r, t) + MODULUS && (t in r.due ==> r.due[t] > n)
  }

  /** While the clock stands: a timer has not been touched, or it had a command pending and that has been handled. */
  ghost predicate DrainedSoFar(o: Account, r: Account, n: nat) {
    forall t | Tracked(o, t) ::
      Tracked(r, t) && (SameTimer(o, r, t) || (CommandsFor(o.commands, t) != [] && Handled(o, r, t, n)))
  }

  lemma NothingDrained(o: Account, n: nat, now: nat)
    ensures DrainedSoFar(o, o, n) && Followed(o, o, now)
  {
    hide Base, CommandsFor;
  }

  lemma OneHandled(o: Account, a: Account, r: Account, n: nat)
    requires a.commands != [] && Tracked(o, a.commands[0].timer) && Tracked(a, a.commands[0].timer)
    requires var t := a.commands[0].timer; SameTimer(o, a, t) || Handled(o, a, t, n)
    requires Progress(FallenBehind(a, n), r, n) && Passed(FallenBehind(a, n), r)
    requires BaseIn(a, a.commands[0].timer) <= n
    ensures Tracked(r, a.commands[0].timer) && Handled(o, r, a.commands[0].timer, n)
  {
    hide Slip, Turns, Base, FallenBehind, CommandsFor, Work, Wrap;
    var t := a.commands[0].timer;
    var turns := Turns(BaseIn(a, t), n);
    FallenBehindAt(a, t, n);
    TurnsIs(BaseIn(a, t), n);
    SlipBase(a.begun[t], turns, a.calls[t], a.timers[t].period);
    SlipBase(a.begun[t], 0, a.calls[t], a.timers[t].period);
    BaseRises(r.begun[t], a.calls[t], r.calls[t], a.timers[t].period);
  }

  lemma BasesArePast(o: Account, now: nat, n: nat)
    requires Kept(o, now) && now <= n
    ensures forall t | t in o.begun :: Tracked(o, t) && BaseIn(o, t) <= n
    ensures forall t | t in o.timers :: 0 < o.timers[t].period <= MAX_DELAY
  {
    hide CommandsFor;
  }

  lemma DrainStep(o: Account, a: Account, r: Account, n: nat)
    requires DrainedSoFar(o, a, n) && a.commands != [] && Progress(FallenBehind(a, n), r, n)
             && Passed(FallenBehind(a, n), r)
    requires Kept(r, n) && forall t | t in a.begun :: Tracked(a, t) && BaseIn(a, t) <= n
    ensures DrainedSoFar(o, r, n) && Work(r.commands, Wrap(n)) < Work(a.commands, Wrap(n))
  {
    hide Slip, Turns, Base, FallenBehind, CommandsFor, Work, Wrap, Kept, Handled, SameTimer;
    var first := a.commands[0].timer;
    HeadIsPending(a.commands);
    ProgressIs(a, r, n);
    forall t | Tracked(o, t)
      ensures Tracked(r, t) && (SameTimer(o, r, t) || (CommandsFor(o.commands, t) != [] && Handled(o, r, t, n)))
    {
      if t == first {
        SameCommands(o, a, t);
        OneHandled(o, a, r, n);
      } else {
        StillHandled(o, a, r, t, n);
      }
    }
  }

  lemma SameCommands(o: Account, a: Account, t: Id)
    ensures SameTimer(o, a, t) ==> CommandsFor(o.commands, t) == CommandsFor(a.commands, t)
  {
    hide CommandsFor;
  }

  lemma ProgressIs(a: Account, r: Account, n: nat)
    requires a.commands != [] && Progress(FallenBehind(a, n), r, n)
    ensures Work(r.commands, Wrap(n)) < Work(a.commands, Wrap(n))
    ensures forall u | u != a.commands[0].timer :: SameTimer(a, r, u)
  {
    hide Slip, Turns, Base, CommandsFor, Work, Wrap;
    forall u | u != a.commands[0].timer
      ensures SameTimer(a, r, u)
    {
      assert SameTimer(FallenBehind(a, n), r, u);
    }
  }

  lemma StillHandled(o: Account, a: Account, r: Account, t: Id, n: nat)
    requires Tracked(o, t) && Tracked(a, t) && SameTimer(a, r, t)
    ensures Tracked(r, t)
    ensures SameTimer(o, a, t) ==> SameTimer(o, r, t)
    ensures Handled(o, a, t, n) ==> Handled(o, r, t, n)
  {
    hide Slip, Turns, Base, CommandsFor;
  }

  lemma WorkLeft(commands: seq<Command>, timeNow: nat)
    ensures commands != [] ==> Work(commands, timeNow) > 0
  {
    if commands != [] {
      WorkHead(commands, timeNow);
    }
  }

  /** The callback has run for every whole period since the beginning; that of a one-shot timer once, if its period is
      over. */
  predicate InFull(b: Beginning, timer: Timer, calls: nat, n: nat) {
    && timer.period > 0 && b.time <= n && calls >= b.calls
    && calls - b.calls == if timer.autoReload then (n - b.time) / timer.period
                          else if n >= b.time + timer.period then 1 else 0
  }

  /** Every periodic timer whose command was on its way has been called for every whole period exactly if the
      command was less than 2^32 ticks old. */
  ghost predicate CountedInFull(o: Account, r: Account, n: nat) {
    forall t | Tracked(o, t) && CommandsFor(o.commands, t) != [] && o.timers[t].autoReload ::
      Tracked(r, t) && (InFull(o.begun[t], o.timers[t], r.calls[t], n) <==> n < BaseIn(o, t) + MODULUS)
  }

  /** Falling behind by whole turns costs at least one call, as no period is longer than a turn. */
  lemma SlippedCount(b: Beginning, turns: nat, timer: Timer, calls: nat, t: Id, due: Dues, n: nat)
    requires OnCourse(Slip(b, turns), timer, calls, [], t, due, n) && (t in due ==> due[t] > n)
    requires timer.autoReload && 0 < timer.period <= MAX_DELAY
    ensures InFull(b, timer, calls, n) <==> turns == 0
  {
    var c := Slip(b, turns);
    CountIsComplete(c, timer, calls, t, due, n);
    if turns > 0 {
      var k := calls - b.calls;
      assert Base(c, calls, timer.period) <= n;
      assert n - b.time >= (k + 1) * timer.period;
      QuotientAtLeast(n - b.time, timer.period, k + 1);
    }
  }

  lemma QuotientAtLeast(a: nat, b: nat, q: nat)
    requires b > 0 && a >= q * b
    ensures a / b >= q
  {
    assert a / b * b + a % b == a;
    MultipleIsFar(a / b - q, b);
    assert (a / b - q) * b == a / b * b - q * b;
  }

  lemma DrainEnds(o: Account, r: Account, n: nat)
    requires DrainedSoFar(o, r, n) && r.commands == [] && Kept(r, n)
    requires forall t | t in o.begun :: Tracked(o, t) && BaseIn(o, t) <= n
    requires forall t | t in o.timers :: 0 < o.timers[t].period <= MAX_DELAY
    ensures CountedInFull(o, r, n)
  {
    hide Slip, Turns, Base, OnCourse, InFull;
    forall t | Tracked(o, t) && CommandsFor(o.commands, t) != [] && o.timers[t].autoReload
      ensures Tracked(r, t) && (InFull(o.begun[t], o.timers[t], r.calls[t], n) <==> n < BaseIn(o, t) + MODULUS)
    {
      var turns := Turns(BaseIn(o, t), n);
      TurnsIs(BaseIn(o, t), n);
      SlippedCount(o.begun[t], turns, o.timers[t], r.calls[t], t, r.due, n);
    }
  }

  /** A timer on course whose reload command is being handled. */
  ghost predicate Returning(b: Beginning, timer: Timer, calls: nat, pending: seq<Command>, value: nat, now: nat) {
    var base := Base(b, calls, timer.period);
    && b.calls <= calls && 0 <= base <= now < base + MODULUS && value == Wrap(base) && pending == []
    && (!timer.autoReload ==> calls == b.calls)
  }

  /** For a timer on course the command received is the one it is waiting for. */
  lemma Returns(b: Beginning, timer: Timer, calls: nat, commands: seq<Command>, t: Id, due: Dues, now: nat, n: nat)
    requires commands != [] && commands[0].timer == t
    requires OnCourse(b, timer, calls, CommandsFor(commands, t), t, due, now)
    ensures t !in due && commands[0].id == Start
    ensures now <= n ==> Returning(Slip(b, Turns(Base(b, calls, timer.period), n)), timer, calls,
                                   CommandsFor(commands[1..], t), commands[0].value, n)
  {
    hide Wrap, Base, Turns, Slip;
    var base := Base(b, calls, timer.period);
    if now <= n {
      TurnsIs(base, n);
      SlipBase(b, Turns(base, n), calls, timer.period);
      SlipIsUnseen(base, Turns(base, n));
      SlipKeepsCalls(b, Turns(base, n));
    }
    var pending := CommandsFor(commands, t);
    assert pending == [commands[0]] + CommandsFor(commands[1..], t);
    assert pending[0] == commands[0] && |pending| == 1 + |CommandsFor(commands[1..], t)|;
  }

  lemma SlipKeepsCalls(b: Beginning, turns: nat)
    ensures Slip(b, turns).calls == b.calls
  {
  }

  lemma PoppedFor(commands: seq<Command>)
    requires commands != []
    ensures forall u | u != commands[0].timer :: CommandsFor(commands[1..], u) == CommandsFor(commands, u)
  {
  }

  /** Taking the first command off the queue. */
  lemma ReceiveKeeps(begun: map<Id, Beginning>, timers: map<Id, Timer>, calls: map<Id, nat>, commands: seq<Command>,
                     due: Dues, now: nat, n: nat)
    requires AllOnCourse(begun, timers, calls, commands, due, now) && commands != [] && now <= n
    ensures var t := commands[0].timer;
            && AllOnCourse(begun - {t}, timers, calls, commands[1..], due - {t}, now)
            && (t in begun ==>
                  && t !in due && commands[0].id == Start && t in timers && t in calls
                  && Returning(Slip(begun[t], Turns(Base(begun[t], calls[t], timers[t].period), n)), timers[t],
                               calls[t], CommandsFor(commands[1..], t), commands[0].value, n))
  {
    hide OnCourse, CommandsFor, Base, Slip, Turns;
    var t := commands[0].timer;
    PoppedFor(commands);
    OthersOnCourse(begun, timers, calls, calls, commands, commands[1..], due, due - {t}, now, now, t);
    if t in begun {
      Returns(begun[t], timers[t], calls[t], commands, t, due, now, n);
    }
  }

  lemma SendKeeps(begun: map<Id, Beginning>, timers: map<Id, Timer>, calls: map<Id, nat>, commands: seq<Command>,
                  due: Dues, now: nat, read: nat, later: nat, c: Command)
    requires AllOnCourse(begun, timers, calls, commands, due, now) && now <= later && read <= later
    requires c.timer in timers && c.timer in calls
    ensures AllOnCourse(begun - {c.timer}, timers, calls, commands + [c], due, later)
    ensures c.id == Start && c.value == Wrap(read) && c.timer !in due && CommandsFor(commands, c.timer) == [] ==>
              AllOnCourse(begun[c.timer := Beginning(read, calls[c.timer])], timers, calls, commands + [c], due, later)
  {
    hide OnCourse, AllOnCourse, CommandsFor;
    var t := c.timer;
    SentFor(commands, c);
    OthersOnCourse(begun, timers, calls, calls, commands, commands + [c], due, due, now, later, t);
    if c.id == Start && c.value == Wrap(read) && t !in due && CommandsFor(commands, t) == [] {
      assert [] + [c] == [c];
      JustStarted(timers[t], calls[t], c, due, read, later);
      WithTimer(begun, timers, calls, commands + [c], due, later, t, Beginning(read, calls[t]));
    }
  }

  /** A timer whose start command, with the tick of true time read, is on the way. */
  lemma JustStarted(timer: Timer, calls: nat, c: Command, due: Dues, read: nat, now: nat)
    requires c.id == Start && c.value == Wrap(read) && read <= now && c.timer !in due
    ensures OnCourse(Beginning(read, calls), timer, calls, [c], c.timer, due, now)
  {
  }

  lemma PeriodKeeps(begun: map<Id, Beginning>, timers: map<Id, Timer>, calls: map<Id, nat>, commands: seq<Command>,
                    due: Dues, now: nat, t: Id, period: nat)
    requires AllOnCourse(begun, timers, calls, commands, due, now) && t in timers && t in calls && t !in begun
             && t !in due
    ensures var changed := timers[t := timers[t].(period := period)];
            && AllOnCourse(begun, changed, calls, commands, due[t := now + period], now)
            && (CommandsFor(commands, t) == [] ==>
                  AllOnCourse(begun[t := Beginning(now, calls[t])], changed, calls, commands, due[t := now + period],
                              now))
  {
  }

  /** The three outcomes of handling a start command, for the timer itself. */
  lemma Restarted(b: Beginning, timer: Timer, calls: nat, t: Id, due: Dues, now: nat, value: nat)
    requires Returning(b, timer, calls, [], value, now) && t !in due && 0 < timer.period <= MAX_DELAY
    ensures var p := Decide(Wrap(value + timer.period), Wrap(now), value, timer.period);
            && (p == ProcessNow && timer.autoReload ==>
                  OnCourse(b, timer, calls + 1, [Command(Start, t, Wrap(value + timer.period))], t, due, now))
            && (p == ProcessNow && !timer.autoReload ==> OnCourse(b, timer, calls + 1, [], t, due, now))
            && (p != ProcessNow ==>
                  OnCourse(b, timer, calls, [], t,
                           due[t := (Epoch(now) + if p == Overflow then 1 else 0) * MODULUS
                               + Wrap(value + timer.period)], now))
  {
    var base := Base(b, calls, timer.period);
    InsertionIsExact(base, now, timer.period);
    ReloadIs(base, timer.period);
    BaseStep(b, calls, timer.period);
    InsertedAt(base + timer.period, now, Decide(Wrap(value + timer.period), Wrap(now), value, timer.period));
    hide Decide, Wrap, Epoch;
  }

  lemma StartKeeps(begun: map<Id, Beginning>, timers: map<Id, Timer>, calls: map<Id, nat>, commands: seq<Command>,
                   due: Dues, now: nat, t: Id, value: nat, b: Beginning, tracked: bool)
    requires AllOnCourse(begun, timers, calls, commands, due, now) && t in timers && t in calls && t !in begun
             && t !in due
    requires 0 < timers[t].period <= MAX_DELAY && IsTick(value)
    requires tracked ==> Returning(b, timers[t], calls[t], CommandsFor(commands, t), value, now)
    ensures var period := timers[t].period;
            var p := Decide(Wrap(value + period), Wrap(now), value, period);
            var after := if tracked then begun[t := b] else begun;
            var called := calls[t := calls[t] + 1];
            && (p == ProcessNow && timers[t].autoReload ==>
                  AllOnCourse(after, timers, called, commands + [Command(Start, t, Wrap(value + period))], due, now))
            && (p == ProcessNow && !timers[t].autoReload ==> AllOnCourse(after, timers, called, commands, due, now))
            && (p != ProcessNow ==>
                  AllOnCourse(after, timers, calls, commands,
                              due[t := (Epoch(now) + if p == Overflow then 1 else 0) * MODULUS
                                  + Wrap(value + period)], now))
  {
    hide OnCourse, AllOnCourse, Decide, Wrap, Epoch, Base, CommandsFor;
    var period := timers[t].period;
    var p := Decide(Wrap(value + period), Wrap(now), value, period);
    var called := calls[t := calls[t] + 1];
    var c := Command(Start, t, Wrap(value + period));
    var d := due[t := (Epoch(now) + if p == Overflow then 1 else 0) * MODULUS + Wrap(value + period)];
    SentFor(commands, c);
    assert begun - {t} == begun;
    OthersOnCourse(begun, timers, calls, called, commands, commands + [c], due, due, now, now, t);
    OthersOnCourse(begun, timers, calls, called, commands, commands, due, due, now, now, t);
    OthersOnCourse(begun, timers, calls, calls, commands, commands, due, d, now, now, t);
    if tracked {
      NothingPending(b, timers[t], calls[t], CommandsFor(commands, t), value, now);
      Restarted(b, timers[t], calls[t], t, due, now, value);
      assert [] + [c] == [c];
      if p == ProcessNow && timers[t].autoReload {
        WithTimer(begun, timers, called, commands + [c], due, now, t, b);
      } else if p == ProcessNow {
        WithTimer(begun, timers, called, commands, due, now, t, b);
      } else {
        WithTimer(begun, timers, calls, commands, d, now, t, b);
      }
    }
  }

  /** A command appended to the queue concerns one timer. */
  lemma SentFor(commands: seq<Command>, c: Command)
    ensures forall u :: CommandsFor(commands + [c], u) == CommandsFor(commands, u) + (if u == c.timer then [c] else [])
  {
    forall u
      ensures CommandsFor(commands + [c], u) == CommandsFor(commands, u) + (if u == c.timer then [c] else [])
    {
      CommandsForAppend(commands, c, u);
    }
  }

  lemma NothingPending(b: Beginning, timer: Timer, calls: nat, pending: seq<Command>, value: nat, now: nat)
    requires Returning(b, timer, calls, pending, value, now)
    ensures pending == []
  {
  }

  /** The daemon's waiting time never passes an expiry. */
  lemma WaitIsSafe(current: seq<Id>, overflow: seq<Id>, expiry: map<Id, nat>, now: nat, due: Dues)
    requires ListsOk(current, overflow, expiry, now, due)
    ensures current != [] && WakeOf(expiry, current[0]) > Wrap(now) ==>
              forall t | t in due :: now + Wrap(WakeOf(expiry, current[0]) - Wrap(now)) <= due[t] && now < due[t]
    ensures current == [] ==> forall t | t in due :: now + Wrap(0 - Wrap(now)) <= due[t] && now < due[t]
    ensures current == [] && overflow == [] ==> due == map[]
  {
    WrapEpoch(now);
    if current == [] && overflow == [] {
      assert due.Keys == {};
    }
    forall t | t in due && (current == [] || WakeOf(expiry, current[0]) > Wrap(now))
      ensures now + Wrap((if current == [] then 0 else WakeOf(expiry, current[0])) - Wrap(now)) <= due[t]
              && now < due[t]
    {
      WrapEpoch(due[t]);
      if t in current {
        HeadIsLeast(current, expiry);
        SameEpochOrder(due[t], now);
      }
    }
  }

  lemma WaitIsExact(current: seq<Id>, overflow: seq<Id>, expiry: map<Id, nat>, now: nat, due: Dues)
    requires ListsOk(current, overflow, expiry, now, due)
    ensures current != [] && WakeOf(expiry, current[0]) > Wrap(now) ==>
              && current[0] in due
              && now + Wrap(WakeOf(expiry, current[0]) - Wrap(now)) == due[current[0]]
    ensures Wrap(now + Wrap(0 - Wrap(now))) == 0
    ensures due == map[] <==> current == [] && overflow == []
  {
    WrapEpoch(now);
    WrapAdd(now, Wrap(0 - Wrap(now)));
    if current != [] {
      assert current[0] in current;
      WrapEpoch(due[current[0]]);
    } else if overflow != [] {
      assert overflow[0] in overflow;
    } else {
      assert due.Keys == {};
    }
  }

  lemma UntouchedTwice(moved: seq<Id>, d0: Dues, d1: Dues, d2: Dues, k0: map<Id, nat>, k1: map<Id, nat>,
                       k2: map<Id, nat>, c0: seq<Command>, c1: seq<Command>, c2: seq<Command>)
    requires Untouched(moved, d0, d1, k0, k1, c0, c1) && Untouched(moved, d1, d2, k1, k2, c1, c2)
    ensures Untouched(moved, d0, d2, k0, k2, c0, c2)
  {
  }

  /** A sample less than 2^32 ticks after the last sees the counter go back exactly when it has wrapped. */
  lemma SampleSees(now: nat, n: nat)
    requires now <= n < now + MODULUS
    ensures Wrap(n) < Wrap(now) <==> Epoch(n) != Epoch(now)
    ensures Wrap(n) < Wrap(now) ==> Epoch(n) == Epoch(now) + 1
    ensures Wrap(n) >= Wrap(now) ==> Epoch(n) == Epoch(now)
  {
    WrapCrossing(now, n - now);
  }

  lemma ExpiredHead(current: seq<Id>, overflow: seq<Id>, expiry: map<Id, nat>, now: nat, due: Dues)
    requires ListsOk(current, overflow, expiry, now, due) && current != []
    ensures var t := current[0];
            && t in due && WakeOf(expiry, t) == Wrap(due[t])
            && (WakeOf(expiry, t) <= Wrap(now) ==> due[t] <= now < due[t] + MODULUS)
            && (WakeOf(expiry, t) > Wrap(now) ==> due[t] > now)
  {
    var t := current[0];
    assert t in current;
    SameEpochOrder(due[t], now);
    WrapEpoch(due[t]);
    WrapEpoch(now);
  }

  /** The list chosen for an expiry in the right epoch makes the timer due at exactly that time. */
  lemma InsertedAt(d: nat, now: nat, p: Placement)
    requires p == Current ==> Epoch(d) == Epoch(now)
    requires p == Overflow ==> Epoch(d) == Epoch(now) + 1
    ensures p != ProcessNow ==> (Epoch(now) + if p == Overflow then 1 else 0) * MODULUS + Wrap(d) == d
  {
    WrapEpoch(d);
  }

  lemma TakeTimer(early: seq<Id>, late: seq<Id>, expiry: map<Id, nat>, epoch: nat, due: Dues, t: Id)
    requires Schedule(early, late, expiry, epoch, due) && NoDup(early) && NoDup(late)
    ensures t in early ==> t !in late
    ensures t in early ==> t !in Without(early, Find(early, t))
    ensures t in late ==> t !in Without(late, Find(late, t))
    ensures t in early ==>
              var r := Without(early, Find(early, t)); Schedule(r, late, expiry, epoch, due - {t}) && NoDup(r)
    ensures t in late ==>
              var r := Without(late, Find(late, t)); Schedule(early, r, expiry, epoch, due - {t}) && NoDup(r)
    ensures t !in early && t !in late ==> due - {t} == due
  {
    ScheduleTake(early, late, expiry, epoch, due, t);
    if t in early {
      WithoutMembers(early, Find(early, t));
    }
    if t in late {
      WithoutMembers(late, Find(late, t));
    }
  }

  /** Timers not among the ones moved are due when they were, have not been called, and have no new commands; nobody's
      callback has been taken back. */
  ghost predicate Untouched(moved: seq<Id>, due: Dues, due': Dues, calls: map<Id, nat>, calls': map<Id, nat>,
                            commands: seq<Command>, commands': seq<Command>)
  {
    && calls'.Keys == calls.Keys && (forall u | u in calls :: calls'[u] >= calls[u])
    && forall u | u !in moved ::
         && (u in due' <==> u in due) && (u in due ==> due'[u] == due[u])
         && (u in calls ==> calls'[u] == calls[u]) && CommandsFor(commands', u) == CommandsFor(commands, u)
  }

  lemma SameUntouched(moved: seq<Id>, due: Dues, calls: map<Id, nat>, commands: seq<Command>)
    ensures Untouched(moved, due, due, calls, calls, commands, commands)
  {
  }

  lemma UntouchedStep(moved: seq<Id>, due: Dues, calls: map<Id, nat>, commands: seq<Command>, t: Id, d: nat, v: nat)
    requires t in moved && t in due && t in calls
    ensures var called := calls[t := calls[t] + 1];
            && Untouched(moved, due, due - {t}, calls, called, commands, commands)
            && Untouched(moved, due, (due - {t})[t := d], calls, called, commands, commands)
            && Untouched(moved, due, due - {t}, calls, called, commands, commands + [Command(Start, t, v)])
  {
    forall u
      ensures u != t ==> CommandsFor(commands + [Command(Start, t, v)], u) == CommandsFor(commands, u)
    {
      CommandsForAppend(commands, Command(Start, t, v), u);
    }
  }

  /** A timer that a list switch has taken out of the list of the old epoch: the last of its expiries in that
      epoch has been handled. */
  ghost predicate SwitchedOut(b: Beginning, timer: Timer, calls: nat, epoch: nat) {
    var base := Base(b, calls, timer.period);
    && base >= 0
    && (timer.autoReload ==> Epoch(base) == epoch && Epoch(base + timer.period) == epoch + 1)
    && (!timer.autoReload ==> calls == b.calls + 1)
  }

  /** The timers moved that are not in the list any more are in no list. */
  ghost predicate AllSwitchedOut(begun: map<Id, Beginning>, timers: map<Id, Timer>, calls: map<Id, nat>, due: Dues,
                                 moved: seq<Id>, current: seq<Id>, epoch: nat)
  {
    && (forall t | t in current :: t in moved)
    && forall t | t in moved && t !in current ::
         t !in due && (t in begun && t in timers && t in calls ==> SwitchedOut(begun[t], timers[t], calls[t], epoch))
  }

  lemma NobodySwitchedOut(begun: map<Id, Beginning>, timers: map<Id, Timer>, calls: map<Id, nat>, due: Dues,
                          current: seq<Id>, epoch: nat)
    ensures AllSwitchedOut(begun, timers, calls, due, current, current, epoch)
  {
  }

  lemma HeadIsMoved(begun: map<Id, Beginning>, timers: map<Id, Timer>, calls: map<Id, nat>, due: Dues,
                    moved: seq<Id>, current: seq<Id>, epoch: nat)
    requires AllSwitchedOut(begun, timers, calls, due, moved, current, epoch) && current != []
    ensures current[0] in moved
  {
    assert current[0] in current;
  }

  /** The head of the list has been called and is put back with a later expiry. */
  lemma FiredAgain(begun: map<Id, Beginning>, timers: map<Id, Timer>, calls: map<Id, nat>, due: Dues,
                   moved: seq<Id>, current: seq<Id>, p: nat, d: nat, epoch: nat)
    requires AllSwitchedOut(begun, timers, calls, due, moved, current, epoch) && current != [] && NoDup(current)
    requires current[0] in calls && p <= |Without(current, 0)|
    ensures var t := current[0];
            AllSwitchedOut(begun, timers, calls[t := calls[t] + 1], (due - {t})[t := d], moved,
                           Insert(Without(current, 0), p, t), epoch)
  {
    var t := current[0];
    WithoutMembers(current, 0);
    InsertMembers(Without(current, 0), p, t);
    forall u
      ensures u in Insert(Without(current, 0), p, t) <==> u in current
    {
    }
    hide SwitchedOut, NoDup;
  }

  /** The head of the list has been called and is switched out. */
  lemma FiredOut(begun: map<Id, Beginning>, timers: map<Id, Timer>, calls: map<Id, nat>, commands: seq<Command>,
                 due: Dues, moved: seq<Id>, current: seq<Id>, n: nat, epoch: nat)
    requires AllOnCourse(begun, timers, calls, commands, due, n) && NoDup(current)
    requires AllSwitchedOut(begun, timers, calls, due, moved, current, epoch) && current != []
    requires var t := current[0];
             && t in due && t in timers && t in calls && Epoch(due[t]) == epoch
             && 0 < timers[t].period <= MAX_DELAY
    ensures var t, called := current[0], calls[current[0] := calls[current[0]] + 1];
            !timers[t].autoReload || Wrap(due[t] + timers[t].period) <= Wrap(due[t]) ==>
              AllSwitchedOut(begun, timers, called, due - {t}, moved, Without(current, 0), epoch)
  {
    var t := current[0];
    assert t in current;
    WithoutMembers(current, 0);
    WrapCrossing(due[t], timers[t].period);
    if t in begun {
      BaseStep(begun[t], calls[t], timers[t].period);
    }
    hide Base, CommandsFor, Wrap, Epoch, NoDup;
  }

  lemma LaterOnCourse(begun: map<Id, Beginning>, timers: map<Id, Timer>, calls: map<Id, nat>,
                      commands: seq<Command>, due: Dues, now: nat, later: nat)
    requires now <= later && AllOnCourse(begun, timers, calls, commands, due, now)
    ensures AllOnCourse(begun, timers, calls, commands, due, later)
  {
  }

  /** The head of the current list, when the counter has moved on to n. */
  lemma HeadOfCurrent(current: seq<Id>, overflow: seq<Id>, expiry: map<Id, nat>, now: nat, due: Dues, n: nat)
    requires ListsOk(current, overflow, expiry, now, due) && current != [] && Epoch(n) == Epoch(now) + 1
    ensures var t := current[0];
            && t in due && WakeOf(expiry, t) == Wrap(due[t]) && Epoch(due[t]) == Epoch(now) && due[t] <= n
            && t in current && NoDup(current) && Find(current, t) == 0
            && Potential(Wakes(current, expiry)) == Potential(Wakes(Without(current, 0), expiry))
               + MODULUS - WakeOf(expiry, t)
  {
    var t := current[0];
    assert t in current;
    WrapEpoch(due[t]);
    WrapEpoch(n);
    assert Wakes(current, expiry)[1..] == Wakes(Without(current, 0), expiry);
  }

  /** The reload time stays in the list exactly when it does not wrap. */
  lemma ReloadIs(e: nat, period: nat)
    requires 0 < period <= MAX_DELAY
    ensures Wrap(Wrap(e) + period) == Wrap(e + period)
    ensures Wrap(e + period) > Wrap(e) ==> Epoch(e + period) == Epoch(e)
  {
    WrapCrossing(e, period);
  }

  lemma PotentialReload(current: seq<Id>, expiry: map<Id, nat>, t: Id, reload: nat)
    requires t !in current && reload < MODULUS
    ensures var w := expiry[t := reload];
            Potential(Wakes(Insert(current, FirstAbove(Wakes(current, w), reload), t), w))
            == Potential(Wakes(current, expiry)) + MODULUS - reload
  {
    var w := expiry[t := reload];
    var p := FirstAbove(Wakes(current, w), reload);
    WakesElsewhere(current, expiry, t, reload);
    assert Wakes(Insert(current, p, t), w) == Insert(Wakes(current, w), p, reload);
    PotentialInsert(Wakes(current, w), p, reload);
  }

  /** With the current list empty the overflow list is the list of the next epoch. */
  lemma Swapped(overflow: seq<Id>, expiry: map<Id, nat>, now: nat, due: Dues, n: nat)
    requires ListsOk([], overflow, expiry, now, due) && Epoch(n) == Epoch(now) + 1
    ensures ListsOk(overflow, [], expiry, n, due)
  {
  }

  /** A timer's callback has run for its due time; it is given its next due time, or sent a reload command, or, if
      it is a one-shot timer, left alone. */
  lemma FireKeeps(begun: map<Id, Beginning>, timers: map<Id, Timer>, calls: map<Id, nat>,
                  commands: seq<Command>, due: Dues, now: nat, t: Id)
    requires AllOnCourse(begun, timers, calls, commands, due, now) && t in due && due[t] <= now
    requires t in timers && t in calls
    ensures var called := calls[t := calls[t] + 1];
            && (!timers[t].autoReload ==> AllOnCourse(begun, timers, called, commands, due - {t}, now))
            && (timers[t].autoReload ==>
                  && AllOnCourse(begun, timers, called, commands, (due - {t})[t := due[t] + timers[t].period], now)
                  && AllOnCourse(begun, timers, called, commands + [Command(Start, t, Wrap(due[t]))], due - {t}, now))
  {
    hide OnCourse, AllOnCourse, CommandsFor;
    var c := Command(Start, t, Wrap(due[t]));
    var called, later := calls[t := calls[t] + 1], due[t] + timers[t].period;
    SentFor(commands, c);
    OthersOnCourse(begun, timers, calls, called, commands, commands, due, due - {t}, now, now, t);
    OthersOnCourse(begun, timers, calls, called, commands, commands, due, (due - {t})[t := later], now, now, t);
    OthersOnCourse(begun, timers, calls, called, commands, commands + [c], due, due - {t}, now, now, t);
    if t in begun {
      CourseOf(begun, timers, calls, commands, due, now, t);
      Fired(begun[t], timers[t], calls[t], CommandsFor(commands, t), t, due, now);
      assert [] + [c] == [c];
      assert begun[t := begun[t]] == begun;
      if timers[t].autoReload {
        WithTimer(begun, timers, called, commands, (due - {t})[t := later], now, t, begun[t]);
        WithTimer(begun, timers, called, commands + [c], due - {t}, now, t, begun[t]);
      } else {
        WithTimer(begun, timers, called, commands, due - {t}, now, t, begun[t]);
      }
    } else {
      assert begun - {t} == begun;
    }
  }

  lemma CourseOf(begun: map<Id, Beginning>, timers: map<Id, Timer>, calls: map<Id, nat>, commands: seq<Command>,
                 due: Dues, now: nat, t: Id)
    requires AllOnCourse(begun, timers, calls, commands, due, now) && t in begun
    ensures t in timers && t in calls && OnCourse(begun[t], timers[t], calls[t], CommandsFor(commands, t), t, due, now)
  {
    hide OnCourse, CommandsFor;
  }

  /** The timer itself, after its callback has run for its due time. */
  lemma Fired(b: Beginning, timer: Timer, calls: nat, pending: seq<Command>, t: Id, due: Dues, now: nat)
    requires OnCourse(b, timer, calls, pending, t, due, now) && t in due && due[t] <= now
    ensures pending == []
    ensures !timer.autoReload ==> OnCourse(b, timer, calls + 1, [], t, due - {t}, now)
    ensures timer.autoReload ==>
              && OnCourse(b, timer, calls + 1, [], t, (due - {t})[t := due[t] + timer.period], now)
              && OnCourse(b, timer, calls + 1, [Command(Start, t, Wrap(due[t]))], t, due - {t}, now)
  {
    BaseStep(b, calls, timer.period);
    hide Base;
  }

  lemma InList(epoch: nat, next: nat)
    requires IsTick(next)
    ensures Epoch(epoch * MODULUS + next) == epoch && Wrap(epoch * MODULUS + next) == next
  {
    RemainderIs(epoch * MODULUS + next, epoch, next);
    WrapEpoch(epoch * MODULUS + next);
  }

  lemma PutEarly(early: seq<Id>, late: seq<Id>, expiry: map<Id, nat>, epoch: nat, due: Dues, t: Id, d: nat)
    requires Schedule(early, late, expiry, epoch, due) && t !in due && Epoch(d) == epoch && NoDup(early)
    ensures var w := expiry[t := Wrap(d)]; var r := Insert(early, FirstAbove(Wakes(early, w), Wrap(d)), t);
            Schedule(r, late, w, epoch, due[t := d]) && NoDup(r)
  {
    var w := expiry[t := Wrap(d)];
    SchedulePutEarly(early, late, expiry, epoch, due, t, d);
    InsertMembers(early, FirstAbove(Wakes(early, w), Wrap(d)), t);
  }

  lemma PutLate(early: seq<Id>, late: seq<Id>, expiry: map<Id, nat>, epoch: nat, due: Dues, t: Id, d: nat)
    requires Schedule(early, late, expiry, epoch, due) && t !in due && Epoch(d) == epoch + 1 && NoDup(late)
    ensures var w := expiry[t := Wrap(d)]; var r := Insert(late, FirstAbove(Wakes(late, w), Wrap(d)), t);
            Schedule(early, r, w, epoch, due[t := d]) && NoDup(r)
  {
    var w := expiry[t := Wrap(d)];
    SchedulePutLate(early, late, expiry, epoch, due, t, d);
    InsertMembers(late, FirstAbove(Wakes(late, w), Wrap(d)), t);
  }

  // ---- the count of callbacks --------------------------------------------------------------------

  /** Behind an unexpired head nothing is due. */
  lemma NothingDue(current: seq<Id>, overflow: seq<Id>, expiry: map<Id, nat>, now: nat, due: Dues)
    requires ListsOk(current, overflow, expiry, now, due)
    requires current == [] || WakeOf(expiry, current[0]) > Wrap(now)
    ensures forall t | t in due :: due[t] > now
  {
    forall t | t in due
      ensures due[t] > now
    {
      WrapEpoch(due[t]);
      WrapEpoch(now);
      if t in current {
        HeadIsLeast(current, expiry);
        SameEpochOrder(due[t], now);
      }
    }
  }

  lemma CountIs(start: nat, k: nat, period: nat, now: nat)
    requires period > 0 && start + k * period <= now < start + k * period + period
    ensures k == (now - start) / period
  {
    var x := now - start - k * period;
    assert (now - start) == k * period + x;
    DivisionIs(now - start, period, k, x);
  }

  lemma DivisionIs(a: nat, b: nat, q: nat, r: nat)
    requires b > 0 && a == q * b + r && r < b
    ensures a / b == q
  {
    var d := a / b - q;
    assert a / b * b + a % b == a;
    assert d * b == r - a % b;
    MultipleIsFar(d, b);
  }

  lemma MultipleIsFar(d: int, b: int)
    requires b > 0
    ensures d > 0 ==> d * b >= b
    ensures d < 0 ==> d * b <= 0 - b
  {
  }

  lemma CountIsComplete(b: Beginning, timer: Timer, calls: nat, t: Id, due: Dues, now: nat)
    requires OnCourse(b, timer, calls, [], t, due, now) && timer.period > 0 && (t in due ==> due[t] > now)
    ensures b.time <= now && b.calls <= calls
    ensures timer.autoReload ==> calls - b.calls == (now - b.time) / timer.period
    ensures !timer.autoReload ==> calls - b.calls == if now >= b.time + timer.period then 1 else 0
  {
    var k := calls - b.calls;
    CountFromStart(b.time, k, timer.period);
    if timer.autoReload {
      CountIs(b.time, k, timer.period, now);
    }
  }

  /** Catch-up. When the daemon has drained its commands at time now and has no expired timer in its list, the
      callback of an auto-reload timer that was started and given no other command has run exactly once for
      every whole period since its start, however the expiries were handled; a one-shot timer's has run once
      exactly if its period is over. */
  lemma CallbacksAreComplete(d: Daemon, t: Id)
    requires d.Valid() && d.clock == d.now && t in d.begun && t in d.timers && t in d.calls
    requires d.commands == [] && (d.current == [] || WakeOf(d.expiry, d.current[0]) > Wrap(d.now))
    ensures var b, timer := d.begun[t], d.timers[t];
            && b.time <= d.now && 0 < timer.period
            && (timer.autoReload ==> d.calls[t] - b.calls == (d.now - b.time) / timer.period)
            && (!timer.autoReload ==> d.calls[t] - b.calls == if d.now >= b.time + timer.period then 1 else 0)
  {
    hide OnCourse, Schedule;
    NothingDue(d.current, d.overflow, d.expiry, d.now, d.due);
    CountIsComplete(d.begun[t], d.timers[t], d.calls[t], t, d.due, d.now);
  }

  lemma AllInFull(begun: map<Id, Beginning>, timers: map<Id, Timer>, calls: map<Id, nat>, due: Dues, n: nat)
    requires AllOnCourse(begun, timers, calls, [], due, n) && TimersOk(timers, calls, due)
    requires forall t | t in due :: due[t] > n
    ensures forall t | t in begun :: t in timers && t in calls && InFull(begun[t], timers[t], calls[t], n)
  {
    forall t | t in begun
      ensures t in timers && t in calls && InFull(begun[t], timers[t], calls[t], n)
    {
      CountIsComplete(begun[t], timers[t], calls[t], t, due, n);
    }
    hide OnCourse;
  }

  lemma CountFromStart(start: nat, k: nat, period: nat)
    ensures k * period >= 0 && (k == 0 ==> k * period == 0) && (k == 1 ==> k * period == period)
  {
  }

  // ---- sampling once per turn is not enough -------------------------------------------------------

  /** A period five ticks short of a turn of the counter. */
  const LONG: nat := MAX_DELAY - 4

  /** If every pending command is for t, they are the commands for t. */
  lemma {:induction false} OnlyFor(commands: seq<Command>, t: Id)
    requires forall c | c in commands :: c.timer == t
    ensures CommandsFor(commands, t) == commands
  {
    if commands != [] {
      OnlyFor(commands[1..], t);
      assert commands == [commands[0]] + commands[1..];
    }
  }

  lemma NoneFor(commands: seq<Command>, t: Id)
    requires CommandsFor(commands, t) == []
    ensures forall c | c in commands :: c.timer != t
    decreases |commands|
  {
    if commands != [] {
      NoneFor(commands[1..], t);
    }
  }

  /** Timer 0, started at tick 15, is due early in the second turn, and was not looked at by the last sample there. */
  ghost predicate Overlooked(d: Daemon)
    reads d
  {
    && d.Valid() && d.Sampled() && d.now == d.clock == MODULUS + 20 && d.commands == []
    && d.timers.Keys == {0, 1} && d.timers[0] == Timer(LONG, true)
    && 0 in d.begun && d.begun[0] == Beginning(15, 0) && 0 in d.calls && d.calls[0] == 0
    && 0 in d.due && d.due[0] == MODULUS + 10 && 1 !in d.due
  }

  /** After a drain a periodic timer whose command was pending is in a list again. */
  lemma BackInList(o: Account, r: Account, t: Id, n: nat)
    requires DrainedSoFar(o, r, n) && r.commands == [] && Kept(r, n) && Tracked(o, t) && o.timers[t].autoReload
    requires CommandsFor(o.commands, t) != []
    ensures Tracked(r, t) && Handled(o, r, t, n) && 0 <= BaseIn(r, t) <= n
    ensures t in r.due && r.due[t] == BaseIn(r, t) + r.timers[t].period > n
  {
    hide Slip, Turns, Base;
  }

  lemma WorkOfOne(c: Command, timeNow: nat)
    ensures Work([c], timeNow) == Weight(c, timeNow)
  {
    assert [c][1..] == [];
    hide Weight;
  }

  lemma JustBegun(o: Account, r: Account)
    requires Tracked(o, 0) && o.begun[0] == Beginning(15, 0) && o.timers[0] == Timer(LONG, true) && o.calls[0] == 0
    requires o.commands == [Command(Start, 0, 15)] && DrainedSoFar(o, r, 15) && r.commands == [] && Kept(r, 15)
    ensures Tracked(r, 0) && r.begun[0] == Beginning(15, 0) && r.timers[0] == Timer(LONG, true) && r.calls[0] == 0
    ensures 0 in r.due && r.due[0] == MODULUS + 10
  {
    HeadIsPending(o.commands);
    BackInList(o, r, 0, 15);
    TurnsIs(15, 15);
    hide DrainedSoFar, Kept, Turns, CommandsFor;
  }

  method StartedLate() returns (d: Daemon)
    ensures fresh(d) && d.Valid() && d.Sampled() && d.now == d.clock == 15 && d.commands == []
    ensures d.timers == map[0 := Timer(LONG, true)]
    ensures 0 in d.begun && d.begun[0] == Beginning(15, 0) && 0 in d.calls && d.calls[0] == 0
    ensures 0 in d.due && d.due[0] == MODULUS + 10
  {
    hide Daemon.Valid, Wrap, Epoch, DrainedSoFar, Kept, Followed, CountedInFull, Work, CommandsFor, Weight;
    Fifteen();
    d := new Daemon();
    d.CreateTimer(0, LONG, true);
    NothingFor(0);
    d.SendCommand(Start, 0, 15, 15, 15);
    ghost var o := d.Books();
    assert o.commands == [Command(Start, 0, 15)];
    WorkOfOne(o.commands[0], 15);
    var taken := d.ProcessReceivedCommands([15], [15]);
    assert Stands([15], 0);
    d.BooksAreKept();
    JustBegun(o, d.Books());
  }

  lemma Fifteen()
    ensures Wrap(15) == 15 && Weight(Command(Start, 0, 15), 15) == 1 && Epoch(15) == Epoch(0)
  {
  }

  lemma NothingFor(t: Id)
    ensures CommandsFor([], t) == []
  {
  }

  /** Which list a timer is in shows the turn it is due in. */
  lemma ListOf(d: Daemon, t: Id)
    requires d.Valid()
    ensures t in d.due && Epoch(d.due[t]) == Epoch(d.now) ==> t in d.current
    ensures t in d.due && Epoch(d.due[t]) != Epoch(d.now) ==> t !in d.current
    ensures t !in d.due ==> t !in d.current
    ensures t !in d.timers ==> t !in d.due
  {
    hide AllOnCourse;
  }

  lemma NobodyPending(d: Daemon, t: Id)
    requires d.Valid() && d.timers.Keys == {t} && CommandsFor(d.commands, t) == []
    ensures d.commands == []
  {
    hide AllOnCourse, Schedule;
    NoneFor(d.commands, t);
  }

  lemma EarlyInTurns()
    ensures Wrap(MODULUS + 5) == 5 && Epoch(MODULUS + 5) == 1 && Epoch(15) == 0
    ensures Wrap(MODULUS + 20) == 20 && Epoch(MODULUS + 20) == 1 && Epoch(MODULUS + 10) == 1 && Wrap(MODULUS + 10) == 10
    ensures Wrap(2 * MODULUS + 15) == 15 && Epoch(2 * MODULUS + 15) == 2
  {
  }

  /** The lists are switched in time, and a command for another timer is handled just after timer 0 is due. */
  method Overlook() returns (d: Daemon)
    ensures fresh(d) && Overlooked(d)
  {
    hide Daemon.Valid, Wrap, Epoch, Untouched, AllSwitchedOut, Progress, Passed, Work, CommandsFor;
    EarlyInTurns();
    d := StartedLate();
    ListOf(d, 0);
    ghost var a, list := d.Books(), d.current;
    var waits, ticks, forEver := d.ProcessTimerOrBlock(5, MODULUS + 5);
    StaysPut(list, a, d.Books(), 0);
    assert CommandsFor(d.commands, 0) == [] by {
      NothingFor(0);
    }
    NobodyPending(d, 0);
    ListOf(d, 1);
    d.CreateTimer(1, 1, false);
    d.SendCommand(Stop, 1, 0, MODULUS + 20, MODULUS + 20);
    ghost var o := d.Books();
    assert o.commands == [Command(Stop, 1, 0)];
    WorkOfOne(o.commands[0], 20);
    d.ProcessReceivedCommand(20, MODULUS + 20);
    StoppedOther(o, d.Books(), MODULUS + 20);
  }

  lemma StaysPut(moved: seq<Id>, o: Account, r: Account, t: Id)
    requires Untouched(moved, o.due, r.due, o.calls, r.calls, o.commands, r.commands) && t !in moved
    ensures (t in o.due ==> t in r.due && r.due[t] == o.due[t]) && (t !in o.due ==> t !in r.due)
    ensures r.calls.Keys == o.calls.Keys && (t in o.calls ==> r.calls[t] == o.calls[t])
    ensures CommandsFor(r.commands, t) == CommandsFor(o.commands, t)
  {
    hide CommandsFor;
  }

  lemma StoppedOther(o: Account, r: Account, n: nat)
    requires o.commands == [Command(Stop, 1, 0)] && 1 !in o.begun && Progress(FallenBehind(o, n), r, n)
    requires Tracked(o, 0) && 0 in o.due && r.timers.Keys == o.timers.Keys == {0, 1}
    ensures r.commands == [] && 1 !in r.due && Tracked(r, 0) && r.begun[0] == o.begun[0] && r.calls[0] == o.calls[0]
    ensures r.timers[0] == o.timers[0] && 0 in r.due && r.due[0] == o.due[0]
  {
    hide CommandsFor, Work, Wrap;
    assert SameTimer(o, r, 0);
    WorkOfOne(o.commands[0], Wrap(n));
    WorkLeft(r.commands, Wrap(n));
  }

  /** The only pending command is the reload command of timer 0. */
  lemma OnlyReload(d: Daemon, list: seq<Id>)
    requires d.Valid() && d.timers.Keys == {0, 1} && d.timers[0] == Timer(LONG, true) && 0 in list
    requires 0 in d.begun && d.begun[0] == Beginning(15, 0) && 0 in d.calls && CommandsFor(d.commands, 1) == []
    requires AllSwitchedOut(d.begun, d.timers, d.calls, d.due, list, [], 1)
    ensures d.calls[0] == 1 && 0 !in d.due && d.commands == [Command(Start, 0, 10)]
  {
    hide AllOnCourse, Schedule, Wrap, Epoch;
    NoneFor(d.commands, 1);
    OnlyFor(d.commands, 0);
    SwitchedOutOnce(d.calls[0]);
    ReloadOf(d, 0);
  }

  lemma SwitchedOutOnce(calls: nat)
    requires SwitchedOut(Beginning(15, 0), Timer(LONG, true), calls, 1)
    ensures calls == 1 && Wrap(15 + LONG) == 10
  {
  }

  /** A periodic timer on course that is in no list has its reload command pending. */
  lemma ReloadOf(d: Daemon, t: Id)
    requires d.Valid() && t in d.begun && t in d.timers && t in d.calls && t !in d.due && d.timers[t].autoReload
    ensures CommandsFor(d.commands, t) == [Command(Start, t, Wrap(d.BaseOf(t)))]
  {
    hide Schedule, Wrap, Base, CommandsFor;
  }

  lemma FallsBehind(o: Account, r: Account)
    requires Tracked(o, 0) && o.begun[0] == Beginning(15, 0) && o.timers[0] == Timer(LONG, true) && o.calls[0] == 1
    requires o.commands == [Command(Start, 0, 10)] && r.commands == []
    requires DrainedSoFar(o, r, 2 * MODULUS + 15) && Kept(r, 2 * MODULUS + 15)
    ensures Tracked(r, 0) && r.timers[0] == o.timers[0] && r.calls[0] == 1 && 0 in r.due && r.due[0] == 3 * MODULUS + 5
  {
    HeadIsPending(o.commands);
    BackInList(o, r, 0, 2 * MODULUS + 15);
    TurnsIs(MODULUS + 10, 2 * MODULUS + 15);
    hide DrainedSoFar, Kept, CommandsFor;
  }

  /** The clock is never sampled less than once per turn: at 15, 2^32 + 5, 2^32 + 20 and 2 * 2^32 + 15. Timer 0,
      started at 15 with a period five ticks short of a turn, is not handled by the third sample, although due ten
      ticks before; the fourth sees the counter wrapped, calls it, and sends a reload command that is a turn and
      five ticks old at once. With its commands drained and nothing expired in its lists, the daemon has called it
      once; two periods are over. */
  method SampledOncePerTurn() returns (d: Daemon)
    ensures fresh(d) && d.Valid() && d.Sampled() && d.now == d.clock == 2 * MODULUS + 15 && d.commands == []
    ensures 0 in d.timers && d.timers[0] == Timer(LONG, true) && 0 in d.due && d.due[0] > d.now
    ensures 0 in d.calls && d.calls[0] == 1 && (d.now - 15) / LONG == 2
  {
    hide Daemon.Valid, Wrap, Epoch, Untouched, AllSwitchedOut, DrainedSoFar, Kept, Followed, CountedInFull, Work,
      CommandsFor, Weight;
    EarlyInTurns();
    d := Overlook();
    ListOf(d, 0);
    ListOf(d, 1);
    NothingFor(1);
    ghost var a, list := d.Books(), d.current;
    var waits, ticks, forEver := d.ProcessTimerOrBlock(15, 2 * MODULUS + 15);
    StaysPut(list, a, d.Books(), 1);
    OnlyReload(d, list);
    ghost var o := d.Books();
    WorkOfOne(o.commands[0], 15);
    FiveTicksOld();
    var taken := d.ProcessReceivedCommands(seq(6, i => 15), seq(6, i => 2 * MODULUS + 15));
    d.BooksAreKept();
    FallsBehind(o, d.Books());
  }

  lemma FiveTicksOld()
    ensures Weight(Command(Start, 0, 10), 15) == 6
  {
  }
}

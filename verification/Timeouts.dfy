/** Time budgets: the time-out structure that blocking calls carry through their retry loops, and the
    fixed-rate delay. Ghost parameters hold the true times behind the 32-bit values. */
module Timeouts {
  import opened Ticks
  import opened KernelState
  import opened KernelPlacement
  import opened KernelSteps
  import opened KernelTime
  import opened KernelRuns

  // ---- xTaskCheckForTimeOut -----------------------------------------------------------------

  /** TimeOut_t */
  datatype Entry = Entry(overflowCount: nat, timeOnEntering: nat)

  datatype Outcome = Outcome(expired: bool, ticksToWait: nat, entry: Entry)

  function EntryAt(now: nat): Entry {
    Entry(Epoch(now), Wrap(now))
  }

  /** xTaskCheckForTimeOut, from the structure, the remaining ticks and the kernel's counters */
  function Check(entry: Entry, ticksToWait: nat, tick: nat, overflows: nat): Outcome {
    var elapsed := Wrap(tick - entry.timeOnEntering);
    if ticksToWait == MAX_DELAY then Outcome(false, ticksToWait, entry)
    else if overflows != entry.overflowCount && tick >= entry.timeOnEntering then Outcome(true, ticksToWait, entry)
    else if elapsed < ticksToWait then Outcome(false, ticksToWait - elapsed, Entry(overflows, tick))
    else Outcome(true, 0, entry)
  }

  /** What the check finds, whatever the true times are: the elapsed time is known modulo 2^32, except that
      a wrap which the counter has passed again is recognised. */
  lemma CheckFinds(start: nat, now: nat, ticksToWait: nat)
    requires start <= now && ticksToWait < MAX_DELAY
    ensures Check(EntryAt(start), ticksToWait, Wrap(now), Epoch(now)).expired
        <==> Wrap(now - start) >= ticksToWait || (now - start >= MODULUS && Wrap(now) >= Wrap(start))
  {
    WrapEpoch(start);
    WrapEpoch(now);
    WrapDifference(start, now);
  }

  /** The check is right about a finite wait exactly when the counter has not both run more than a full
      turn since entry and come to rest where the turn cannot be seen. */
  lemma CheckIsExactWhen(start: nat, now: nat, ticksToWait: nat)
    requires start <= now && ticksToWait < MAX_DELAY
    ensures (Check(EntryAt(start), ticksToWait, Wrap(now), Epoch(now)).expired <==> now - start >= ticksToWait)
        <==> (now - start < MODULUS || Wrap(now) >= Wrap(start) || Wrap(now - start) >= ticksToWait)
  {
    CheckFinds(start, now, ticksToWait);
    WrapDifference(start, now);
  }

  /** A wait of 10 ticks entered just before the counter wraps and checked a turn and a tick later has long
      expired, and is taken to go on. */
  lemma HiddenTurnIsMissed()
    ensures var start, now, wait := MAX_DELAY, 2 * MODULUS, 10;
            now - start >= wait && !Check(EntryAt(start), wait, Wrap(now), Epoch(now)).expired
  {
    CheckFinds(MAX_DELAY, 2 * MODULUS, 10);
    RemainderIs(2 * MODULUS, 2, 0);
    RemainderIs(MAX_DELAY, 0, MAX_DELAY);
    RemainderIs(MODULUS + 1, 1, 1);
  }

  /** With at most one wrap since entry the answer is right, and a wait that goes on keeps its deadline. */
  lemma CheckIsExact(start: nat, now: nat, ticksToWait: nat)
    requires start <= now && Epoch(now) <= Epoch(start) + 1 && 0 < ticksToWait < MAX_DELAY
    ensures var r := Check(EntryAt(start), ticksToWait, Wrap(now), Epoch(now));
            && (r.expired <==> now - start >= ticksToWait)
            && (!r.expired ==> r.entry == EntryAt(now) && r.ticksToWait > 0
                               && now + r.ticksToWait == start + ticksToWait)
  {
    CheckIsExactWhen(start, now, ticksToWait);
    WrapDifference(start, now);
    WrapEpoch(start);
    WrapEpoch(now);
  }

  /** portMAX_DELAY never expires. */
  lemma InfiniteNeverExpires(entry: Entry, tick: nat, overflows: nat)
    ensures Check(entry, MAX_DELAY, tick, overflows) == Outcome(false, MAX_DELAY, entry)
  {
  }

  /** The remaining ticks after the checks of a retry loop at the given true times. */
  ghost function Remaining(entry: Entry, ticksToWait: nat, times: seq<nat>): (Outcome)
    decreases |times|
  {
    if times == [] then Outcome(false, ticksToWait, entry) else
      var r := Check(entry, ticksToWait, Wrap(times[0]), Epoch(times[0]));
      if r.expired then r else Remaining(r.entry, r.ticksToWait, times[1..])
  }

  /** Consecutive checks, the first against the entry time, see at most one wrap each. */
  predicate Frequent(start: nat, times: seq<nat>)
    decreases |times|
  {
    times == [] || (start <= times[0] && Epoch(times[0]) <= Epoch(start) + 1 && Frequent(times[0], times[1..]))
  }

  function Last(start: nat, times: seq<nat>): nat {
    if times == [] then start else times[|times| - 1]
  }

  /** However often a send or receive goes round its loop, it times out exactly at the first check at or
      after entry + request, and each time it blocks, it blocks until that same deadline. */
  lemma {:induction false} BudgetIsTheRequest(start: nat, request: nat, times: seq<nat>)
    requires 0 < request < MAX_DELAY && Frequent(start, times)
    ensures var r := Remaining(EntryAt(start), request, times);
            && (r.expired <==> exists i :: 0 <= i < |times| && times[i] >= start + request)
            && (!r.expired ==> Last(start, times) + r.ticksToWait == start + request && r.ticksToWait > 0)
    decreases |times|
  {
    if times != [] {
      CheckIsExact(start, times[0], request);
      var r := Check(EntryAt(start), request, Wrap(times[0]), Epoch(times[0]));
      if !r.expired {
        var rest := times[1..];
        BudgetIsTheRequest(times[0], r.ticksToWait, rest);
        assert forall i | 0 < i < |times| :: times[i] == rest[i - 1];
        if exists i :: 0 <= i < |rest| && rest[i] >= start + request {
          var i :| 0 <= i < |rest| && rest[i] >= start + request;
          assert times[i + 1] >= start + request;
        }
      }
    }
  }

  /** A call that waits for ever goes round its loop for ever, whenever it checks. */
  lemma {:induction false} InfiniteWaitGoesOn(entry: Entry, times: seq<nat>)
    ensures Remaining(entry, MAX_DELAY, times) == Outcome(false, MAX_DELAY, entry)
    decreases |times|
  {
    if times != [] {
      InfiniteNeverExpires(entry, Wrap(times[0]), Epoch(times[0]));
      InfiniteWaitGoesOn(entry, times[1..]);
    }
  }

  class TimeOut {
    var overflowCount: nat
    var timeOnEntering: nat

    function View(): Entry
      reads this
    {
      Entry(overflowCount, timeOnEntering)
    }

    /** vTaskSetTimeOutState */
    constructor (tick: nat, overflows: nat)
      ensures View() == Entry(overflows, tick)
    {
      overflowCount, timeOnEntering := overflows, tick;
    }

    /** xTaskCheckForTimeOut; the remaining ticks are an in-out parameter of the source. */
    method CheckForTimeOut(ticksToWait: nat, tick: nat, overflows: nat) returns (expired: bool, remaining: nat)
      modifies this
      ensures Outcome(expired, remaining, View()) == Check(old(View()), ticksToWait, tick, overflows)
    {
      var elapsed := Wrap(tick - timeOnEntering);
      remaining := ticksToWait;
      if ticksToWait == MAX_DELAY {
        expired := false;
      } else if overflows != overflowCount && tick >= timeOnEntering {
        expired := true;
      } else if elapsed < ticksToWait {
        remaining := ticksToWait - elapsed;
        overflowCount, timeOnEntering := overflows, tick;
        expired := false;
      } else {
        remaining := 0;
        expired := true;
      }
    }
  }

  // ---- vTaskDelayUntil ----------------------------------------------------------------------

  /** The wake time is still to come, as the 32-bit values show it. */
  predicate StillToCome(previousWake: nat, wakeTime: nat, tick: nat) {
    if tick < previousWake then wakeTime < previousWake && wakeTime > tick
    else wakeTime < previousWake || wakeTime > tick
  }

  /** The block time vTaskDelayUntil asks for. */
  function BlockUntil(previousWake: nat, increment: nat, tick: nat): nat {
    Wrap(Wrap(previousWake + increment) - tick)
  }

  lemma DelayDecision(w: nat, n: nat, increment: nat)
    requires w <= n < w + MODULUS && 0 < increment <= MAX_DELAY
    ensures StillToCome(Wrap(w), Wrap(Wrap(w) + increment), Wrap(n)) <==> w + increment > n
    ensures w + increment > n ==> BlockUntil(Wrap(w), increment, Wrap(n)) == w + increment - n
  {
    WrapCrossing(w, increment);
    WrapCrossing(w, n - w);
    WrapEpoch(w);
    WrapEpoch(n);
    WrapEpoch(w + increment);
    if w + increment > n {
      WrapDifference(n, w + increment);
    }
  }

  /** The decision of vTaskDelayUntil. With the true previous wake time w and the true time n, at most 2^32 - 1
      ticks apart, it delays exactly when w + increment is still to come, by exactly what is missing. */
  method DelayUntil(previousWake: nat, increment: nat, tick: nat, ghost w: nat, ghost n: nat)
    returns (wakeTime: nat, shouldDelay: bool, block: nat)
    requires previousWake == Wrap(w) && tick == Wrap(n) && w <= n < w + MODULUS && 0 < increment <= MAX_DELAY
    ensures wakeTime == Wrap(w + increment)
    ensures shouldDelay <==> w + increment > n
    ensures shouldDelay ==> block == w + increment - n && BlockTime(block)
    ensures block == BlockUntil(previousWake, increment, tick)
  {
    hide Wrap;
    DelayDecision(w, n, increment);
    WrapCrossing(w, increment);
    wakeTime := Wrap(previousWake + increment);
    shouldDelay := false;
    if tick < previousWake {
      if wakeTime < previousWake && wakeTime > tick {
        shouldDelay := true;
      }
    } else {
      if wakeTime < previousWake || wakeTime > tick {
        shouldDelay := true;
      }
    }
    block := Wrap(wakeTime - tick);
  }

  /** The variable behind pxPreviousWakeTime after k calls: the 32-bit sum, whether or not the calls delayed. */
  function PreviousWake(start: nat, increment: nat, k: nat): nat {
    if k == 0 then Wrap(start) else Wrap(PreviousWake(start, increment, k - 1) + increment)
  }

  /** The 32-bit variable never drifts from start + k * increment. */
  lemma {:induction false} PreviousWakeIs(start: nat, increment: nat, k: nat)
    ensures PreviousWake(start, increment, k) == Wrap(start + k * increment)
  {
    if k > 0 {
      PreviousWakeIs(start, increment, k - 1);
      assert start + k * increment == start + (k - 1) * increment + increment;
      WrapAdd(start + (k - 1) * increment, increment);
    }
  }

  /** A periodic task on the kernel: when its k-th call comes in time, it is put to sleep until exactly
      start + (k + 1) * increment, through any number of counter wraps. */
  method DelayTaskUntil(s: State, start: nat, increment: nat, k: nat, ghost now: nat, ghost due: Dues)
    returns (r: State, wakeTime: nat)
    requires Inv(s) && Timed(s, now, due) && Running(s) && 0 < increment <= MAX_DELAY
    requires start + k * increment <= now < start + (k + 1) * increment
    ensures wakeTime == PreviousWake(start, increment, k + 1)
    ensures Timed(r, now, due[s.current := start + (k + 1) * increment]) && Inv(r)
  {
    hide Inv, Ticking, Bounded, BlockCurrent, PreviousWake, Wrap;
    var shouldDelay, block;
    ghost var w := start + k * increment;
    assert w + increment == start + (k + 1) * increment;
    CounterIs(s, now, due);
    PreviousWakeIs(start, increment, k);
    PreviousWakeIs(start, increment, k + 1);
    wakeTime, shouldDelay, block := DelayUntil(PreviousWake(start, increment, k), increment, s.tick, w, now);
    BlockCurrentKeeps(s, block, false);
    InvIsCore(s);
    BlockCurrentTimed(s, block, false, now, due);
    r := BlockCurrent(s, block, false);
  }

  // ---- a loop around vTaskDelayUntil ----------------------------------------------------------

  /** What happens between two calls: events while the task sleeps, the event that processes the tick it waits for, and
      events until it calls again. */
  datatype Round = Round(sleep: seq<Event>, wake: Event, work: seq<Event>)

  /** The call of a round, made with the 32-bit wake time of the call before and the 32-bit counter. */
  function CallOf(s: State, start: nat, increment: nat, k: nat): Event {
    DelayFor(BlockUntil(PreviousWake(start, increment, k), increment, s.tick))
  }

  /** In the k-th round the task calls in time and nothing but time wakes it; the wake event processes the last
      tick of the block time it asked for. */
  ghost predicate RoundIsInTime(s: State, t: Task, now: nat, start: nat, increment: nat, k: nat, round: Round) {
    var call := CallOf(s, start, increment, k);
    && s.current == t && Running(s) && start + k * increment <= now < start + (k + 1) * increment
    && Enabled(s, call)
    && var s1 := Step(s, call);
    && LeavesAsleep(s1, round.sleep, round.wake, t) && Ticked(s1, round.sleep) < call.ticks
    && var r := Run(s1, round.sleep);
    Ticked(s1, round.sleep) + TicksIn(r, round.wake) >= call.ticks && Allowed(Step(r, round.wake), round.work)
  }

  /** The state in which the task wakes, and the ticks processed by then. */
  ghost function Woken(s: State, t: Task, now: nat, start: nat, increment: nat, k: nat, round: Round): (State, nat)
    requires RoundIsInTime(s, t, now, start, increment, k, round)
  {
    var s1 := Step(s, CallOf(s, start, increment, k));
    var r := Run(s1, round.sleep);
    (Step(r, round.wake), now + Ticked(s1, round.sleep) + TicksIn(r, round.wake))
  }

  ghost function Again(s: State, t: Task, now: nat, start: nat, increment: nat, k: nat, round: Round): (State, nat)
    requires RoundIsInTime(s, t, now, start, increment, k, round)
  {
    var (w, n) := Woken(s, t, now, start, increment, k, round);
    (Run(w, round.work), n + Ticked(w, round.work))
  }

  ghost predicate LoopIsInTime(s: State, t: Task, now: nat, start: nat, increment: nat, k: nat, rounds: seq<Round>)
    decreases |rounds|
  {
    rounds == []
    || (RoundIsInTime(s, t, now, start, increment, k, rounds[0])
        && var (r, n) := Again(s, t, now, start, increment, k, rounds[0]);
        LoopIsInTime(r, t, n, start, increment, k + 1, rounds[1..]))
  }

  /** In the k-th round the task is asleep until the event that processes tick start + (k + 1) * increment, and
      that event makes it ready. */
  ghost predicate RoundWakesOnTime(s: State, t: Task, now: nat, start: nat, increment: nat, k: nat, round: Round)
    requires RoundIsInTime(s, t, now, start, increment, k, round)
  {
    var s1 := Step(s, CallOf(s, start, increment, k));
    var r, (w, n) := Run(s1, round.sleep), Woken(s, t, now, start, increment, k, round);
    && Asleep(r, t) && t in r.tcb && t in w.place && w.place[t] == Ready(r.tcb[t].priority)
    && now + Ticked(s1, round.sleep) < start + (k + 1) * increment <= n
  }

  ghost predicate LoopWakesOnTime(s: State, t: Task, now: nat, start: nat, increment: nat, k: nat, rounds: seq<Round>)
    requires LoopIsInTime(s, t, now, start, increment, k, rounds)
    decreases |rounds|
  {
    rounds == []
    || (RoundWakesOnTime(s, t, now, start, increment, k, rounds[0])
        && var (r, n) := Again(s, t, now, start, increment, k, rounds[0]);
        LoopWakesOnTime(r, t, n, start, increment, k + 1, rounds[1..]))
  }

  /** The block time asked for in a round is what is missing to start + (k + 1) * increment. */
  lemma CallIs(s: State, now: nat, due: Dues, start: nat, increment: nat, k: nat)
    requires Timed(s, now, due) && 0 < increment <= MAX_DELAY
    requires start + k * increment <= now < start + (k + 1) * increment
    ensures CallOf(s, start, increment, k) == DelayFor(start + (k + 1) * increment - now)
  {
    hide Timed, BlockUntil, PreviousWake;
    assert start + k * increment + increment == start + (k + 1) * increment;
    CounterIs(s, now, due);
    PreviousWakeIs(start, increment, k);
    DelayDecision(start + k * increment, now, increment);
  }

  lemma RoundIsOnTime(s: State, t: Task, now: nat, due: Dues, start: nat, increment: nat, k: nat, round: Round)
    returns (later: Dues)
    requires Inv(s) && Timed(s, now, due) && Settled(s) && 0 < increment <= MAX_DELAY
    requires RoundIsInTime(s, t, now, start, increment, k, round)
    ensures RoundWakesOnTime(s, t, now, start, increment, k, round)
    ensures var (r, n) := Again(s, t, now, start, increment, k, round); Inv(r) && Timed(r, n, later) && Settled(r)
  {
    hide Inv, Timed, Settled, Step, Enabled, Run, Allowed, TicksIn, Asleep, Disturbs, Sleepers, CallOf, Undisturbed,
      Ticked;
    var call := CallOf(s, start, increment, k);
    CallIs(s, now, due, start, increment, k);
    var s1 := Step(s, call);
    ExactWakeUp(s, call, now, due, round.sleep, round.wake);
    OneStep(s, call, now, due);
    var due1 := RunTimed(s1, round.sleep, now, NextDue(s, call, now, due));
    var r, n1 := Run(s1, round.sleep), now + Ticked(s1, round.sleep);
    OneStep(r, round.wake, n1, due1);
    later := RunTimed(Step(r, round.wake), round.work, n1 + TicksIn(r, round.wake), NextDue(r, round.wake, n1, due1));
  }

  lemma OneStep(s: State, e: Event, now: nat, due: Dues)
    requires Inv(s) && Timed(s, now, due) && Settled(s) && Enabled(s, e)
    ensures Inv(Step(s, e)) && Timed(Step(s, e), now + TicksIn(s, e), NextDue(s, e, now, due)) && Settled(Step(s, e))
    ensures e.DelayFor? ==> TicksIn(s, e) == 0
  {
    hide Inv, Timed, Settled, Step, Enabled, Sleepers;
    StepKeepsInv(s, e);
    StepTimed(s, e, now, due);
    StepCountsTicks(s, e);
  }

  /** A loop that always calls in time wakes at start + increment, start + 2 * increment and so on, for any number
      of rounds and through any number of counter wraps. */
  lemma {:induction false} LoopIsOnTime(s: State, t: Task, now: nat, due: Dues, start: nat, increment: nat, k: nat,
                                        rounds: seq<Round>)
    requires Inv(s) && Timed(s, now, due) && Settled(s) && 0 < increment <= MAX_DELAY
    requires LoopIsInTime(s, t, now, start, increment, k, rounds)
    ensures LoopWakesOnTime(s, t, now, start, increment, k, rounds)
    decreases |rounds|
  {
    hide Inv, Timed, Settled, RoundIsInTime, RoundWakesOnTime, Again;
    if rounds != [] {
      var later := RoundIsOnTime(s, t, now, due, start, increment, k, rounds[0]);
      var (r, n) := Again(s, t, now, start, increment, k, rounds[0]);
      LoopIsOnTime(r, t, n, later, start, increment, k + 1, rounds[1..]);
    }
  }

  lemma CounterIs(s: State, now: nat, due: Dues)
    requires Timed(s, now, due)
    ensures s.tick == Wrap(now)
    ensures Inv(s) && Running(s) ==> s.current in s.tcb && s.current in s.place
  {
    hide Schedule, Core, Wrap;
  }
}

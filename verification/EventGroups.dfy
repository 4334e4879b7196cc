/** Event groups: bits that tasks wait for, any of them or all of them, released in one pass over the waiting tasks with
    the clearing put off to the end of the pass. */
module EventGroups {
  import opened Rings

  type Task = nat
  type Bits = bv32

  /** The control bits of event_groups.c, kept in the top byte of a waiting task's event item value. */
  const CLEAR_ON_EXIT: Bits := 0x0100_0000
  const UNBLOCKED: Bits := 0x0200_0000
  const WAIT_FOR_ALL: Bits := 0x0400_0000
  const CONTROL: Bits := 0xff00_0000

  /** A task on xTasksWaitingForBits and the value of its event list item. */
  datatype Waiter = Waiter(task: Task, value: Bits)

  function Union(a: Bits, b: Bits): Bits {
    a | b
  }

  function Masked(a: Bits, b: Bits): Bits {
    a & b
  }

  function Cleared(a: Bits, b: Bits): Bits {
    a & !b
  }

  /** The application's bits: none of the kernel's. */
  predicate Free(a: Bits) {
    Masked(a, CONTROL) == 0
  }

  predicate Contains(a: Bits, b: Bits) {
    Masked(a, b) == b
  }

  function WaitedFor(value: Bits): Bits {
    Cleared(value, CONTROL)
  }

  /** prvTestWaitCondition */
  predicate TestWaitCondition(current: Bits, waitFor: Bits, all: bool) {
    if all then Contains(current, waitFor) else Masked(current, waitFor) != 0
  }

  /** The wait condition coded in an event list item value */
  predicate Satisfied(value: Bits, current: Bits) {
    TestWaitCondition(current, WaitedFor(value), Masked(value, WAIT_FOR_ALL) != 0)
  }

  predicate ClearsOnExit(value: Bits) {
    Masked(value, CLEAR_ON_EXIT) != 0
  }

  // ---- what one pass does ---------------------------------------------------------------------

  /** The waiting tasks that v does not satisfy, in order. */
  function Kept(ws: seq<Waiter>, v: Bits): seq<Waiter> {
    if ws == [] then [] else (if Satisfied(ws[0].value, v) then [] else [ws[0]]) + Kept(ws[1..], v)
  }

  /** The waiting tasks that v satisfies, in order. */
  function Matched(ws: seq<Waiter>, v: Bits): seq<Waiter> {
    if ws == [] then [] else (if Satisfied(ws[0].value, v) then [ws[0]] else []) + Matched(ws[1..], v)
  }

  /** What the released tasks will find: all of them the same value. */
  function Found(ws: seq<Waiter>, v: Bits): seq<Waiter> {
    seq(|ws|, i requires 0 <= i < |ws| => Waiter(ws[i].task, Union(v, UNBLOCKED)))
  }

  /** The union of what the released tasks asked to have cleared. */
  function Clears(matched: seq<Waiter>): Bits {
    if matched == [] then 0
    else Union(Clears(matched[..|matched| - 1]), ClearOf(matched[|matched| - 1]))
  }

  function ClearOf(w: Waiter): Bits {
    if ClearsOnExit(w.value) then WaitedFor(w.value) else 0
  }

  /** The pass splits the list: every waiting task is kept or matched, according to its own condition. */
  lemma {:induction false} PassIs(ws: seq<Waiter>, v: Bits)
    ensures forall w :: w in Kept(ws, v) <==> w in ws && !Satisfied(w.value, v)
    ensures forall w :: w in Matched(ws, v) <==> w in ws && Satisfied(w.value, v)
    ensures |Kept(ws, v)| + |Matched(ws, v)| == |ws|
  {
    hide Satisfied;
    if ws != [] {
      PassIs(ws[1..], v);
    }
  }

  lemma {:induction false} PassAppend(ws: seq<Waiter>, w: Waiter, v: Bits)
    ensures Kept(ws + [w], v) == if Satisfied(w.value, v) then Kept(ws, v) else Kept(ws, v) + [w]
    ensures Matched(ws + [w], v) == if Satisfied(w.value, v) then Matched(ws, v) + [w] else Matched(ws, v)
  {
    hide Satisfied;
    if ws == [] {
      assert [] + [w] == [w] && [w][1..] == [];
    } else {
      assert (ws + [w])[1..] == ws[1..] + [w];
      PassAppend(ws[1..], w, v);
    }
  }

  lemma ClearsAppend(matched: seq<Waiter>, w: Waiter)
    ensures Clears(matched + [w]) == Union(Clears(matched), ClearOf(w))
  {
    hide Union, ClearOf;
    assert (matched + [w])[..|matched|] == matched;
  }

  lemma ClearingAddsNoBits(v: Bits, cleared: Bits, w: Bits)
    ensures Contains(Cleared(v, cleared), w) ==> Contains(v, w)
  {
  }

  lemma ClearingSetsNoBit(v: Bits, cleared: Bits, w: Bits)
    ensures Masked(Cleared(v, cleared), w) != 0 ==> Masked(v, w) != 0
  {
  }

  /** Clearing bits never satisfies anybody. */
  lemma ClearingSatisfiesNobody(value: Bits, v: Bits, cleared: Bits)
    ensures Satisfied(value, Cleared(v, cleared)) ==> Satisfied(value, v)
  {
    hide Contains, Masked, Cleared, WaitedFor;
    ClearingAddsNoBits(v, cleared, WaitedFor(value));
    ClearingSetsNoBit(v, cleared, WaitedFor(value));
  }

  /** Nobody on the list could be released by the bits as they are. */
  predicate NoneSatisfied(ws: seq<Waiter>, v: Bits) {
    forall w | w in ws :: !Satisfied(w.value, v)
  }

  lemma ClearingKeeps(ws: seq<Waiter>, v: Bits, cleared: Bits)
    requires NoneSatisfied(ws, v)
    ensures NoneSatisfied(ws, Cleared(v, cleared))
  {
    hide Satisfied, Cleared;
    forall w | w in ws
      ensures !Satisfied(w.value, Cleared(v, cleared))
    {
      ClearingSatisfiesNobody(w.value, v, cleared);
    }
  }

  /** The state after xEventGroupSetBits, as values. */
  function BitsAfter(bits: Bits, ws: seq<Waiter>, added: Bits): Bits {
    Cleared(Union(bits, added), Clears(Matched(ws, Union(bits, added))))
  }

  /** After a pass nobody on the list could be released by the bits that are left, and nobody was released who
      could not have been by the bits before the clearing. */
  lemma PassMissesNobody(bits: Bits, ws: seq<Waiter>, added: Bits, w: Waiter)
    requires w in ws
    ensures var v := Union(bits, added);
            && NoneSatisfied(Kept(ws, v), BitsAfter(bits, ws, added))
            && (w in Kept(ws, v) <==> !Satisfied(w.value, v)) && (w in Matched(ws, v) <==> Satisfied(w.value, v))
  {
    hide Satisfied, Union, Cleared, Clears, Kept, Matched;
    var v := Union(bits, added);
    PassIs(ws, v);
    ClearingKeeps(Kept(ws, v), v, Clears(Matched(ws, v)));
  }

  // ---- bit by bit -------------------------------------------------------------------------------

  /** A mask of a single bit. */
  predicate OneBit(m: Bits) {
    m != 0 && m & (m - 1) == 0
  }

  predicate Has(a: Bits, m: Bits) {
    Masked(a, m) != 0
  }

  lemma MaskedUnion(a: Bits, b: Bits, m: Bits)
    ensures Masked(Union(a, b), m) == Union(Masked(a, m), Masked(b, m))
  {
  }

  lemma EmptyUnion(a: Bits, b: Bits)
    ensures Union(a, b) == 0 <==> a == 0 && b == 0
  {
  }

  lemma UnionHas(a: Bits, b: Bits, m: Bits)
    ensures Has(Union(a, b), m) <==> Has(a, m) || Has(b, m)
  {
    hide Union, Masked;
    MaskedUnion(a, b, m);
    EmptyUnion(Masked(a, m), Masked(b, m));
  }

  lemma OneBitIsAllOrNothing(a: Bits, m: Bits)
    requires OneBit(m)
    ensures Masked(a, m) == 0 || Masked(a, m) == m
  {
  }

  lemma MaskedCleared(a: Bits, c: Bits, m: Bits)
    ensures Masked(Cleared(a, c), m) == Masked(a, m) & !Masked(c, m)
  {
  }

  lemma OwnBits(m: Bits)
    ensures m & !m == 0 && (m & !0) == m && 0 & !m == 0 && 0 & !(0 as Bits) == 0
  {
  }

  lemma ClearedHas(a: Bits, c: Bits, m: Bits)
    requires OneBit(m)
    ensures Has(Cleared(a, c), m) <==> Has(a, m) && !Has(c, m)
  {
    OneBitIsAllOrNothing(a, m);
    OneBitIsAllOrNothing(c, m);
    MaskedCleared(a, c, m);
    OwnBits(m);
    hide Masked, Cleared, OneBit;
  }

  /** The pass clears a bit if a task it releases asked for it to be cleared. */
  predicate AsksToClear(w: Waiter, m: Bits) {
    ClearsOnExit(w.value) && Has(WaitedFor(w.value), m)
  }

  lemma OneMoreAsks(ws: seq<Waiter>, w: Waiter, m: Bits)
    ensures (exists u | u in ws + [w] :: AsksToClear(u, m))
       <==> AsksToClear(w, m) || exists u | u in ws :: AsksToClear(u, m)
  {
    assert w in ws + [w];
    hide AsksToClear;
  }

  lemma {:induction false} ClearsHas(matched: seq<Waiter>, m: Bits)
    ensures Has(Clears(matched), m) <==> exists w | w in matched :: AsksToClear(w, m)
    decreases |matched|
  {
    hide Union, Masked, ClearsOnExit, WaitedFor;
    if matched == [] {
      NothingHas(m);
    } else {
      var k := |matched| - 1;
      ClearsHas(matched[..k], m);
      UnionHas(Clears(matched[..k]), ClearOf(matched[k]), m);
      NothingHas(m);
      OneMoreAsks(matched[..k], matched[k], m);
      assert matched == matched[..k] + [matched[k]];
      hide Has, AsksToClear;
    }
  }

  lemma NothingHas(m: Bits)
    ensures !Has(0, m)
  {
  }

  /** Bit by bit, what xEventGroupSetBits leaves: a bit that was set or is added, unless a task that these bits release
      waited for it and asked for clearing on exit. */
  lemma BitsAfterMeans(bits: Bits, ws: seq<Waiter>, added: Bits, m: Bits)
    requires OneBit(m)
    ensures Masked(BitsAfter(bits, ws, added), m) != 0 <==>
              && (Masked(bits, m) != 0 || Masked(added, m) != 0)
              && !exists w | w in ws :: Satisfied(w.value, Union(bits, added)) && Masked(w.value, CLEAR_ON_EXIT) != 0
                                        && Masked(Cleared(w.value, CONTROL), m) != 0
  {
    hide Union, Masked, Cleared, OneBit, Satisfied, Clears, Matched, Kept;
    var v := Union(bits, added);
    PassIs(ws, v);
    ClearsHas(Matched(ws, v), m);
    ClearedHas(v, Clears(Matched(ws, v)), m);
    UnionHas(bits, added, m);
  }

  /** The lowest bit of x. */
  lemma LowestBit(x: Bits) returns (m: Bits)
    requires x != 0
    ensures OneBit(m) && Masked(x, m) == m
  {
    m := x & (0 - x);
  }

  /** A mask is made of the bits it shares with another and those it does not. */
  lemma TwoParts(w: Bits, c: Bits)
    ensures Union(Masked(c, w), Cleared(w, c)) == w && Cleared(Masked(c, w), c) == 0
  {
  }

  lemma NothingMissing(a: Bits)
    ensures Union(a, 0) == a
  {
  }

  lemma HasNone(waitFor: Bits, current: Bits)
    ensures Contains(current, waitFor) <==> Cleared(waitFor, current) == 0
  {
    hide Union, Masked, Cleared;
    TwoParts(waitFor, current);
    NothingMissing(Masked(current, waitFor));
  }

  lemma MaskedMasked(a: Bits, b: Bits, m: Bits)
    ensures Masked(Masked(a, b), m) == Masked(Masked(a, m), Masked(b, m))
  {
  }

  lemma MaskedSame(m: Bits)
    ensures Masked(m, m) == m && Masked(m, 0) == 0 && Masked(0, m) == 0 && Masked(0, 0) == 0
  {
  }

  lemma HasSome(a: Bits, b: Bits, m: Bits)
    requires OneBit(m)
    ensures Masked(Masked(a, b), m) != 0 <==> Masked(a, m) != 0 && Masked(b, m) != 0
  {
    OneBitIsAllOrNothing(a, m);
    OneBitIsAllOrNothing(b, m);
    MaskedMasked(a, b, m);
    MaskedSame(m);
    hide Masked, OneBit;
  }

  /** Bit by bit, what a task waits for: every bit of its mask to be set, or any of them. */
  lemma TestWaitMeans(current: Bits, waitFor: Bits, all: bool)
    ensures all ==> (TestWaitCondition(current, waitFor, all) <==>
                       forall m | OneBit(m) :: Masked(waitFor, m) != 0 ==> Masked(current, m) != 0)
    ensures !all ==> (TestWaitCondition(current, waitFor, all) <==>
                        exists m | OneBit(m) :: Masked(waitFor, m) != 0 && Masked(current, m) != 0)
  {
    hide OneBit, Masked, Cleared, Contains;
    AllMeans(current, waitFor);
    AnyMeans(current, waitFor);
  }

  lemma AllMeans(current: Bits, waitFor: Bits)
    ensures Contains(current, waitFor) <==>
              forall m | OneBit(m) :: Masked(waitFor, m) != 0 ==> Masked(current, m) != 0
  {
    hide OneBit, Masked, Cleared, Contains;
    HasNone(waitFor, current);
    forall m | OneBit(m)
      ensures Has(Cleared(waitFor, current), m) <==> Has(waitFor, m) && !Has(current, m)
    {
      ClearedHas(waitFor, current, m);
    }
    if Cleared(waitFor, current) != 0 {
      var m := LowestBit(Cleared(waitFor, current));
      NotZero(m);
      assert Has(Cleared(waitFor, current), m);
    } else {
      forall m | OneBit(m)
        ensures !Has(Cleared(waitFor, current), m)
      {
        NothingHas(m);
      }
    }
  }

  lemma NotZero(m: Bits)
    ensures OneBit(m) ==> m != 0
  {
  }

  lemma AnyMeans(current: Bits, waitFor: Bits)
    ensures Masked(current, waitFor) != 0 <==>
              exists m | OneBit(m) :: Masked(waitFor, m) != 0 && Masked(current, m) != 0
  {
    hide OneBit, Masked;
    forall m | OneBit(m)
      ensures Masked(Masked(current, waitFor), m) != 0 <==> Masked(current, m) != 0 && Masked(waitFor, m) != 0
    {
      HasSome(current, waitFor, m);
      NotZero(m);
    }
    if Masked(current, waitFor) != 0 {
      var m := LowestBit(Masked(current, waitFor));
      NotZero(m);
    } else {
      forall m | OneBit(m)
        ensures Masked(Masked(current, waitFor), m) == 0
      {
        NothingHas(m);
      }
    }
  }

  /** The released tasks, in their order, find the bits as they were when the condition was tested, marked as
      unblocked by bits. */
  lemma FoundMeans(matched: seq<Waiter>, v: Bits, i: nat)
    requires i < |matched|
    ensures |Found(matched, v)| == |matched| && Found(matched, v)[i].task == matched[i].task
    ensures Masked(Found(matched, v)[i].value, 0x0200_0000) != 0
    ensures Masked(Found(matched, v)[i].value, 0x00ff_ffff) == Masked(v, 0x00ff_ffff)
  {
    UnblockedMark(v);
    hide Union, Masked;
  }

  lemma UnblockedMark(v: Bits)
    ensures Masked(Union(v, UNBLOCKED), 0x0200_0000) != 0
    ensures Masked(Union(v, UNBLOCKED), 0x00ff_ffff) == Masked(v, 0x00ff_ffff)
  {
  }

  /** What the first part of xEventGroupSync does to the bits and the list, whom it releases, and whether the
      rendezvous is complete. */
  datatype Synced = Synced(bits: Bits, waiting: seq<Waiter>, found: seq<Waiter>, met: bool)

  function Synchronise(bits: Bits, waiting: seq<Waiter>, t: Task, added: Bits, waitFor: Bits, blockTime: bool): Synced {
    var v, after := Union(bits, added), BitsAfter(bits, waiting, added);
    var met := Contains(v, waitFor);
    Synced(if met then Cleared(after, waitFor) else after,
           Kept(waiting, v) + (if blockTime && !met then [Waiter(t, Coded(waitFor, true, true))] else []),
           Found(Matched(waiting, v), v), met)
  }

  class EventGroup {
    var bits: Bits
    var waiting: seq<Waiter>
    /** The event item values of tasks that have been unblocked and have not run yet, oldest first. */
    var unblocked: seq<Waiter>

    /** No wake-up is missed. */
    ghost predicate Valid()
      reads this
    {
      NoneSatisfied(waiting, bits)
    }

    /** xEventGroupCreate */
    constructor ()
      ensures Valid() && bits == 0 && waiting == [] && unblocked == []
    {
      bits, waiting, unblocked := 0, [], [];
    }

    /** xEventGroupSetBits: one pass over the list in which satisfied tasks are taken out, then the deferred
        clearing. */
    method SetBits(added: Bits) returns (result: Bits)
      requires Free(added)
      modifies this
      ensures Valid() && result == bits == BitsAfter(old(bits), old(waiting), added)
      ensures waiting == Kept(old(waiting), Union(old(bits), added))
      ensures unblocked == old(unblocked) + Found(Matched(old(waiting), Union(old(bits), added)),
                                                  Union(old(bits), added))
    {
      hide Satisfied, ClearOf, Union, Masked, Cleared, Kept, Matched, Clears, Found;
      ghost var list := waiting;
      ghost var seen := 0;
      bits := Union(bits, added);
      var clear: Bits := 0;
      var i := 0;
      PassStarts(bits);
      while i < |waiting|
        invariant 0 <= i <= |waiting| && seen <= |list| && waiting[i..] == list[seen..]
        invariant waiting[..i] == Kept(list[..seen], bits)
        invariant unblocked == old(unblocked) + Found(Matched(list[..seen], bits), bits)
        invariant clear == Clears(Matched(list[..seen], bits)) && bits == Union(old(bits), added)
        decreases |waiting| - i
      {
        var w := waiting[i];
        PassOnce(list, seen, bits);
        StillToSee(waiting, i, list, seen);
        if Satisfied(w.value, bits) {
          clear := Union(clear, ClearOf(w));
          unblocked := unblocked + [Waiter(w.task, Union(bits, UNBLOCKED))];
          waiting := waiting[..i] + waiting[i + 1..];
        } else {
          i := i + 1;
        }
        seen := seen + 1;
      }
      assert list[..seen] == list && waiting[..i] == waiting;
      PassIs(list, bits);
      ClearingKeeps(waiting, bits, clear);
      bits := Cleared(bits, clear);
      result := bits;
    }

    /** xEventGroupClearBits */
    method ClearBits(clear: Bits) returns (before: Bits)
      requires Valid() && Free(clear)
      modifies `bits
      ensures Valid() && before == old(bits) && bits == Cleared(old(bits), clear)
    {
      hide Satisfied, Cleared;
      before := bits;
      ClearingKeeps(waiting, bits, clear);
      bits := Cleared(bits, clear);
    }

    /** The first part of xEventGroupWaitBits by task t: satisfied at once, refused, or put on the list. */
    method WaitBits(t: Task, waitFor: Bits, clearOnExit: bool, all: bool, blockTime: bool)
      returns (blocks: bool, result: Bits)
      requires Valid() && Free(waitFor) && waitFor != 0
      modifies `bits, `waiting
      ensures Valid()
      ensures blocks == (blockTime && !TestWaitCondition(old(bits), waitFor, all))
      ensures !blocks ==> result == old(bits)
      ensures bits == if TestWaitCondition(old(bits), waitFor, all) && clearOnExit then Cleared(old(bits), waitFor)
                      else old(bits)
      ensures waiting == old(waiting) + if blocks then [Waiter(t, Coded(waitFor, clearOnExit, all))] else []
    {
      hide Satisfied, Cleared, TestWaitCondition, Coded;
      result := bits;
      blocks := false;
      if TestWaitCondition(bits, waitFor, all) {
        if clearOnExit {
          ClearingKeeps(waiting, bits, waitFor);
          bits := Cleared(bits, waitFor);
        }
      } else if blockTime {
        CodedMeans(waitFor, clearOnExit, all, bits);
        waiting := waiting + [Waiter(t, Coded(waitFor, clearOnExit, all))];
        blocks := true;
      }
    }

    /** The first part of xEventGroupSync by task t. */
    method Sync(t: Task, added: Bits, waitFor: Bits, blockTime: bool) returns (blocks: bool, result: Bits)
      requires Valid() && Free(added) && Free(waitFor) && waitFor != 0
      modifies this
      ensures Valid()
      ensures var r := Synchronise(old(bits), old(waiting), t, added, waitFor, blockTime);
              && r.met == Contains(Union(old(bits), added), waitFor)
              && bits == r.bits && waiting == r.waiting && unblocked == old(unblocked) + r.found
      ensures var v, after := Union(old(bits), added), BitsAfter(old(bits), old(waiting), added);
              && blocks == (blockTime && !Contains(v, waitFor))
              && bits == (if Contains(v, waitFor) then Cleared(after, waitFor) else after)
              && waiting == Kept(old(waiting), v) + (if blocks then [Waiter(t, Coded(waitFor, true, true))] else [])
              && unblocked == old(unblocked) + Found(Matched(old(waiting), v), v)
              && (Contains(v, waitFor) ==> result == v)
              && (!Contains(v, waitFor) && !blocks ==> result == bits)
    {
      hide Satisfied, Union, Cleared, Contains, Coded, Kept, Matched, Clears;
      var original := bits;
      var _ := SetBits(added);
      blocks := false;
      if Contains(Union(original, added), waitFor) {
        result := Union(original, added);
        ClearingKeeps(waiting, bits, waitFor);
        bits := Cleared(bits, waitFor);
      } else if blockTime {
        SyncNotMet(waitFor, Union(original, added), Clears(Matched(old(waiting), Union(original, added))));
        waiting := waiting + [Waiter(t, Coded(waitFor, true, true))];
        blocks := true;
        result := 0;
      } else {
        result := bits;
      }
    }

    /** The tick takes a task whose wait has timed out off the list. */
    method TimeOut(t: Task) returns (ghost at: nat)
      requires Valid() && exists i :: 0 <= i < |waiting| && waiting[i].task == t
      modifies `waiting
      ensures Valid() && at < |old(waiting)| && old(waiting)[at].task == t && waiting == Without(old(waiting), at)
    {
      hide Satisfied;
      var i :| 0 <= i < |waiting| && waiting[i].task == t;
      at := i;
      waiting := Without(waiting, i);
      forall w | w in waiting
        ensures w in old(waiting)
      {
        var k :| 0 <= k < |waiting| && waiting[k] == w;
        assert w == old(waiting)[if k < i then k else k + 1];
      }
    }

    /** The last part of both waiting functions, when the task runs again after a time-out: the wait condition is
        tested once more. */
    method AfterTimeOut(waitFor: Bits, clearOnExit: bool, all: bool) returns (result: Bits)
      requires Valid()
      modifies `bits
      ensures Valid() && result == Cleared(old(bits), CONTROL)
      ensures bits == if TestWaitCondition(old(bits), waitFor, all) && clearOnExit then Cleared(old(bits), waitFor)
                      else old(bits)
    {
      hide Satisfied, Cleared, TestWaitCondition;
      result := Cleared(bits, CONTROL);
      if TestWaitCondition(bits, waitFor, all) && clearOnExit {
        ClearingKeeps(waiting, bits, waitFor);
        bits := Cleared(bits, waitFor);
      }
    }
  }

  lemma PassStarts(v: Bits)
    ensures Kept([], v) == [] && Matched([], v) == [] && Clears([]) == 0 && Found([], v) == []
  {
  }

  /** One pass over the next waiting task. */
  lemma PassOnce(list: seq<Waiter>, seen: nat, v: Bits)
    requires seen < |list|
    ensures var w, before, after := list[seen], list[..seen], list[..seen + 1];
            if Satisfied(w.value, v) then
              && Kept(after, v) == Kept(before, v) && Matched(after, v) == Matched(before, v) + [w]
              && Found(Matched(after, v), v) == Found(Matched(before, v), v) + [Waiter(w.task, Union(v, UNBLOCKED))]
              && Clears(Matched(after, v)) == Union(Clears(Matched(before, v)), ClearOf(w))
            else Kept(after, v) == Kept(before, v) + [w] && Matched(after, v) == Matched(before, v)
  {
    hide Satisfied, ClearOf, Union, Kept, Matched, Clears, Found;
    assert list[..seen + 1] == list[..seen] + [list[seen]];
    PassAppend(list[..seen], list[seen], v);
    ClearsAppend(Matched(list[..seen], v), list[seen]);
    FoundAppend(Matched(list[..seen], v), list[seen], v);
  }

  /** The tail of the list that the pass has not come to, with the next task taken out or passed over. */
  lemma StillToSee(waiting: seq<Waiter>, i: nat, list: seq<Waiter>, seen: nat)
    requires i < |waiting| && seen <= |list| && waiting[i..] == list[seen..]
    ensures seen < |list| && waiting[i] == list[seen] && waiting[i + 1..] == list[seen + 1..]
    ensures waiting[..i + 1] == waiting[..i] + [waiting[i]]
    ensures var cut := waiting[..i] + waiting[i + 1..]; cut[..i] == waiting[..i] && cut[i..] == waiting[i + 1..]
  {
    assert |waiting[i..]| == |list[seen..]|;
    assert waiting[i..][0] == list[seen..][0];
    assert waiting[i..][1..] == waiting[i + 1..] && list[seen..][1..] == list[seen + 1..];
  }

  lemma FoundAppend(matched: seq<Waiter>, w: Waiter, v: Bits)
    ensures Found(matched + [w], v) == Found(matched, v) + [Waiter(w.task, Union(v, UNBLOCKED))]
  {
    hide Union;
  }

  /** A task that blocks in xEventGroupSync is not satisfied by the bits that are left. */
  lemma SyncNotMet(waitFor: Bits, v: Bits, cleared: Bits)
    requires Free(waitFor) && !Contains(v, waitFor)
    ensures !Satisfied(Coded(waitFor, true, true), Cleared(v, cleared))
  {
    hide Cleared, Coded;
    CodedMeans(waitFor, true, true, v);
    ClearingSatisfiesNobody(Coded(waitFor, true, true), v, cleared);
  }

  /** The event list item value of a waiting task */
  function Coded(waitFor: Bits, clearOnExit: bool, all: bool): Bits {
    Union(waitFor, Union(if clearOnExit then CLEAR_ON_EXIT else 0, if all then WAIT_FOR_ALL else 0))
  }

  /** The application's bits come back out of a value that has control bits added. */
  lemma ControlComesOff(w: Bits, x: Bits)
    requires Free(w) && Masked(x, 0x00ff_ffff) == 0
    ensures Cleared(Union(w, x), CONTROL) == w
  {
  }

  lemma FlagIs(w: Bits, x: Bits, flag: Bits)
    requires Masked(w, flag) == 0
    ensures Masked(Union(w, x), flag) == Masked(x, flag)
  {
  }

  lemma ApplicationHasNoFlags(w: Bits)
    requires Free(w)
    ensures Masked(w, CLEAR_ON_EXIT) == 0 && Masked(w, WAIT_FOR_ALL) == 0
  {
  }

  lemma FlagsTogether(clear: bool, all: bool)
    ensures var c: Bits := if clear then CLEAR_ON_EXIT else 0; var a: Bits := if all then WAIT_FOR_ALL else 0;
            && Masked(Union(c, a), 0x00ff_ffff) == 0
            && Masked(Union(c, a), CLEAR_ON_EXIT) == c && Masked(Union(c, a), WAIT_FOR_ALL) == a
  {
  }

  /** The coded value means what the caller asked for. */
  lemma CodedMeans(waitFor: Bits, clearOnExit: bool, all: bool, current: Bits)
    requires Free(waitFor)
    ensures Satisfied(Coded(waitFor, clearOnExit, all), current) <==> TestWaitCondition(current, waitFor, all)
    ensures ClearsOnExit(Coded(waitFor, clearOnExit, all)) <==> clearOnExit
    ensures WaitedFor(Coded(waitFor, clearOnExit, all)) == waitFor
  {
    hide TestWaitCondition, Union, Masked, Cleared, Free;
    var flags := Union(if clearOnExit then CLEAR_ON_EXIT else 0, if all then WAIT_FOR_ALL else 0);
    FlagsTogether(clearOnExit, all);
    ControlComesOff(waitFor, flags);
    ApplicationHasNoFlags(waitFor);
    FlagIs(waitFor, flags, CLEAR_ON_EXIT);
    FlagIs(waitFor, flags, WAIT_FOR_ALL);
  }
}

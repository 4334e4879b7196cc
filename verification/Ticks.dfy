/** The 32-bit tick arithmetic of the kernel, beside a true tick count that never wraps.
    TickType_t is unsigned, so every addition and subtraction is taken modulo 2^32. */
module Ticks {
  /** 2^32: the number of values of TickType_t. */
  const MODULUS: nat := 0x1_0000_0000
  /** portMAX_DELAY: the largest tick value; as a block time it means "for ever". */
  const MAX_DELAY: nat := 0xFFFF_FFFF

  predicate IsTick(x: int) {
    0 <= x < 0x1_0000_0000
  }

  /** The value a TickType_t holds after computing x. */
  function Wrap(x: int): (r: nat)
    ensures IsTick(r)
  {
    x % 0x1_0000_0000
  }

  /** How many times the tick counter has wrapped by the true time x. */
  function Epoch(x: nat): nat {
    x / 0x1_0000_0000
  }

  lemma WrapEpoch(x: nat)
    ensures x == Epoch(x) * 0x1_0000_0000 + Wrap(x)
  {
  }

  lemma RemainderIs(x: int, q: int, r: int)
    requires IsTick(r) && x == q * 0x1_0000_0000 + r
    ensures Wrap(x) == r
  {
  }

  /** Sums and differences of tick values may be wrapped at any point. */
  lemma WrapAdd(a: int, b: int)
    ensures Wrap(Wrap(a) + b) == Wrap(a + b)
    ensures Wrap(a - Wrap(b)) == Wrap(a - b)
  {
    var qa, qb := a / 0x1_0000_0000, b / 0x1_0000_0000;
    var qs, qd := (a + b) / 0x1_0000_0000, (a - b) / 0x1_0000_0000;
    RemainderIs(Wrap(a) + b, qs - qa, Wrap(a + b));
    RemainderIs(a - Wrap(b), qd + qb, Wrap(a - b));
  }

  /** The difference of two wrapped times is the true difference, wrapped. */
  lemma WrapDifference(start: nat, now: nat)
    requires start <= now
    ensures Wrap(Wrap(now) - Wrap(start)) == Wrap(now - start)
    ensures now - start < 0x1_0000_0000 ==> Wrap(now - start) == now - start
  {
    hide Wrap;
    WrapAdd(now, 0 - start as int);
    WrapAdd(Wrap(now), start);
    if now - start < 0x1_0000_0000 {
      RemainderIs(now - start, 0, now - start);
    }
  }

  /** A wrapped sum is below its first operand exactly when the true sum crosses into the next epoch. */
  lemma WrapCrossing(now: nat, d: nat)
    requires d < 0x1_0000_0000
    ensures Wrap(Wrap(now) + d) == Wrap(now + d)
    ensures Wrap(now + d) < Wrap(now) <==> Epoch(now + d) == Epoch(now) + 1
    ensures Wrap(now + d) >= Wrap(now) <==> Epoch(now + d) == Epoch(now)
  {
    WrapAdd(now, d);
    WrapEpoch(now);
    WrapEpoch(now + d);
  }

  /** Within one epoch the 32-bit order is the true order. */
  lemma SameEpochOrder(a: nat, b: nat)
    requires Epoch(a) == Epoch(b)
    ensures Wrap(a) <= Wrap(b) <==> a <= b
    ensures Wrap(a) == Wrap(b) <==> a == b
  {
    WrapEpoch(a);
    WrapEpoch(b);
  }
}

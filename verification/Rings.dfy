/** The kernel's lists as values: a sequence of members and the position of pxIndex.
    Position 0 is the end marker; position k > 0 is the member items[k - 1]. */
module Rings {
  datatype Ring<T> = Ring(items: seq<T>, index: nat)

  predicate Ok<T(==)>(r: Ring<T>) {
    r.index <= |r.items| && NoDup(r.items)
  }

  predicate NoDup<T(==)>(s: seq<T>) {
    forall i, j | 0 <= i < j < |s| :: s[i] != s[j]
  }

  /** The members in the order in which repeated picks return them. */
  function Rotation<T>(r: Ring<T>): seq<T>
    requires r.index <= |r.items|
  {
    r.items[r.index..] + r.items[..r.index]
  }

  function Insert<T>(s: seq<T>, p: nat, x: T): seq<T>
    requires p <= |s|
  {
    seq(|s| + 1, i requires 0 <= i <= |s| => if i < p then s[i] else if i == p then x else s[i - 1])
  }

  function Without<T>(s: seq<T>, p: nat): seq<T>
    requires p < |s|
  {
    seq(|s| - 1, i requires 0 <= i < |s| - 1 => if i < p then s[i] else s[i + 1])
  }

  /** Link x in so that it becomes items[p]; pxIndex keeps pointing at the same list item. */
  function InsertAt<T>(r: Ring<T>, p: nat, x: T): (q: Ring<T>)
    requires p <= |r.items|
    ensures r.index <= |r.items| ==> q.index <= |q.items|
  {
    Ring(Insert(r.items, p, x), if r.index > p then r.index + 1 else r.index)
  }

  /** vListInsertEnd puts the new item just before the one pxIndex points at. */
  function EndPosition<T>(r: Ring<T>): (p: nat)
    requires r.index <= |r.items|
    ensures p <= |r.items|
  {
    if r.index == 0 then |r.items| else r.index - 1
  }

  function InsertEnd<T>(r: Ring<T>, x: T): (q: Ring<T>)
    requires r.index <= |r.items|
    ensures q.index <= |q.items|
  {
    InsertAt(r, EndPosition(r), x)
  }

  /** uxListRemove: if pxIndex pointed at the removed item it steps back to the previous one. */
  function RemoveAt<T>(r: Ring<T>, p: nat): (q: Ring<T>)
    requires p < |r.items|
    ensures r.index <= |r.items| ==> q.index <= |q.items|
  {
    Ring(Without(r.items, p), if r.index > p then r.index - 1 else r.index)
  }

  /** listGET_OWNER_OF_NEXT_ENTRY: advance pxIndex, stepping over the end marker. */
  function Next<T>(r: Ring<T>): (q: Ring<T>)
    requires r.items != [] && r.index <= |r.items|
    ensures 1 <= q.index <= |q.items|
  {
    Ring(r.items, if r.index == |r.items| then 1 else r.index + 1)
  }

  function Picked<T>(r: Ring<T>): T
    requires r.items != [] && 1 <= r.index <= |r.items|
  {
    r.items[r.index - 1]
  }

  function Find<T(==)>(s: seq<T>, x: T): (p: nat)
    requires x in s
    ensures p < |s| && s[p] == x && x !in s[..p]
  {
    if s[0] == x then 0 else 1 + Find(s[1..], x)
  }

  function Remove<T(==)>(r: Ring<T>, x: T): (q: Ring<T>)
    requires x in r.items
    ensures r.index <= |r.items| ==> q.index <= |q.items|
  {
    RemoveAt(r, Find(r.items, x))
  }

  // ---- membership -------------------------------------------------------------------

  lemma InsertMembers<T>(s: seq<T>, p: nat, x: T)
    requires p <= |s|
    ensures forall y :: y in Insert(s, p, x) <==> y == x || y in s
    ensures x !in s && NoDup(s) ==> NoDup(Insert(s, p, x))
  {
    var t := Insert(s, p, x);
    forall y | y in s
      ensures y in t
    {
      var i :| 0 <= i < |s| && s[i] == y;
      assert t[if i < p then i else i + 1] == y;
    }
    assert t[p] == x;
  }

  lemma WithoutMembers<T>(s: seq<T>, p: nat)
    requires p < |s| && NoDup(s)
    ensures NoDup(Without(s, p))
    ensures forall y :: y in Without(s, p) <==> y != s[p] && y in s
  {
    var t := Without(s, p);
    forall y | y in s && y != s[p]
      ensures y in t
    {
      var i :| 0 <= i < |s| && s[i] == y;
      assert t[if i < p then i else i - 1] == y;
    }
  }

  /** Removing an item that was just linked in gives back the old list, index included. */
  lemma InsertThenRemove<T>(r: Ring<T>, p: nat, x: T)
    requires Ok(r) && p <= |r.items| && x !in r.items
    ensures x in InsertAt(r, p, x).items && Remove(InsertAt(r, p, x), x) == r
  {
    var t := InsertAt(r, p, x);
    assert t.items[p] == x;
    InsertMembers(r.items, p, x);
    assert Find(t.items, x) == p;
    assert Without(t.items, p) == r.items;
  }

  // ---- the rotation view of pxIndex -------------------------------------------------

  /** A pick returns the front of the rotation and sends it to the back. */
  lemma NextRotates<T>(r: Ring<T>)
    requires r.items != [] && r.index <= |r.items|
    ensures Picked(Next(r)) == Rotation(r)[0]
    ensures Rotation(Next(r)) == Rotation(r)[1..] + [Rotation(r)[0]]
  {
  }

  /** Removal deletes one element of the rotation and keeps the order of the others,
      also when the removed element is the one pxIndex points at. */
  lemma RemoveKeepsRotation<T>(r: Ring<T>, p: nat)
    requires r.index <= |r.items| && p < |r.items|
    ensures var q := if p >= r.index then p - r.index else |r.items| - r.index + p;
            q < |r.items| && Rotation(r)[q] == r.items[p]
            && RemoveAt(r, p).index <= |RemoveAt(r, p).items|
            && Rotation(RemoveAt(r, p)) == Without(Rotation(r), q)
  {
  }

  /** An item linked in at the "end" is picked after every other item, or, when pxIndex is on an
      item, after every other item except that one. */
  lemma InsertEndIsLast<T>(r: Ring<T>, x: T)
    requires r.index <= |r.items|
    ensures r.index == 0 ==> Rotation(InsertEnd(r, x)) == Rotation(r) + [x]
    ensures r.index > 0 ==> Rotation(InsertEnd(r, x)) == Insert(Rotation(r), |r.items| - 1, x)
  {
    if r.index > 0 {
      var k := r.index - 1;
      var t := InsertEnd(r, x).items;
      assert t[k + 2..] == r.items[k + 1..];
      assert t[..k + 2] == r.items[..k] + [x] + [r.items[k]];
      assert r.items[..k + 1] == r.items[..k] + [r.items[k]];
    }
  }

  /** The items returned by n successive picks. */
  function Picks<T>(r: Ring<T>, n: nat): seq<T>
    requires r.items != [] && r.index <= |r.items|
    decreases n
  {
    if n == 0 then [] else [Picked(Next(r))] + Picks(Next(r), n - 1)
  }

  lemma {:induction false} PicksFollowRotation<T>(r: Ring<T>, n: nat)
    requires r.items != [] && r.index <= |r.items| && n <= |r.items|
    ensures Picks(r, n) == Rotation(r)[..n]
    decreases n
  {
    if n > 0 {
      NextRotates(r);
      PicksFollowRotation(Next(r), n - 1);
    }
  }

  lemma RotationHasItems<T>(r: Ring<T>)
    requires r.index <= |r.items|
    ensures |Rotation(r)| == |r.items| && multiset(Rotation(r)) == multiset(r.items)
  {
    assert r.items == r.items[..r.index] + r.items[r.index..];
  }

  /** Round robin: as many picks as there are items return every item exactly once. */
  lemma RoundRobinIsFair<T>(r: Ring<T>)
    requires Ok(r) && r.items != []
    ensures |Picks(r, |r.items|)| == |r.items|
    ensures multiset(Picks(r, |r.items|)) == multiset(r.items)
    ensures forall x | x in r.items :: multiset(Picks(r, |r.items|))[x] == 1
  {
    hide Rotation, Picks, NoDup;
    PicksFollowRotation(r, |r.items|);
    RotationHasItems(r);
    assert Rotation(r)[..|r.items|] == Rotation(r);
    forall x | x in r.items
      ensures multiset(r.items)[x] == 1
    {
      OccursOnce(r.items, x);
    }
  }

  lemma {:induction false} OccursOnce<T>(s: seq<T>, x: T)
    requires NoDup(s)
    ensures multiset(s)[x] == if x in s then 1 else 0
  {
    if s != [] {
      assert s == [s[0]] + s[1..];
      OccursOnce(s[1..], x);
    }
  }

  // ---- sorted insertion -------------------------------------------------------------

  /** The place vListInsert chooses: before the first value that is greater than v. */
  function FirstAbove(values: seq<nat>, v: nat): (p: nat)
    ensures p <= |values|
    ensures forall i | 0 <= i < p :: values[i] <= v
    ensures p < |values| ==> values[p] > v
  {
    if values == [] || values[0] > v then 0 else 1 + FirstAbove(values[1..], v)
  }

  predicate Sorted(values: seq<nat>) {
    forall i, j | 0 <= i < j < |values| :: values[i] <= values[j]
  }

  /** Insertion keeps a sorted list sorted and puts the new value behind all equal ones. */
  lemma SortedInsertion(values: seq<nat>, v: nat)
    requires Sorted(values)
    ensures Sorted(Insert(values, FirstAbove(values, v), v))
    ensures forall i | FirstAbove(values, v) <= i < |values| :: values[i] > v
  {
  }

  lemma FirstAboveUnique(values: seq<nat>, v: nat, p: nat)
    requires p <= |values|
    requires forall i | 0 <= i < p :: values[i] <= v
    requires p < |values| ==> values[p] > v
    ensures p == FirstAbove(values, v)
  {
  }
}

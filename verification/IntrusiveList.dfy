/** The circular doubly linked list of list.c on heap objects. Every operation is proved to do to the
    links, the containers, the count and pxIndex exactly what module Rings says it does to a sequence. */
module IntrusiveList {
  import opened Ticks
  import opened Rings

  class ListItem {
    var value: nat
    var next: ListItem?
    var previous: ListItem?
    var container: List?
    const owner: nat

    /** vListInitialiseItem: a new item is in no list. */
    constructor (owner: nat, value: nat)
      requires IsTick(value)
      ensures this.owner == owner && this.value == value && container == null
    {
      this.owner, this.value := owner, value;
      next, previous, container := null, null, null;
    }
  }

  class List {
    var count: nat
    var index: ListItem
    const end: ListItem
    ghost var items: seq<ListItem>
    ghost var position: nat

    /** The member at index i, or the end marker when i is one before the first or one after the last. */
    ghost function At(i: int): ListItem
      reads this
    {
      if 0 <= i < |items| then items[i] else end
    }

    ghost predicate Shaped()
      reads this, end, items
    {
      && NoDup(items) && end !in items
      && position <= |items| && index == At(position - 1)
      && end.value == MAX_DELAY
      && (forall i {:trigger items[i].value} | 0 <= i < |items| :: IsTick(items[i].value))
      && (forall i {:trigger items[i].container} | 0 <= i < |items| :: items[i].container == this)
    }

    ghost predicate Valid()
      reads this, end, items
    {
      && Shaped() && count == |items|
      && end.next == At(0) && end.previous == At(|items| - 1)
      && (forall i {:trigger items[i].next} | 0 <= i < |items| :: items[i].next == At(i + 1))
      && (forall i {:trigger items[i].previous} | 0 <= i < |items| :: items[i].previous == At(i - 1))
    }

    /** The abstract value: the members in order and where pxIndex stands. */
    ghost function View(): Ring<ListItem>
      reads this
    {
      Ring(items, position)
    }

    ghost function Values(): (r: seq<nat>)
      reads this, items
      ensures |r| == |items| && forall i | 0 <= i < |r| :: r[i] == items[i].value
    {
      seq(|items|, i requires 0 <= i < |items| reads this, items => items[i].value)
    }

    /** vListInitialise */
    constructor ()
      ensures Valid() && View() == Ring([], 0) && fresh(end)
    {
      var e := new ListItem(0, MAX_DELAY);
      end, index, count := e, e, 0;
      items, position := [], 0;
      new;
      end.next, end.previous := end, end;
    }

    /** The links after an insertion: item stands between At(p - 1) and At(p), and every other link
        is as it was. */
    ghost predicate LinksSpliced(p: nat, item: ListItem)
      reads this, end, items, item
    {
      && item.previous == At(p - 1) && item.next == At(p)
      && end.next == (if p == 0 then item else At(0))
      && end.previous == (if p == |items| then item else At(|items| - 1))
      && (forall i {:trigger items[i].next} | 0 <= i < |items| ::
            items[i].next == if i + 1 == p then item else At(i + 1))
      && (forall i {:trigger items[i].previous} | 0 <= i < |items| ::
            items[i].previous == if i == p then item else At(i - 1))
    }

    ghost predicate SplicedIn(p: nat, item: ListItem)
      reads this, end, items, item
    {
      && Shaped() && count == |items| + 1 && p <= |items|
      && item !in items && item != end && IsTick(item.value) && item.container == this
      && LinksSpliced(p, item)
    }

    /** The link writes shared by vListInsert and vListInsertEnd. */
    method Link(left: ListItem, right: ListItem, item: ListItem, ghost p: nat)
      requires Valid() && p <= |items| && left == At(p - 1) && right == At(p)
      requires item !in items && item != end
      modifies end`next, end`previous, items`next, items`previous, item`next, item`previous
      ensures LinksSpliced(p, item)
    {
      assert forall i {:trigger items[i]} | 0 <= i < |items| ::
               (items[i] == left ==> i + 1 == p) && (items[i] == right ==> i == p);
      item.next := right;
      right.previous := item;
      item.previous := left;
      left.next := item;
    }

    /** The other writes of both insertions: the container and the count. */
    method Join(item: ListItem, ghost p: nat)
      requires Shaped() && count == |items| && p <= |items| && LinksSpliced(p, item)
      requires item !in items && item != end && IsTick(item.value)
      modifies this`count, item`container
      ensures SplicedIn(p, item)
    {
      item.container := this;
      count := count + 1;
    }

    lemma SplicedNext(p: nat, item: ListItem)
      requires SplicedIn(p, item)
      ensures var m := Insert(items, p, item);
              forall i {:trigger m[i].next} | 0 <= i < |m| :: m[i].next == if i + 1 < |m| then m[i + 1] else end
    {
      var m := Insert(items, p, item);
      forall i | 0 <= i < |m|
        ensures m[i].next == if i + 1 < |m| then m[i + 1] else end
      {
        if i != p {
          assert m[i] == items[if i < p then i else i - 1];
        }
      }
    }

    lemma SplicedPrevious(p: nat, item: ListItem)
      requires SplicedIn(p, item)
      ensures var m := Insert(items, p, item);
              forall i {:trigger m[i].previous} | 0 <= i < |m| :: m[i].previous == if i > 0 then m[i - 1] else end
    {
      var m := Insert(items, p, item);
      forall i | 0 <= i < |m|
        ensures m[i].previous == if i > 0 then m[i - 1] else end
      {
        if i != p {
          assert m[i] == items[if i < p then i else i - 1];
        }
      }
    }

    lemma SplicedMembers(p: nat, item: ListItem)
      requires SplicedIn(p, item)
      ensures var m := Insert(items, p, item);
              && NoDup(m) && end !in m
              && (forall i {:trigger m[i].value} | 0 <= i < |m| :: IsTick(m[i].value))
              && (forall i {:trigger m[i].container} | 0 <= i < |m| :: m[i].container == this)
    {
      InsertMembers(items, p, item);
    }

    /** Account for an item whose links are in place. */
    ghost method Adopt(item: ListItem, p: nat)
      requires SplicedIn(p, item)
      modifies this`items, this`position
      ensures Valid() && View() == InsertAt(old(View()), p, item)
    {
      SplicedNext(p, item);
      SplicedPrevious(p, item);
      SplicedMembers(p, item);
      position := if position > p then position + 1 else position;
      items := Insert(items, p, item);
    }

    /** Put item between two neighbouring nodes of the ring. */
    method InsertBetween(left: ListItem, right: ListItem, item: ListItem, ghost p: nat)
      requires Valid() && p <= |items| && left == At(p - 1) && right == At(p)
      requires item.container == null && item != end && IsTick(item.value)
      modifies this, end`next, end`previous, items`next, items`previous,
        item`next, item`previous, item`container
      ensures Valid() && View() == InsertAt(old(View()), p, item)
    {
      Link(left, right, item, p);
      Join(item, p);
      Adopt(item, p);
    }

    /** vListInsertEnd */
    method InsertEnd(item: ListItem)
      requires Valid() && item.container == null && item != end && IsTick(item.value)
      modifies this, end`next, end`previous, items`next, items`previous,
        item`next, item`previous, item`container
      ensures Valid() && View() == Rings.InsertEnd(old(View()), item)
    {
      InsertBetween(index.previous, index, item, EndPosition(View()));
    }

    /** The search loop of vListInsert: it stops at the end marker at the latest, because the marker's
        value is portMAX_DELAY and a new value of portMAX_DELAY takes the other branch. */
    method FindPlace(v: nat) returns (walker: ListItem, ghost p: nat)
      requires Valid() && IsTick(v)
      ensures p == FirstAbove(Values(), v) && walker == At(p - 1)
    {
      if v == MAX_DELAY {
        walker := end.previous;
        p := |items|;
      } else {
        walker := end;
        p := 0;
        while walker.next.value <= v
          invariant p <= |items| && walker == At(p - 1)
          invariant forall i | 0 <= i < p :: items[i].value <= v
          decreases |items| - p
        {
          walker := walker.next;
          p := p + 1;
        }
      }
      FirstAboveUnique(Values(), v, p);
    }

    /** vListInsert */
    method InsertSorted(item: ListItem)
      requires Valid() && item.container == null && item != end && IsTick(item.value)
      modifies this, end`next, end`previous, items`next, items`previous,
        item`next, item`previous, item`container
      ensures Valid() && View() == InsertAt(old(View()), FirstAbove(old(Values()), item.value), item)
    {
      var walker, p := FindPlace(item.value);
      InsertBetween(walker, walker.next, item, p);
    }

    /** The links after a removal: the nodes around items[p] are each other's neighbours. */
    ghost predicate LinksCut(p: nat)
      reads this, end, items
    {
      && end.next == At(if p == 0 then 1 else 0)
      && end.previous == At(if p == |items| - 1 then p - 1 else |items| - 1)
      && (forall i {:trigger items[i].next} | 0 <= i < |items| && i != p ::
            items[i].next == At(if i + 1 == p then i + 2 else i + 1))
      && (forall i {:trigger items[i].previous} | 0 <= i < |items| && i != p ::
            items[i].previous == At(if i == p + 1 then i - 2 else i - 1))
    }

    /** The state after the writes of uxListRemove; pxIndex has stepped back if it stood at items[p]. */
    ghost predicate CutOut(p: nat)
      reads this, end, items
    {
      && NoDup(items) && end !in items
      && p < |items| && count == |items| - 1
      && position <= |items| && index == At(if position == p + 1 then p - 1 else position - 1)
      && end.value == MAX_DELAY
      && (forall i {:trigger items[i].value} | 0 <= i < |items| :: IsTick(items[i].value))
      && (forall i {:trigger items[i].container} | 0 <= i < |items| && i != p :: items[i].container == this)
      && LinksCut(p)
    }

    /** The two link writes of uxListRemove, for a member known to be at items[p]. */
    method Bypass(item: ListItem, ghost p: nat)
      requires Valid() && p < |items| && items[p] == item
      modifies end`next, end`previous, items`next, items`previous
      ensures LinksCut(p) && item.previous == At(p - 1)
    {
      ghost var left, right := At(p - 1), At(p + 1);
      assert item.next == right && item.previous == left;
      assert forall i {:trigger items[i]} | 0 <= i < |items| ::
               (items[i] == left ==> i == p - 1) && (items[i] == right ==> i == p + 1);
      item.next.previous := item.previous;
      item.previous.next := item.next;
    }

    /** The other writes of uxListRemove: pxIndex, the container and the count. */
    method Leave(item: ListItem, ghost p: nat)
      requires Shaped() && count == |items| && p < |items| && items[p] == item && LinksCut(p)
      requires item.previous == At(p - 1)
      modifies this`index, this`count, item`container
      ensures CutOut(p) && item.container == null
    {
      if index == item {
        index := item.previous;
      }
      item.container := null;
      count := count - 1;
    }

    lemma CutNext(p: nat)
      requires CutOut(p)
      ensures var m := Without(items, p);
              forall i {:trigger m[i].next} | 0 <= i < |m| :: m[i].next == if i + 1 < |m| then m[i + 1] else end
    {
      var m := Without(items, p);
      forall i | 0 <= i < |m|
        ensures m[i].next == if i + 1 < |m| then m[i + 1] else end
      {
        assert m[i] == items[if i < p then i else i + 1];
      }
    }

    lemma CutPrevious(p: nat)
      requires CutOut(p)
      ensures var m := Without(items, p);
              forall i {:trigger m[i].previous} | 0 <= i < |m| :: m[i].previous == if i > 0 then m[i - 1] else end
    {
      var m := Without(items, p);
      forall i | 0 <= i < |m|
        ensures m[i].previous == if i > 0 then m[i - 1] else end
      {
        assert m[i] == items[if i < p then i else i + 1];
      }
    }

    lemma CutMembers(p: nat)
      requires CutOut(p)
      ensures var m := Without(items, p);
              && NoDup(m) && end !in m
              && (forall i {:trigger m[i].value} | 0 <= i < |m| :: IsTick(m[i].value))
              && (forall i {:trigger m[i].container} | 0 <= i < |m| :: m[i].container == this)
    {
      WithoutMembers(items, p);
    }

    lemma CutEnds(p: nat)
      requires CutOut(p)
      ensures var m := Without(items, p); var q := if position > p then position - 1 else position;
              && count == |m| && q <= |m| && end.value == MAX_DELAY
              && index == (if q > 0 then m[q - 1] else end)
              && end.next == (if m != [] then m[0] else end)
              && end.previous == (if m != [] then m[|m| - 1] else end)
    {
    }

    /** Account for a member whose links are gone. */
    ghost method Disown(p: nat)
      requires CutOut(p)
      modifies this`items, this`position
      ensures Valid() && View() == RemoveAt(old(View()), p)
    {
      var m := Without(items, p);
      CutNext(p);
      CutPrevious(p);
      CutMembers(p);
      CutEnds(p);
      items, position := m, if position > p then position - 1 else position;
      assert forall i :: At(i) == if 0 <= i < |m| then m[i] else end;
      assert Shaped();
    }

    /** listGET_OWNER_OF_NEXT_ENTRY */
    method NextOwner() returns (owner: nat)
      requires Valid() && items != []
      modifies this`index, this`position
      ensures Valid() && View() == Next(old(View()))
      ensures owner == Picked(View()).owner
      ensures owner == Rotation(old(View()))[0].owner
    {
      assert index.next == At(position);
      index := index.next;
      if index == end {
        index := index.next;
      }
      position := if position == |items| then 1 else position + 1;
      owner := index.owner;
    }

    /** listGET_OWNER_OF_HEAD_ENTRY */
    method HeadOwner() returns (owner: nat)
      requires Valid() && items != []
      ensures owner == items[0].owner
    {
      owner := end.next.owner;
    }
  }

  /** uxListRemove: the item itself says which list it is in. */
  method Remove(item: ListItem) returns (remaining: nat)
    requires item.container != null && item.container.Valid() && item in item.container.items
    modifies item.container, item.container.end`next, item.container.end`previous,
      item.container.items`next, item.container.items`previous, item`container
    ensures item.container == null
    ensures var list := old(item.container);
            list.Valid() && list.View() == Rings.Remove(old(list.View()), item)
            && remaining == |list.items|
  {
    var list := item.container;
    ghost var p := Find(list.items, item);
    list.Bypass(item, p);
    list.Leave(item, p);
    list.Disown(p);
    remaining := list.count;
  }

  /** Unlinking the item that was linked in last leaves the ring as it was before, pxIndex included:
      the view and Valid() together fix every link of the list. */
  method RemoveInserted(list: List, item: ListItem, ghost before: Ring<ListItem>, ghost p: nat)
    requires list.Valid() && item.container == list
    requires Ok(before) && p <= |before.items| && item !in before.items
    requires list.View() == InsertAt(before, p, item)
    modifies list, list.end`next, list.end`previous, list.items`next, list.items`previous, item`container
    ensures list.Valid() && list.View() == before && item.container == null
  {
    InsertThenRemove(before, p, item);
    var _ := Remove(item);
  }
}

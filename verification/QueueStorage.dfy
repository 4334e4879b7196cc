/** The queue object of queue.c: items copied byte by byte into a fixed buffer through two wrapping byte
    offsets, the lock counts and the two lists of waiting tasks. The buffer is proved to be a bounded
    double-ended queue, and each critical section to take the step of module QueueProtocol. */
module QueueStorage {
  import P = QueueProtocol

  type Bytes = seq<bv8>

  /** xCopyPosition */
  datatype Position = Back | Front | Overwrite

  // ---- the arithmetic of slots --------------------------------------------------------------

  lemma MulMonotonic(a: nat, b: nat, c: nat)
    requires a <= b
    ensures a * c <= b * c
  {
  }

  /** Two slots of the buffer do not overlap, and each lies inside it. */
  lemma SlotsApart(i: nat, j: nat, length: nat, size: nat)
    requires i < j < length
    ensures i * size + size <= j * size && j * size + size <= length * size
  {
    MulMonotonic(i + 1, j, size);
    MulMonotonic(j + 1, length, size);
    assert (i + 1) * size == i * size + size && (j + 1) * size == j * size + size;
  }

  lemma SlotInside(i: nat, length: nat, size: nat)
    requires i < length
    ensures 0 <= i * size && i * size + size == (i + 1) * size <= length * size
  {
    MulMonotonic(i + 1, length, size);
    assert (i + 1) * size == i * size + size;
  }

  /** The k-th slot after r in a ring of the given length. */
  function SlotAfter(r: nat, k: nat, length: nat): (s: nat)
    requires r < length && k <= length + 1
    ensures s < length
  {
    if r + k >= 2 * length then r + k - 2 * length
    else if r + k >= length then r + k - length
    else r + k
  }

  function SlotOf(bytes: Bytes, k: nat, length: nat, size: nat): (r: Bytes)
    requires |bytes| == length * size && k < length
    ensures |r| == size
  {
    SlotInside(k, length, size);
    bytes[k * size..k * size + size]
  }

  /** The items in a buffer whose last read slot is r. */
  function ItemsOf(bytes: Bytes, r: nat, messages: nat, length: nat, size: nat): (items: seq<Bytes>)
    requires |bytes| == length * size && r < length && messages <= length
    ensures |items| == messages
  {
    seq(messages, i requires 0 <= i < messages => SlotOf(bytes, SlotAfter(r, i + 1, length), length, size))
  }

  /** The buffer after one slot has been written. */
  predicate Written(before: Bytes, after: Bytes, k: nat, length: nat, size: nat, item: Bytes)
    requires |before| == |after| == length * size && k < length
  {
    && SlotOf(after, k, length, size) == item
    && forall j: nat {:trigger SlotOf(after, j, length, size)} | j < length && j != k ::
         SlotOf(after, j, length, size) == SlotOf(before, j, length, size)
  }

  lemma WrittenAtBack(before: Bytes, after: Bytes, r: nat, m: nat, length: nat, size: nat, item: Bytes)
    requires |before| == |after| == length * size && r < length && m < length
    requires Written(before, after, SlotAfter(r, m + 1, length), length, size, item)
    ensures ItemsOf(after, r, m + 1, length, size) == ItemsOf(before, r, m, length, size) + [item]
  {
  }

  lemma WrittenAtFront(before: Bytes, after: Bytes, r: nat, m: nat, length: nat, size: nat, item: Bytes)
    requires |before| == |after| == length * size && r < length && m < length
    requires Written(before, after, r, length, size, item)
    ensures ItemsOf(after, if r == 0 then length - 1 else r - 1, m + 1, length, size)
         == [item] + ItemsOf(before, r, m, length, size)
  {
  }

  lemma WrittenInFront(before: Bytes, after: Bytes, r: nat, m: nat, length: nat, size: nat, item: Bytes)
    requires |before| == |after| == length * size && r < length && m <= length
             && Written(before, after, r, length, size, item)
    ensures m < length ==>
              ItemsOf(after, if r == 0 then length - 1 else r - 1, m + 1, length, size)
              == [item] + ItemsOf(before, r, m, length, size)
    ensures length == 1 ==> ItemsOf(after, 0, 1, length, size) == [item]
  {
    if m < length {
      WrittenAtFront(before, after, r, m, length, size, item);
    }
  }

  lemma ReadAtFront(bytes: Bytes, r: nat, m: nat, length: nat, size: nat)
    requires |bytes| == length * size && r < length && 0 < m <= length
    ensures var next := SlotAfter(r, 1, length);
            ItemsOf(bytes, r, m, length, size)
            == [SlotOf(bytes, next, length, size)] + ItemsOf(bytes, next, m - 1, length, size)
  {
  }

  /** Items without bytes: the contents of a semaphore are its count. */
  lemma EmptyItems(bytes: Bytes, r: nat, m: nat, length: nat, item: Bytes)
    requires bytes == [] && r < length && m < length && item == []
    ensures ItemsOf(bytes, r, m + 1, length, 0) == ItemsOf(bytes, r, m, length, 0) + [item]
    ensures ItemsOf(bytes, r, m + 1, length, 0) == [item] + ItemsOf(bytes, r, m, length, 0)
  {
  }

  /** Stepping an offset on or back by one slot wraps exactly at the ends of the buffer. */
  lemma StepOffset(k: nat, length: nat, size: nat)
    requires k < length && size > 0
    ensures k * size + size >= length * size <==> k + 1 == length
    ensures k * size < size <==> k == 0
    ensures (k + 1) * size == k * size + size && (length - 1) * size == length * size - size
    ensures k > 0 ==> (k - 1) * size == k * size - size
  {
    MulMonotonic(k + 1, length, size);
    assert (k + 1) * size == k * size + size;
    if k + 1 < length {
      MulMonotonic(k + 2, length, size);
      assert (k + 2) * size == k * size + 2 * size;
    }
    if k > 0 {
      MulMonotonic(1, k, size);
    }
  }

  // ---- the order in which items are received --------------------------------------------------

  datatype Call = Send(item: Bytes, position: Position) | Receive

  /** The contents after one call that succeeds; overwriting is for queues of one place. */
  function After(items: seq<Bytes>, c: Call): seq<Bytes>
    requires c.Receive? ==> items != []
  {
    match c
    case Send(item, Back) => items + [item]
    case Send(item, Front) => [item] + items
    case Send(item, Overwrite) => [item]
    case Receive => items[1..]
  }

  /** Any number of senders and receivers, none of whom finds the queue empty or overwrites it. */
  predicate Possible(items: seq<Bytes>, calls: seq<Call>)
    decreases |calls|
  {
    calls == [] ||
    ((if calls[0].Receive? then items != [] else !calls[0].position.Overwrite?)
     && Possible(After(items, calls[0]), calls[1..]))
  }

  function Contents(items: seq<Bytes>, calls: seq<Call>): seq<Bytes>
    requires Possible(items, calls)
    decreases |calls|
  {
    if calls == [] then items else Contents(After(items, calls[0]), calls[1..])
  }

  /** What the calls to receive return. */
  function Received(items: seq<Bytes>, calls: seq<Call>): seq<Bytes>
    requires Possible(items, calls)
    decreases |calls|
  {
    if calls == [] then []
    else (if calls[0].Receive? then [items[0]] else []) + Received(After(items, calls[0]), calls[1..])
  }

  function SentBehind(calls: seq<Call>): seq<Bytes> {
    if calls == [] then []
    else (if calls[0].Send? && calls[0].position.Back? then [calls[0].item] else []) + SentBehind(calls[1..])
  }

  /** How many items sent to the front are there after a call, if there were so many before. */
  function UrgentAfter(urgent: nat, c: Call): nat {
    if c.Send? then (if c.position.Front? then urgent + 1 else urgent) else if urgent > 0 then urgent - 1 else 0
  }

  function UrgentLeft(urgent: nat, calls: seq<Call>): nat
    decreases |calls|
  {
    if calls == [] then urgent else UrgentLeft(UrgentAfter(urgent, calls[0]), calls[1..])
  }

  /** What is received while no item sent to the front is there, urgent of them being there at the outset. */
  function OrdinaryReceived(urgent: nat, items: seq<Bytes>, calls: seq<Call>): seq<Bytes>
    requires Possible(items, calls)
    decreases |calls|
  {
    if calls == [] then [] else
      (if calls[0].Receive? && urgent == 0 then [items[0]] else [])
      + OrdinaryReceived(UrgentAfter(urgent, calls[0]), After(items, calls[0]), calls[1..])
  }

  lemma OneCall(urgent: nat, items: seq<Bytes>, c: Call)
    requires urgent <= |items| && (if c.Receive? then items != [] else !c.position.Overwrite?)
    ensures UrgentAfter(urgent, c) <= |After(items, c)|
    ensures (if c.Receive? && urgent == 0 then [items[0]] else []) + After(items, c)[UrgentAfter(urgent, c)..]
            == items[urgent..] + (if c.Send? && c.position.Back? then [c.item] else [])
  {
  }

  lemma Regroup(a: seq<Bytes>, b: seq<Bytes>, c: seq<Bytes>, d: seq<Bytes>, e: seq<Bytes>, f: seq<Bytes>, g: seq<Bytes>)
    requires b + c == d + e && a + d == f + g
    ensures (a + b) + c == f + (g + e)
  {
    assert (a + b) + c == a + (b + c);
    assert a + (d + e) == (a + d) + e;
    assert (f + g) + e == f + (g + e);
  }

  /** First in, first out: whatever is sent to the front meanwhile, the items sent to the back are received in the
      order in which they were sent, behind those that were there, and the rest of them is what is left. */
  lemma {:induction false} FirstInFirstOut(urgent: nat, items: seq<Bytes>, calls: seq<Call>)
    requires urgent <= |items| && Possible(items, calls)
    ensures UrgentLeft(urgent, calls) <= |Contents(items, calls)|
    ensures OrdinaryReceived(urgent, items, calls) + Contents(items, calls)[UrgentLeft(urgent, calls)..]
            == items[urgent..] + SentBehind(calls)
    decreases |calls|
  {
    hide After, UrgentAfter;
    if calls != [] {
      var c, rest := calls[0], calls[1..];
      var next, after := UrgentAfter(urgent, c), After(items, c);
      OneCall(urgent, items, c);
      FirstInFirstOut(next, after, rest);
      Regroup(if c.Receive? && urgent == 0 then [items[0]] else [], OrdinaryReceived(next, after, rest),
              Contents(after, rest)[UrgentLeft(next, rest)..], after[next..], SentBehind(rest),
              items[urgent..], if c.Send? && c.position.Back? then [c.item] else []);
    }
  }

  /** Without sends to the front, what is received and what is left are what was there and what was sent, in order. */
  lemma ReceivedInOrder(items: seq<Bytes>, calls: seq<Call>)
    requires Possible(items, calls) && forall c | c in calls && c.Send? :: c.position.Back?
    ensures Received(items, calls) + Contents(items, calls) == items + SentBehind(calls)
  {
    FirstInFirstOut(0, items, calls);
    AllOrdinary(items, calls);
  }

  lemma {:induction false} AllOrdinary(items: seq<Bytes>, calls: seq<Call>)
    requires Possible(items, calls) && forall c | c in calls && c.Send? :: c.position.Back?
    ensures OrdinaryReceived(0, items, calls) == Received(items, calls) && UrgentLeft(0, calls) == 0
    decreases |calls|
  {
    hide After;
    if calls != [] {
      assert calls[0] in calls;
      AllOrdinary(After(items, calls[0]), calls[1..]);
    }
  }

  /** Last in, first out: an item sent to the front is received next, and then the contents are as before. */
  lemma FrontIsNext(items: seq<Bytes>, item: Bytes)
    ensures var calls := [Send(item, Front), Receive];
            Possible(items, calls) && Received(items, calls) == [item] && Contents(items, calls) == items
  {
    var calls := [Send(item, Front), Receive];
    assert calls[1..] == [Receive] && [Receive][1..] == [];
    assert Possible([item] + items, [Receive]);
  }

  class Queue {
    const length: nat
    const itemSize: nat
    const storage: array<bv8>
    var messages: nat
    var writeTo: nat
    var readFrom: nat
    var rxLock: int
    var txLock: int
    var waitingToSend: seq<P.Task>
    var waitingToReceive: seq<P.Task>
    ghost var readSlot: nat
    ghost var wokenSenders: set<P.Task>
    ghost var wokenReceivers: set<P.Task>

    ghost predicate Valid()
      reads this
    {
      && length > 0 && storage.Length == length * itemSize
      && messages <= length && readSlot < length
      && readFrom == readSlot * itemSize
      && (itemSize > 0 ==> writeTo == SlotAfter(readSlot, messages + 1, length) * itemSize)
    }

    /** The abstract contents, front first. */
    ghost function Items(): (items: seq<Bytes>)
      requires Valid()
      reads this, storage
      ensures |items| == messages
    {
      ItemsOf(storage[..], readSlot, messages, length, itemSize)
    }

    /** The contents stay within the length when an item is put at the position. */
    predicate Fits(messages: nat, position: Position)
      reads this
    {
      messages < length || (position == Overwrite && P.OverwriteFits(length, itemSize, messages))
    }

    ghost function DataSide(): P.Side
      reads this
    {
      P.Side(waitingToReceive, wokenReceivers, txLock)
    }

    ghost function SpaceSide(): P.Side
      reads this
    {
      P.Side(waitingToSend, wokenSenders, rxLock)
    }

    /** xQueueGenericCreate: the storage is allocated and the queue reset. */
    constructor (length: nat, itemSize: nat)
      requires length > 0
      ensures Valid() && this.length == length && this.itemSize == itemSize && fresh(storage)
      ensures Items() == [] && DataSide() == P.Side([], {}, P.UNLOCKED) == SpaceSide()
    {
      this.length, this.itemSize := length, itemSize;
      storage := new bv8[length * itemSize];
      messages, writeTo, readFrom, readSlot := 0, 0, (length - 1) * itemSize, length - 1;
      rxLock, txLock := P.UNLOCKED, P.UNLOCKED;
      waitingToSend, waitingToReceive, wokenSenders, wokenReceivers := [], [], {}, {};
    }

    /** memcpy of one item into the slot that starts at offset. */
    method CopyIn(offset: nat, item: Bytes, ghost k: nat)
      requires Valid() && k < length && offset == k * itemSize && |item| == itemSize
      modifies storage
      ensures Written(old(storage[..]), storage[..], k, length, itemSize, item)
    {
      SlotInside(k, length, itemSize);
      var i := 0;
      while i < itemSize
        invariant i <= itemSize
        invariant storage[offset..offset + i] == item[..i]
        invariant forall b | 0 <= b < storage.Length && !(offset <= b < offset + itemSize) ::
                    storage[b] == old(storage[b])
      {
        storage[offset + i] := item[i];
        i := i + 1;
      }
      assert item[..itemSize] == item;
      forall j: nat | j < length && j != k
        ensures SlotOf(storage[..], j, length, itemSize) == SlotOf(old(storage[..]), j, length, itemSize)
      {
        SlotsApart(if j < k then j else k, if j < k then k else j, length, itemSize);
        SlotInside(j, length, itemSize);
      }
    }

    /** The queueSEND_TO_BACK branch of prvCopyDataToQueue, up to the count. */
    method CopyToBack(item: Bytes)
      requires Valid() && |item| == itemSize && itemSize > 0 && messages < length
      modifies storage, `writeTo
      ensures writeTo == SlotAfter(readSlot, messages + 2, length) * itemSize
      ensures ItemsOf(storage[..], readSlot, messages + 1, length, itemSize) == old(Items()) + [item]
    {
      ghost var k := SlotAfter(readSlot, messages + 1, length);
      StepOffset(k, length, itemSize);
      CopyIn(writeTo, item, k);
      WrittenAtBack(old(storage[..]), storage[..], readSlot, messages, length, itemSize, item);
      writeTo := writeTo + itemSize;
      if writeTo >= length * itemSize {
        writeTo := 0;
      }
    }

    /** The other branch of prvCopyDataToQueue: the item goes where the next read would have come before. */
    method CopyToFront(item: Bytes, position: Position)
      requires Valid() && |item| == itemSize && itemSize > 0
      modifies storage, `readFrom, `readSlot
      ensures readSlot == (if old(readSlot) == 0 then length - 1 else old(readSlot) - 1)
      ensures readFrom == readSlot * itemSize
      ensures messages < length ==>
                ItemsOf(storage[..], readSlot, messages + 1, length, itemSize) == [item] + old(Items())
      ensures length == 1 ==> ItemsOf(storage[..], readSlot, 1, length, itemSize) == [item]
    {
      StepOffset(readSlot, length, itemSize);
      CopyIn(readFrom, item, readSlot);
      WrittenInFront(old(storage[..]), storage[..], readSlot, messages, length, itemSize, item);
      if readFrom < itemSize {
        readFrom := length * itemSize - itemSize;
      } else {
        readFrom := readFrom - itemSize;
      }
      readSlot := if readSlot == 0 then length - 1 else readSlot - 1;
    }

    /** prvCopyDataToQueue, for a queue that is not a mutex. Overwriting an item of no bytes adds to the count. */
    method CopyDataToQueue(item: Bytes, position: Position)
      requires Valid() && |item| == itemSize
      requires messages < length || position == Overwrite
      requires position == Overwrite ==> length == 1
      modifies storage, `messages, `writeTo, `readFrom, `readSlot
      ensures Valid() <==> Fits(old(messages), position)
      ensures Valid() && position == Back ==> Items() == old(Items()) + [item]
      ensures Valid() && position == Front ==> Items() == [item] + old(Items())
      ensures Valid() && position == Overwrite ==> Items() == [item]
      ensures messages == if position == Overwrite then P.Overwritten(itemSize, old(messages)) else old(messages) + 1
    {
      hide ItemsOf;
      var count := messages;
      if itemSize == 0 {
        if messages < length {
          EmptyItems(storage[..], readSlot, messages, length, item);
        }
      } else if position == Back {
        CopyToBack(item);
      } else {
        CopyToFront(item, position);
        if position == Overwrite && count > 0 {
          count := count - 1;
        }
      }
      messages := count + 1;
    }

    /** prvCopyDataFromQueue: step readFrom on and copy the item there into the caller's buffer. */
    method CopyDataFromQueue() returns (item: Bytes)
      requires Valid() && messages > 0
      modifies `readFrom, `readSlot
      ensures item == old(Items())[0] && |item| == itemSize
      ensures itemSize > 0 ==> readSlot == SlotAfter(old(readSlot), 1, length)
      ensures itemSize == 0 ==> readSlot == old(readSlot)
      ensures readFrom == readSlot * itemSize
      ensures ItemsOf(storage[..], readSlot, messages - 1, length, itemSize) == old(Items())[1..]
    {
      ReadAtFront(storage[..], readSlot, messages, length, itemSize);
      if itemSize != 0 {
        StepOffset(readSlot, length, itemSize);
        readFrom := readFrom + itemSize;
        if readFrom >= length * itemSize {
          readFrom := 0;
        }
        readSlot := SlotAfter(readSlot, 1, length);
        item := CopyOut(readFrom, readSlot);
      } else {
        EmptyItems(storage[..], readSlot, messages - 1, length, []);
        item := [];
      }
    }

    /** memcpy of the slot that starts at offset into the caller's buffer. */
    method CopyOut(offset: nat, ghost k: nat) returns (item: Bytes)
      requires length > 0 && storage.Length == length * itemSize && k < length && offset == k * itemSize
      ensures item == SlotOf(storage[..], k, length, itemSize)
    {
      SlotInside(k, length, itemSize);
      item := [];
      while |item| < itemSize
        invariant |item| <= itemSize && item == storage[offset..offset + |item|]
        decreases itemSize - |item|
      {
        item := item + [storage[offset + |item|]];
      }
    }

    /** xQueueGenericReset on an existing queue: the contents go, one waiting sender is woken. */
    method Reset()
      requires Valid()
      modifies this
      ensures Valid() && Items() == []
      ensures DataSide() == old(DataSide()).(lock := P.UNLOCKED)
      ensures SpaceSide() == P.Signal(old(SpaceSide()).(lock := P.UNLOCKED))
    {
      messages := 0;
      writeTo := 0;
      readFrom := (length - 1) * itemSize;
      readSlot := length - 1;
      rxLock := P.UNLOCKED;
      txLock := P.UNLOCKED;
      WakeSender();
    }

    /** xTaskRemoveFromEventList on xTasksWaitingToReceive, when it is not empty */
    method WakeReceiver()
      modifies `waitingToReceive, `wokenReceivers
      ensures DataSide() == P.Signal(old(DataSide()))
      ensures old(waitingToReceive) != [] ==>
                old(waitingToReceive) == [old(waitingToReceive)[0]] + waitingToReceive
                && wokenReceivers == old(wokenReceivers) + {old(waitingToReceive)[0]}
      ensures old(waitingToReceive) == [] ==> waitingToReceive == [] && wokenReceivers == old(wokenReceivers)
    {
      if waitingToReceive != [] {
        wokenReceivers := wokenReceivers + {waitingToReceive[0]};
        waitingToReceive := waitingToReceive[1..];
      }
    }

    /** xTaskRemoveFromEventList on xTasksWaitingToSend, when it is not empty */
    method WakeSender()
      modifies `waitingToSend, `wokenSenders
      ensures SpaceSide() == P.Signal(old(SpaceSide()))
      ensures old(waitingToSend) != [] ==>
                old(waitingToSend) == [old(waitingToSend)[0]] + waitingToSend
                && wokenSenders == old(wokenSenders) + {old(waitingToSend)[0]}
      ensures old(waitingToSend) == [] ==> waitingToSend == [] && wokenSenders == old(wokenSenders)
    {
      if waitingToSend != [] {
        wokenSenders := wokenSenders + {waitingToSend[0]};
        waitingToSend := waitingToSend[1..];
      }
    }

    // ---- the critical sections --------------------------------------------------------------

    /** The critical section of xQueueGenericSend by task t. */
    method TrySend(t: P.Task, item: Bytes, position: Position) returns (sent: bool)
      requires Valid() && |item| == itemSize && (position == Overwrite ==> length == 1)
      modifies this, storage
      ensures sent == (old(messages) < length || position == Overwrite)
      ensures Valid() <==> (sent ==> Fits(old(messages), position))
      ensures !sent ==> Items() == old(Items())
      ensures Valid() && sent && position == Back ==> Items() == old(Items()) + [item]
      ensures Valid() && sent && position == Front ==> Items() == [item] + old(Items())
      ensures Valid() && sent && position == Overwrite ==> Items() == [item]
      ensures Valid() && sent ==> Items() == After(old(Items()), Send(item, position))
      ensures messages == if !sent then old(messages)
                          else if position == Overwrite then P.Overwritten(itemSize, old(messages))
                          else old(messages) + 1
      ensures SpaceSide() == P.Recheck(old(SpaceSide()), t)
      ensures DataSide() == if sent then P.Signal(old(DataSide())) else old(DataSide())
    {
      hide ItemsOf;
      wokenSenders := wokenSenders - {t};
      sent := messages < length || position == Overwrite;
      if sent {
        CopyDataToQueue(item, position);
        WakeReceiver();
      }
    }

    /** The critical section of xQueueReceive and xQueueSemaphoreTake by task t. */
    method TryReceive(t: P.Task) returns (received: bool, item: Bytes)
      requires Valid()
      modifies `messages, `readFrom, `readSlot, `wokenReceivers, `waitingToSend, `wokenSenders
      ensures Valid() && received == (old(Items()) != [])
      ensures received ==> [item] + Items() == old(Items()) && Items() == After(old(Items()), Receive)
      ensures !received ==> Items() == old(Items())
      ensures DataSide() == P.Recheck(old(DataSide()), t)
      ensures SpaceSide() == if received then P.Signal(old(SpaceSide())) else old(SpaceSide())
    {
      hide ItemsOf;
      wokenReceivers := wokenReceivers - {t};
      item := [];
      received := messages > 0;
      if received {
        item := CopyDataFromQueue();
        messages := messages - 1;
        WakeSender();
      }
    }

    /** The critical section of xQueuePeek by task t: the item stays, and the next waiting task is woken for it. */
    method TryPeek(t: P.Task) returns (peeked: bool, item: Bytes)
      requires Valid()
      modifies `readFrom, `readSlot, `waitingToReceive, `wokenReceivers
      ensures Valid() && Items() == old(Items()) && peeked == (old(Items()) != [])
      ensures peeked ==> item == old(Items())[0]
      ensures DataSide() == if peeked then P.Signal(P.Recheck(old(DataSide()), t)) else P.Recheck(old(DataSide()), t)
    {
      hide ItemsOf;
      wokenReceivers := wokenReceivers - {t};
      item := [];
      peeked := messages > 0;
      if peeked {
        var originalReadPosition := readFrom;
        ghost var originalSlot := readSlot;
        item := CopyDataFromQueue();
        readFrom := originalReadPosition;
        readSlot := originalSlot;
        WakeReceiver();
      }
    }

    /** xQueueGenericSendFromISR */
    method SendFromIsr(item: Bytes, position: Position) returns (sent: bool)
      requires Valid() && |item| == itemSize && (position == Overwrite ==> length == 1)
      modifies this, storage
      ensures sent == (old(messages) < length || position == Overwrite)
      ensures Valid() <==> (sent ==> Fits(old(messages), position))
      ensures !sent ==> Items() == old(Items())
      ensures Valid() && sent && position == Back ==> Items() == old(Items()) + [item]
      ensures Valid() && sent && position == Front ==> Items() == [item] + old(Items())
      ensures Valid() && sent && position == Overwrite ==> Items() == [item]
      ensures Valid() && sent ==> Items() == After(old(Items()), Send(item, position))
      ensures messages == if !sent then old(messages)
                          else if position == Overwrite then P.Overwritten(itemSize, old(messages))
                          else old(messages) + 1
      ensures DataSide() == if sent then P.IsrSignal(old(DataSide())) else old(DataSide())
      ensures SpaceSide() == old(SpaceSide())
    {
      hide ItemsOf;
      sent := messages < length || position == Overwrite;
      if sent {
        CopyDataToQueue(item, position);
        if txLock == P.UNLOCKED {
          WakeReceiver();
        } else {
          txLock := P.Int8(txLock + 1);
        }
      }
    }

    /** xQueueReceiveFromISR */
    method ReceiveFromIsr() returns (received: bool, item: Bytes)
      requires Valid()
      modifies `messages, `readFrom, `readSlot, `rxLock, `waitingToSend, `wokenSenders
      ensures Valid() && received == (old(Items()) != [])
      ensures received ==> [item] + Items() == old(Items()) && Items() == After(old(Items()), Receive)
      ensures !received ==> Items() == old(Items())
      ensures SpaceSide() == if received then P.IsrSignal(old(SpaceSide())) else old(SpaceSide())
    {
      hide ItemsOf;
      item := [];
      received := messages > 0;
      if received {
        item := CopyDataFromQueue();
        messages := messages - 1;
        if rxLock == P.UNLOCKED {
          WakeSender();
        } else {
          rxLock := P.Int8(rxLock + 1);
        }
      }
    }

    /** prvLockQueue */
    method LockQueue()
      modifies `rxLock, `txLock
      ensures DataSide() == P.LockSide(old(DataSide())) && SpaceSide() == P.LockSide(old(SpaceSide()))
      ensures rxLock == (if old(rxLock) == -1 then 0 else old(rxLock))
      ensures txLock == (if old(txLock) == -1 then 0 else old(txLock))
    {
      if rxLock == P.UNLOCKED {
        rxLock := 0;
      }
      if txLock == P.UNLOCKED {
        txLock := 0;
      }
    }

    /** The first critical section of prvUnlockQueue. */
    method UnlockTx()
      modifies `txLock, `waitingToReceive, `wokenReceivers
      ensures DataSide() == P.Unlock(old(DataSide()))
    {
      var lock := txLock;
      while lock > 0
        invariant P.Unlock(DataSide().(lock := lock)) == P.Unlock(old(DataSide()))
      {
        if waitingToReceive == [] {
          break;
        }
        WakeReceiver();
        lock := lock - 1;
      }
      txLock := P.UNLOCKED;
    }

    /** The second critical section of prvUnlockQueue. */
    method UnlockRx()
      modifies `rxLock, `waitingToSend, `wokenSenders
      ensures SpaceSide() == P.Unlock(old(SpaceSide()))
    {
      var lock := rxLock;
      while lock > 0
        invariant P.Unlock(SpaceSide().(lock := lock)) == P.Unlock(old(SpaceSide()))
      {
        if waitingToSend == [] {
          break;
        }
        WakeSender();
        lock := lock - 1;
      }
      rxLock := P.UNLOCKED;
    }
  }
}

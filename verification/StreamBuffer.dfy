/** Stream and message buffers: a ring of bytes with a head that only the writer moves and a tail that only the
    reader moves, copied in at most two pieces; messages carry their length in front. */
module StreamBuffer {
  type Byte = x: nat | x < 256

  // ---- the ring as a value -------------------------------------------------------------------

  /** The number of bytes from tail to head in a ring of the given length. */
  function Distance(head: nat, tail: nat, length: nat): nat {
    if head >= tail then head - tail else if length + head >= tail then length + head - tail else 0
  }

  /** An index that has been stepped on by less than the length. */
  function Around(i: nat, length: nat): (r: nat)
    ensures i < length ==> r == i
    ensures length <= i < 2 * length ==> r == i - length
  {
    if i >= length then i - length else i
  }

  function ContentsOf(bytes: seq<Byte>, head: nat, tail: nat): (r: seq<Byte>)
    requires head < |bytes| && tail < |bytes|
    ensures |r| == Distance(head, tail, |bytes|) < |bytes|
  {
    var count := Distance(head, tail, |bytes|);
    seq(count, i requires 0 <= i < count => bytes[Around(tail + i, |bytes|)])
  }

  /** The bytes after the ones at head have been written: the contents grow at the back. */
  lemma WrittenContents(before: seq<Byte>, after: seq<Byte>, head: nat, tail: nat, data: seq<Byte>)
    requires |before| == |after| && head < |before| && tail < |before|
    requires |data| + Distance(head, tail, |before|) < |before|
    requires forall i | 0 <= i < |before| ::
               after[i] == if head <= i < head + |data| then data[i - head]
                           else if i + |before| < head + |data| then data[i + |before| - head]
                           else before[i]
    ensures ContentsOf(after, Around(head + |data|, |after|), tail) == ContentsOf(before, head, tail) + data
  {
    var l, r := ContentsOf(after, Around(head + |data|, |after|), tail), ContentsOf(before, head, tail) + data;
    assert |l| == |r|;
    forall k | 0 <= k < |l|
      ensures l[k] == r[k]
    {
      assert l[k] == after[Around(tail + k, |after|)];
    }
  }

  /** The bytes taken from the tail are the front of the contents. */
  lemma TakenContents(bytes: seq<Byte>, head: nat, tail: nat, count: nat, data: seq<Byte>)
    requires head < |bytes| && tail < |bytes| && count <= Distance(head, tail, |bytes|)
    requires |data| == count && forall i | 0 <= i < count :: data[i] == bytes[Around(tail + i, |bytes|)]
    ensures data + ContentsOf(bytes, head, Around(tail + count, |bytes|)) == ContentsOf(bytes, head, tail)
  {
    var l, r := data + ContentsOf(bytes, head, Around(tail + count, |bytes|)), ContentsOf(bytes, head, tail);
    assert |l| == |r|;
    forall k | 0 <= k < |l|
      ensures l[k] == r[k]
    {
      assert r[k] == bytes[Around(tail + k, |bytes|)];
      if k >= count {
        assert l[k] == bytes[Around(Around(tail + count, |bytes|) + (k - count), |bytes|)];
      }
    }
  }

  // ---- framing of messages --------------------------------------------------------------------

  /** sbBYTES_TO_STORE_MESSAGE_LENGTH: a size_t is four bytes, least significant first. */
  const LENGTH_BYTES: nat := 4
  const SIZE_LIMIT: nat := 0x1_0000_0000

  /** xRequiredSpace for a message: a size_t, so the sum wraps. */
  function RequiredSpace(length: nat): nat {
    (length + LENGTH_BYTES) % SIZE_LIMIT
  }

  /** The sum has not wrapped, or there is not even that much space. */
  predicate SpaceCheckHolds(length: nat, space: nat) {
    length + LENGTH_BYTES < SIZE_LIMIT || RequiredSpace(length) > space
  }

  /** The space check finds out whether a message and its length fit exactly when the sum has not wrapped, or
      there is less space than the wrapped sum. */
  lemma SpaceCheckIsRightWhen(length: nat, space: nat)
    requires length < SIZE_LIMIT && space < SIZE_LIMIT
    ensures (RequiredSpace(length) <= space <==> length + LENGTH_BYTES <= space) <==> SpaceCheckHolds(length, space)
  {
    if length + LENGTH_BYTES >= SIZE_LIMIT {
      assert length + LENGTH_BYTES == SIZE_LIMIT + (length + LENGTH_BYTES - SIZE_LIMIT);
    }
  }

  /** A message of the largest size there is passes the check of a buffer with three bytes of space. */
  lemma HugeMessagePassesCheck()
    ensures var length, space := SIZE_LIMIT - 1, 3;
            RequiredSpace(length) <= space < length && !SpaceCheckHolds(length, space)
  {
  }

  function EncodeLength(n: nat): (r: seq<Byte>)
    requires n < SIZE_LIMIT
    ensures |r| == LENGTH_BYTES
  {
    var n1 := n / 256;
    var n2 := n1 / 256;
    var n3 := n2 / 256;
    [n % 256, n1 % 256, n2 % 256, n3 % 256]
  }

  function DecodeLength(s: seq<Byte>): nat
    requires |s| == LENGTH_BYTES
  {
    var n3: nat := s[3];
    var n2: nat := s[2] as int + 256 * n3;
    var n1: nat := s[1] as int + 256 * n2;
    s[0] as int + 256 * n1
  }

  lemma DecodeEncode(n: nat)
    requires n < SIZE_LIMIT
    ensures DecodeLength(EncodeLength(n)) == n
  {
  }

  function Frame(m: seq<Byte>): seq<Byte>
    requires |m| < SIZE_LIMIT
  {
    EncodeLength(|m|) + m
  }

  predicate MessagesOk(ms: seq<seq<Byte>>) {
    forall m | m in ms :: 0 < |m| < SIZE_LIMIT
  }

  function Frames(ms: seq<seq<Byte>>): (r: seq<Byte>)
    requires MessagesOk(ms)
  {
    if ms == [] then [] else Frame(ms[0]) + Frames(ms[1..])
  }

  lemma {:induction false} FramesAppend(ms: seq<seq<Byte>>, m: seq<Byte>)
    requires MessagesOk(ms) && 0 < |m| < SIZE_LIMIT
    ensures MessagesOk(ms + [m]) && Frames(ms + [m]) == Frames(ms) + Frame(m)
  {
    if ms == [] {
      assert [m][1..] == [];
      assert Frames([m]) == Frame(m) + Frames([]);
    } else {
      assert (ms + [m])[1..] == ms[1..] + [m];
      FramesAppend(ms[1..], m);
    }
  }

  /** Only whole messages are in a buffer that holds more than a length: its first bytes are the first frame. */
  lemma FirstFrame(ms: seq<seq<Byte>>)
    requires MessagesOk(ms) && ms != []
    ensures |Frames(ms)| > LENGTH_BYTES && Frames(ms)[..LENGTH_BYTES] == EncodeLength(|ms[0]|)
    ensures Frames(ms)[LENGTH_BYTES..] == ms[0] + Frames(ms[1..])
    ensures MessagesOk(ms[1..])
  {
    SplitAt(EncodeLength(|ms[0]|), ms[0], Frames(ms[1..]));
  }

  lemma SplitAt(a: seq<Byte>, b: seq<Byte>, c: seq<Byte>)
    ensures ((a + b) + c)[..|a|] == a && ((a + b) + c)[|a|..] == b + c
  {
  }

  /** The sequence of messages is determined by the bytes. */
  lemma {:induction false} FramesInjective(a: seq<seq<Byte>>, b: seq<seq<Byte>>)
    requires MessagesOk(a) && MessagesOk(b) && Frames(a) == Frames(b)
    ensures a == b
  {
    if a != [] {
      FirstFrame(a);
      if b == [] {
        assert false;
      } else {
        FirstFrame(b);
        DecodeEncode(|a[0]|);
        DecodeEncode(|b[0]|);
        assert (a[0] + Frames(a[1..]))[..|a[0]|] == a[0];
        assert (b[0] + Frames(b[1..]))[..|b[0]|] == b[0];
        assert (a[0] + Frames(a[1..]))[|a[0]|..] == Frames(a[1..]);
        assert (b[0] + Frames(b[1..]))[|b[0]|..] == Frames(b[1..]);
        FramesInjective(a[1..], b[1..]);
      }
    } else if b != [] {
      FirstFrame(b);
    }
  }

  class Buffer {
    const isMessageBuffer: bool
    const bytes: array<Byte>
    var head: nat
    var tail: nat

    ghost predicate Valid()
      reads this
    {
      head < bytes.Length && tail < bytes.Length
    }

    ghost function Contents(): (r: seq<Byte>)
      requires Valid()
      reads this, bytes
      ensures |r| < bytes.Length
    {
      ContentsOf(bytes[..], head, tail)
    }

    /** xStreamBufferGenericCreate: one byte more than asked for. */
    constructor (size: nat, isMessageBuffer: bool)
      requires size > LENGTH_BYTES
      ensures Valid() && fresh(bytes) && bytes.Length == size + 1 && this.isMessageBuffer == isMessageBuffer
      ensures Contents() == []
    {
      this.isMessageBuffer := isMessageBuffer;
      bytes := new Byte[size + 1];
      head, tail := 0, 0;
    }

    /** prvBytesInBuffer */
    method BytesInBuffer() returns (count: nat)
      requires Valid()
      ensures count == |Contents()|
    {
      count := bytes.Length + head - tail;
      if count >= bytes.Length {
        count := count - bytes.Length;
      }
    }

    /** xStreamBufferSpacesAvailable: together with the bytes available always one less than the length. */
    method SpacesAvailable() returns (space: nat)
      requires Valid()
      ensures space + |Contents()| == bytes.Length - 1
    {
      space := bytes.Length + tail - head - 1;
      if space >= bytes.Length {
        space := space - bytes.Length;
      }
    }

    /** memcpy into a stretch of the ring that does not wrap */
    method CopyIn(start: nat, data: seq<Byte>)
      requires start + |data| <= bytes.Length
      modifies bytes
      ensures forall i | 0 <= i < bytes.Length ::
                bytes[i] == if start <= i < start + |data| then data[i - start] else old(bytes[i])
    {
      var i := 0;
      while i < |data|
        invariant i <= |data|
        invariant forall k | 0 <= k < bytes.Length ::
                    bytes[k] == if start <= k < start + i then data[k - start] else old(bytes[k])
      {
        bytes[start + i] := data[i];
        i := i + 1;
      }
    }

    /** prvWriteBytesToBuffer */
    method WriteBytes(data: seq<Byte>)
      requires Valid() && 0 < |data| && |data| + |Contents()| < bytes.Length
      modifies bytes, `head
      ensures Valid() && Contents() == old(Contents()) + data
    {
      ghost var before := bytes[..];
      var nextHead := head;
      var firstLength := if bytes.Length - nextHead < |data| then bytes.Length - nextHead else |data|;
      CopyIn(nextHead, data[..firstLength]);
      if |data| > firstLength {
        CopyIn(0, data[firstLength..]);
      }
      WrittenContents(before, bytes[..], head, tail, data);
      nextHead := nextHead + |data|;
      if nextHead >= bytes.Length {
        nextHead := nextHead - bytes.Length;
      }
      head := nextHead;
    }

    /** prvReadBytesFromBuffer */
    method ReadBytes(maxCount: nat, available: nat) returns (data: seq<Byte>)
      requires Valid() && available <= |Contents()|
      modifies `tail
      ensures |data| == (if available < maxCount then available else maxCount)
      ensures Valid() && data + Contents() == old(Contents())
    {
      var count := if available < maxCount then available else maxCount;
      data := [];
      if count > 0 {
        var nextTail := tail;
        var firstLength := if bytes.Length - nextTail < count then bytes.Length - nextTail else count;
        data := bytes[nextTail..nextTail + firstLength];
        if count > firstLength {
          data := data + bytes[..count - firstLength];
        }
        TakenContents(bytes[..], head, tail, count, data);
        nextTail := nextTail + count;
        if nextTail >= bytes.Length {
          nextTail := nextTail - bytes.Length;
        }
        tail := nextTail;
      }
    }

    /** prvWriteMessageToBuffer */
    method WriteMessage(data: seq<Byte>, space: nat, required: nat) returns (written: nat)
      requires Valid() && 0 < |data| < SIZE_LIMIT && space + |Contents()| < bytes.Length
      requires required == if isMessageBuffer then RequiredSpace(|data|) else |data|
      requires isMessageBuffer ==> SpaceCheckHolds(|data|, space)
      modifies bytes, `head
      ensures Valid()
      ensures isMessageBuffer ==>
                var fits := |data| + LENGTH_BYTES <= space;
                && written == (if fits then |data| else 0)
                && Contents() == old(Contents()) + if fits then Frame(data) else []
      ensures !isMessageBuffer ==> written == if |data| < space then |data| else space
      ensures !isMessageBuffer ==> Contents() == old(Contents()) + data[..written]
    {
      hide ContentsOf, EncodeLength;
      var shouldWrite := true;
      var count := |data|;
      if space == 0 {
        shouldWrite := false;
      } else if !isMessageBuffer {
        count := if |data| < space then |data| else space;
      } else if space >= required {
        WriteBytes(EncodeLength(|data|));
      } else {
        shouldWrite := false;
      }
      written := 0;
      if shouldWrite {
        assert data[..|data|] == data;
        WriteBytes(data[..count]);
        written := count;
      }
    }

    /** xStreamBufferSend without block time, and xStreamBufferSendFromISR: a stream takes what fits, a message
        buffer takes the whole message or nothing. The space check must find out whether the message fits. */
    method Send(data: seq<Byte>) returns (written: nat)
      requires Valid() && 0 < |data| < SIZE_LIMIT
      requires isMessageBuffer ==> SpaceCheckHolds(|data|, bytes.Length - 1 - |Contents()|)
      modifies bytes, `head
      ensures Valid()
      ensures !isMessageBuffer ==> written == Least(|data|, bytes.Length - 1 - |old(Contents())|)
      ensures !isMessageBuffer ==> Contents() == old(Contents()) + data[..written]
      ensures isMessageBuffer ==>
                var fits := |data| + LENGTH_BYTES + |old(Contents())| < bytes.Length;
                && written == (if fits then |data| else 0)
                && Contents() == if fits then old(Contents()) + Frame(data) else old(Contents())
    {
      hide ContentsOf, EncodeLength;
      var required := |data|;
      if isMessageBuffer {
        required := (required + LENGTH_BYTES) % SIZE_LIMIT;
      }
      var space := SpacesAvailable();
      written := WriteMessage(data, space, required);
      assert old(Contents()) + [] == old(Contents());
    }

    /** prvReadMessageFromBuffer */
    method ReadMessage(bufferLength: nat, available: nat, lengthBytes: nat, ghost ms: seq<seq<Byte>>)
      returns (data: seq<Byte>)
      requires Valid() && available == |Contents()| && lengthBytes == if isMessageBuffer then LENGTH_BYTES else 0
      requires isMessageBuffer ==> ms != [] && MessagesOk(ms) && Contents() == Frames(ms)
      modifies `tail
      ensures Valid()
      ensures !isMessageBuffer ==>
                |data| == Least(bufferLength, |old(Contents())|) && data + Contents() == old(Contents())
      ensures isMessageBuffer && |ms[0]| <= bufferLength ==> data == ms[0] && Contents() == Frames(ms[1..])
      ensures isMessageBuffer && |ms[0]| > bufferLength ==> data == [] && Contents() == old(Contents())
    {
      hide ContentsOf, EncodeLength, DecodeLength, Frames;
      var nextLength := bufferLength;
      var left := available;
      if lengthBytes != 0 {
        FirstFrame(ms);
        DecodeEncode(|ms[0]|);
        var originalTail := tail;
        var header := ReadBytes(lengthBytes, available);
        HeaderIs(header, Contents(), Frames(ms));
        left := available - lengthBytes;
        nextLength := DecodeLength(header);
        if nextLength > bufferLength {
          tail := originalTail;
          nextLength := 0;
        }
      }
      ghost var before := Contents();
      data := ReadBytes(nextLength, left);
      HeaderIs(data, Contents(), before);
      if lengthBytes != 0 && |ms[0]| <= bufferLength {
        HeaderIs(ms[0], Frames(ms[1..]), before);
      }
    }

    /** xStreamBufferReceive without block time, and xStreamBufferReceiveFromISR. In a message buffer that holds the
        frames of ms, the first message is returned whole if the caller's buffer can hold it; otherwise
        nothing is returned and nothing changes. */
    method Receive(bufferLength: nat, ghost ms: seq<seq<Byte>>) returns (data: seq<Byte>)
      requires Valid() && (isMessageBuffer ==> MessagesOk(ms) && Contents() == Frames(ms))
      modifies `tail
      ensures Valid()
      ensures !isMessageBuffer ==>
                |data| == Least(bufferLength, |old(Contents())|) && data + Contents() == old(Contents())
      ensures isMessageBuffer && ms != [] && |ms[0]| <= bufferLength ==> data == ms[0] && Contents() == Frames(ms[1..])
      ensures isMessageBuffer && (ms == [] || |ms[0]| > bufferLength) ==> data == [] && Contents() == old(Contents())
    {
      hide ContentsOf, EncodeLength;
      var lengthBytes := if isMessageBuffer then LENGTH_BYTES else 0;
      var available := BytesInBuffer();
      data := [];
      if isMessageBuffer && ms != [] {
        FirstFrame(ms);
      }
      if available > lengthBytes {
        data := ReadMessage(bufferLength, available, lengthBytes, ms);
      }
    }
  }

  function Least(a: int, b: int): int {
    if a < b then a else b
  }

  lemma HeaderIs(header: seq<Byte>, rest: seq<Byte>, all: seq<Byte>)
    requires header + rest == all
    ensures header == all[..|header|] && rest == all[|header|..]
  {
  }
}

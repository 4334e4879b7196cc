/** One writer and one reader on a stream buffer without any lock: bytes are copied one at a time, and the head and
    the tail are published when a copy is complete. Steps of the two sides interleave freely. */
module StreamProtocol {
  import opened StreamBuffer

  /** space is the room the writer still knows of from its last look at the tail. */
  datatype Writer = Ready(space: nat) | Writing(data: seq<Byte>, copied: nat, space: nat)
  /** available is what the reader still knows of from its last look at the head. */
  datatype Reader = Able(available: nat) | Reading(count: nat, got: seq<Byte>, available: nat)

  /** The shared fields, the private states of the two sides, and the history: all bytes ever published by the writer
      and all bytes ever taken by the reader. */
  datatype Channel = Channel(bytes: seq<Byte>, head: nat, tail: nat, writer: Writer, reader: Reader,
                             written: seq<Byte>, taken: seq<Byte>)

  datatype Step = LookForSpace | BeginWrite(data: seq<Byte>) | CopyIn | PublishHead
                | LookForData | BeginRead(count: nat) | CopyOut | PublishTail

  predicate Enabled(c: Channel, e: Step) {
    match e
    case LookForSpace => c.writer.Ready?
    case BeginWrite(data) => c.writer.Ready? && 0 < |data| <= c.writer.space
    case CopyIn =>
      && c.writer.Writing? && c.writer.copied < |c.writer.data|
      && Around(c.head + c.writer.copied, |c.bytes|) < |c.bytes|
    case PublishHead => c.writer.Writing? && c.writer.copied == |c.writer.data|
    case LookForData => c.reader.Able?
    case BeginRead(count) => c.reader.Able? && 0 < count <= c.reader.available
    case CopyOut =>
      && c.reader.Reading? && |c.reader.got| < c.reader.count
      && Around(c.tail + |c.reader.got|, |c.bytes|) < |c.bytes|
    case PublishTail => c.reader.Reading? && |c.reader.got| == c.reader.count
  }

  /** xStreamBufferSpacesAvailable, as a value */
  function Spaces(c: Channel): nat {
    var count := Distance(c.head, c.tail, |c.bytes|);
    if |c.bytes| >= 1 + count then |c.bytes| - 1 - count else 0
  }

  function Apply(c: Channel, e: Step): Channel
    requires Enabled(c, e)
  {
    match e
    case LookForSpace => c.(writer := Ready(Spaces(c)))
    case BeginWrite(data) => c.(writer := Writing(data, 0, c.writer.space - |data|))
    case CopyIn =>
      c.(bytes := c.bytes[Around(c.head + c.writer.copied, |c.bytes|) := c.writer.data[c.writer.copied]],
         writer := c.writer.(copied := c.writer.copied + 1))
    case PublishHead =>
      c.(head := Around(c.head + |c.writer.data|, |c.bytes|), writer := Ready(c.writer.space),
         written := c.written + c.writer.data)
    case LookForData => c.(reader := Able(Distance(c.head, c.tail, |c.bytes|)))
    case BeginRead(count) => c.(reader := Reading(count, [], c.reader.available - count))
    case CopyOut =>
      c.(reader := c.reader.(got := c.reader.got + [c.bytes[Around(c.tail + |c.reader.got|, |c.bytes|)]]))
    case PublishTail =>
      c.(tail := Around(c.tail + c.reader.count, |c.bytes|), reader := Able(c.reader.available),
         taken := c.taken + c.reader.got)
  }

  // ---- the invariant ---------------------------------------------------------------------------

  predicate Indices(c: Channel) {
    c.head < |c.bytes| && c.tail < |c.bytes|
  }

  /** The buffer holds exactly the bytes written and not yet taken; what has been taken is the front of what was
      written; what each side is in the middle of is where it should be. */
  predicate Inv(c: Channel) {
    && Indices(c)
    && c.written == c.taken + ContentsOf(c.bytes, c.head, c.tail)
    && (match c.writer
        case Ready(space) => space <= Spaces(c)
        case Writing(data, copied, space) =>
          && 0 < |data| && copied <= |data| && |data| + space <= Spaces(c)
          && forall j | 0 <= j < copied :: c.bytes[Around(c.head + j, |c.bytes|)] == data[j])
    && (match c.reader
        case Able(available) => available <= Distance(c.head, c.tail, |c.bytes|)
        case Reading(count, got, available) =>
          && count + available <= Distance(c.head, c.tail, |c.bytes|) && |got| <= count
          && forall i | 0 <= i < |got| :: got[i] == c.bytes[Around(c.tail + i, |c.bytes|)])
  }

  /** The place the writer copies to is none of the unread ones, nor one it has copied to already. */
  lemma FreePlace(head: nat, tail: nat, length: nat, count: nat, copied: nat, i: nat)
    requires head < length && tail < length && copied < count && count + Distance(head, tail, length) < length
    ensures Around(head + copied, length) < length
    ensures i < Distance(head, tail, length) ==> Around(tail + i, length) != Around(head + copied, length)
    ensures i < copied ==> Around(head + i, length) != Around(head + copied, length)
  {
  }

  /** Writing to a free place leaves the contents alone. */
  lemma CopyKeepsContents(bytes: seq<Byte>, head: nat, tail: nat, count: nat, copied: nat, x: Byte)
    requires head < |bytes| && tail < |bytes| && copied < count && count + Distance(head, tail, |bytes|) < |bytes|
    ensures Around(head + copied, |bytes|) < |bytes|
    ensures ContentsOf(bytes[Around(head + copied, |bytes|) := x], head, tail) == ContentsOf(bytes, head, tail)
  {
    FreePlace(head, tail, |bytes|, count, copied, 0);
    var after := bytes[Around(head + copied, |bytes|) := x];
    var l, r := ContentsOf(after, head, tail), ContentsOf(bytes, head, tail);
    forall i | 0 <= i < |l|
      ensures l[i] == r[i]
    {
      FreePlace(head, tail, |bytes|, count, copied, i);
      assert l[i] == after[Around(tail + i, |bytes|)];
    }
  }

  lemma RoomIsLeft(c: Channel)
    requires Inv(c) && c.writer.Writing?
    ensures |c.writer.data| + Distance(c.head, c.tail, |c.bytes|) < |c.bytes|
  {
    hide ContentsOf, Distance;
  }

  /** The bytes copied so far are in place, the next one included. */
  lemma CopiedAreInPlace(c: Channel)
    requires Inv(c) && Enabled(c, CopyIn)
    ensures var r := Apply(c, CopyIn);
            forall j | 0 <= j < r.writer.copied :: r.bytes[Around(c.head + j, |c.bytes|)] == c.writer.data[j]
  {
    RoomIsLeft(c);
    hide ContentsOf, Distance, Spaces;
    forall j | 0 <= j < c.writer.copied + 1
      ensures Apply(c, CopyIn).bytes[Around(c.head + j, |c.bytes|)] == c.writer.data[j]
    {
      FreePlace(c.head, c.tail, |c.bytes|, |c.writer.data|, c.writer.copied, j);
    }
  }

  /** The bytes the reader has copied are where they were. */
  lemma ReadStaysInPlace(c: Channel)
    requires Inv(c) && Enabled(c, CopyIn) && c.reader.Reading?
    ensures var r := Apply(c, CopyIn);
            forall i | 0 <= i < |c.reader.got| :: c.reader.got[i] == r.bytes[Around(c.tail + i, |c.bytes|)]
  {
    RoomIsLeft(c);
    hide ContentsOf, Distance, Spaces;
    forall i | 0 <= i < |c.reader.got|
      ensures c.reader.got[i] == Apply(c, CopyIn).bytes[Around(c.tail + i, |c.bytes|)]
    {
      FreePlace(c.head, c.tail, |c.bytes|, |c.writer.data|, c.writer.copied, i);
    }
  }

  lemma CopyInKeeps(c: Channel)
    requires Inv(c) && Enabled(c, CopyIn)
    ensures Inv(Apply(c, CopyIn))
  {
    hide ContentsOf, Distance;
    RoomIsLeft(c);
    CopyKeepsContents(c.bytes, c.head, c.tail, |c.writer.data|, c.writer.copied, c.writer.data[c.writer.copied]);
    CopiedAreInPlace(c);
    if c.reader.Reading? {
      ReadStaysInPlace(c);
    }
  }

  lemma PublishHeadKeeps(c: Channel)
    requires Inv(c) && Enabled(c, PublishHead)
    ensures Inv(Apply(c, PublishHead))
  {
    PublishedContents(c.bytes, c.head, c.tail, c.writer.data);
  }

  /** Moving the head over bytes that are in place appends them to the contents. */
  lemma PublishedContents(bytes: seq<Byte>, head: nat, tail: nat, data: seq<Byte>)
    requires head < |bytes| && tail < |bytes| && |data| + Distance(head, tail, |bytes|) < |bytes|
    requires forall j | 0 <= j < |data| :: bytes[Around(head + j, |bytes|)] == data[j]
    ensures ContentsOf(bytes, Around(head + |data|, |bytes|), tail) == ContentsOf(bytes, head, tail) + data
  {
    var l, r := ContentsOf(bytes, Around(head + |data|, |bytes|), tail), ContentsOf(bytes, head, tail) + data;
    assert |l| == |r|;
    forall k | 0 <= k < |l|
      ensures l[k] == r[k]
    {
      assert l[k] == bytes[Around(tail + k, |bytes|)];
    }
  }

  lemma PublishTailKeeps(c: Channel)
    requires Inv(c) && Enabled(c, PublishTail)
    ensures Inv(Apply(c, PublishTail))
  {
    TakenContents(c.bytes, c.head, c.tail, c.reader.count, c.reader.got);
  }

  lemma StepKeeps(c: Channel, e: Step)
    requires Inv(c) && Enabled(c, e)
    ensures Inv(Apply(c, e))
  {
    hide Inv, Apply;
    match e
    case CopyIn => CopyInKeeps(c);
    case PublishHead => PublishHeadKeeps(c);
    case PublishTail => PublishTailKeeps(c);
    case _ => PrivateKeeps(c, e);
  }

  /** Steps that change nothing shared. */
  lemma PrivateKeeps(c: Channel, e: Step)
    requires Inv(c) && Enabled(c, e) && !e.CopyIn? && !e.PublishHead? && !e.PublishTail?
    ensures Inv(Apply(c, e))
  {
    hide ContentsOf;
  }

  /** A look is exact when it is taken: the reader sees every byte written and not yet taken, the writer all the rest of
      the buffer but the one byte that tells a full buffer from an empty one. */
  lemma LooksAreExact(c: Channel)
    requires Inv(c)
    ensures c.reader.Able? ==> Apply(c, LookForData) == c.(reader := Able(|c.written| - |c.taken|))
    ensures c.writer.Ready? ==>
              |c.written| - |c.taken| < |c.bytes|
              && Apply(c, LookForSpace) == c.(writer := Ready(|c.bytes| - 1 - (|c.written| - |c.taken|)))
  {
    assert |c.written| - |c.taken| == |ContentsOf(c.bytes, c.head, c.tail)|;
  }

  // ---- runs --------------------------------------------------------------------------------------

  predicate Allowed(c: Channel, es: seq<Step>)
    decreases |es|
  {
    es == [] || (Enabled(c, es[0]) && Allowed(Apply(c, es[0]), es[1..]))
  }

  function Run(c: Channel, es: seq<Step>): Channel
    requires Allowed(c, es)
    decreases |es|
  {
    if es == [] then c else Run(Apply(c, es[0]), es[1..])
  }

  lemma {:induction false} RunKeeps(c: Channel, es: seq<Step>)
    requires Inv(c) && Allowed(c, es)
    ensures Inv(Run(c, es)) && c.written <= Run(c, es).written && c.taken <= Run(c, es).taken
    decreases |es|
  {
    hide Inv;
    if es != [] {
      StepKeeps(c, es[0]);
      RunKeeps(Apply(c, es[0]), es[1..]);
    }
  }

  function NewChannel(bytes: seq<Byte>): Channel {
    Channel(bytes, 0, 0, Ready(0), Able(0), [], [])
  }

  /** First in, first out, and nothing unread is overwritten: whatever the interleaving, the bytes taken are a prefix of
      the bytes written, and the bytes between tail and head are exactly the rest. */
  lemma ReadsArePrefixOfWrites(bytes: seq<Byte>, es: seq<Step>)
    requires bytes != [] && Allowed(NewChannel(bytes), es)
    ensures var c := Run(NewChannel(bytes), es);
            && c.taken <= c.written
            && Indices(c) && ContentsOf(c.bytes, c.head, c.tail) == c.written[|c.taken|..]
  {
    RunKeeps(NewChannel(bytes), es);
  }
}

/** Messages as a sequence of bytes of which a prefix has been taken: the writer publishes a message's length and
    then its bytes; the reader publishes its tail after the length and again after the bytes. MessageRing does
    this on the ring. */
module MessageProtocol {
  import opened StreamBuffer

  datatype Writer = Idle | Header(message: seq<Byte>)
  datatype Reader = Waiting | Seen(available: nat) | Body(length: nat, available: nat)

  datatype Channel = Channel(written: seq<Byte>, taken: nat, accepted: seq<seq<Byte>>, received: seq<seq<Byte>>,
                             writer: Writer, reader: Reader)

  datatype Step = WriteHeader(message: seq<Byte>) | WriteBody | Look | ReadHeader | ReadBody

  predicate Enabled(c: Channel, e: Step) {
    match e
    case WriteHeader(m) => c.writer.Idle? && 0 < |m| < SIZE_LIMIT
    case WriteBody => c.writer.Header?
    case Look => c.reader.Waiting? && c.taken <= |c.written|
    case ReadHeader => c.reader.Seen? && c.reader.available >= LENGTH_BYTES && c.taken + LENGTH_BYTES <= |c.written|
    case ReadBody => c.reader.Body? && c.taken + Least(c.reader.length, c.reader.available) <= |c.written|
  }

  /** A look finds a message only if more than a length is there. The reader's buffer is large enough for it. */
  function Apply(c: Channel, e: Step): Channel
    requires Enabled(c, e)
  {
    match e
    case WriteHeader(m) => c.(written := c.written + EncodeLength(|m|), writer := Header(m))
    case WriteBody =>
      c.(written := c.written + c.writer.message, accepted := c.accepted + [c.writer.message], writer := Idle)
    case Look =>
      var available := |c.written| - c.taken;
      if available > LENGTH_BYTES then c.(reader := Seen(available)) else c
    case ReadHeader =>
      c.(taken := c.taken + LENGTH_BYTES,
         reader := Body(DecodeLength(c.written[c.taken..c.taken + LENGTH_BYTES]), c.reader.available - LENGTH_BYTES))
    case ReadBody =>
      var count := Least(c.reader.length, c.reader.available);
      c.(taken := c.taken + count, received := c.received + [c.written[c.taken..c.taken + count]], reader := Waiting)
  }

  predicate HeaderOk(w: Writer) {
    w.Header? ==> 0 < |w.message| < SIZE_LIMIT
  }

  function Tail(w: Writer): seq<Byte>
    requires HeaderOk(w)
  {
    if w.Header? then EncodeLength(|w.message|) else []
  }

  predicate Inv(c: Channel) {
    && MessagesOk(c.accepted) && HeaderOk(c.writer)
    && c.written == Frames(c.accepted) + Tail(c.writer)
    && |c.received| <= |c.accepted| && c.received == c.accepted[..|c.received|]
    && MessagesOk(c.received)
    && c.taken == |Frames(c.received)| + (if c.reader.Body? then LENGTH_BYTES else 0)
    && match c.reader
       case Waiting => true
       case Seen(available) =>
         |c.received| < |c.accepted| && available >= LENGTH_BYTES + |c.accepted[|c.received|]|
       case Body(length, available) =>
         |c.received| < |c.accepted| && length == |c.accepted[|c.received|]| && available >= length
  }

  lemma {:induction false} FramesConcat(a: seq<seq<Byte>>, b: seq<seq<Byte>>)
    requires MessagesOk(a) && MessagesOk(b)
    ensures MessagesOk(a + b) && Frames(a + b) == Frames(a) + Frames(b)
  {
    if a == [] {
      assert a + b == b;
    } else {
      assert (a + b)[1..] == a[1..] + b;
      FramesConcat(a[1..], b);
    }
  }

  /** What follows the received frames in the written bytes. */
  lemma Rest(c: Channel)
    requires Inv(c)
    ensures var rest := c.accepted[|c.received|..];
            && MessagesOk(rest)
            && c.written == Frames(c.received) + (Frames(rest) + Tail(c.writer))
  {
    var rest := c.accepted[|c.received|..];
    assert c.accepted == c.received + rest;
    FramesConcat(c.received, rest);
  }

  lemma LookKeeps(c: Channel)
    requires Inv(c) && Enabled(c, Look)
    ensures Inv(Apply(c, Look))
  {
    Rest(c);
    var rest := c.accepted[|c.received|..];
    if rest != [] {
      FirstFrame(rest);
    }
  }

  /** The next frame in the written bytes. */
  lemma NextFrame(c: Channel)
    requires Inv(c) && |c.received| < |c.accepted|
    ensures var m := c.accepted[|c.received|]; var at := |Frames(c.received)|;
            && 0 < |m| < SIZE_LIMIT && at + LENGTH_BYTES + |m| <= |c.written|
            && c.written[at..at + LENGTH_BYTES] == EncodeLength(|m|)
            && c.written[at + LENGTH_BYTES..at + LENGTH_BYTES + |m|] == m
  {
    hide EncodeLength;
    var m := c.accepted[|c.received|];
    var rest := c.accepted[|c.received| + 1..];
    assert c.accepted == (c.received + [m]) + rest;
    assert m in c.accepted;
    FramesAppend(c.received, m);
    FramesConcat(c.received + [m], rest);
    Regroup(Frames(c.received), EncodeLength(|m|), m, Frames(rest), Tail(c.writer), c.written);
  }

  lemma Regroup(a: seq<Byte>, b: seq<Byte>, m: seq<Byte>, r: seq<Byte>, t: seq<Byte>, all: seq<Byte>)
    requires all == ((a + (b + m)) + r) + t
    ensures |a| + |b| + |m| <= |all|
    ensures all[|a|..|a| + |b|] == b && all[|a| + |b|..|a| + |b| + |m|] == m
  {
    assert all == a + (b + (m + (r + t)));
    SliceIs(a, b, m + (r + t), all);
    assert all == (a + b) + (m + (r + t));
    SliceIs(a + b, m, r + t, all);
  }

  lemma ReadHeaderKeeps(c: Channel)
    requires Inv(c) && Enabled(c, ReadHeader)
    ensures Inv(Apply(c, ReadHeader))
  {
    hide EncodeLength, DecodeLength, Frames;
    NextFrame(c);
    DecodeEncode(|c.accepted[|c.received|]|);
  }

  lemma SliceIs(a: seq<Byte>, b: seq<Byte>, d: seq<Byte>, all: seq<Byte>)
    requires all == a + (b + d)
    ensures |a| + |b| <= |all| && all[|a|..|a| + |b|] == b
  {
  }

  lemma ReadBodyKeeps(c: Channel)
    requires Inv(c) && Enabled(c, ReadBody)
    ensures Inv(Apply(c, ReadBody))
  {
    hide EncodeLength, DecodeLength, Frames;
    NextFrame(c);
    var m := c.accepted[|c.received|];
    FramesAppend(c.received, m);
    assert c.received + [m] == c.accepted[..|c.received| + 1];
  }

  lemma WriteKeeps(c: Channel, e: Step)
    requires Inv(c) && Enabled(c, e) && (e.WriteHeader? || e.WriteBody?)
    ensures Inv(Apply(c, e))
  {
    hide EncodeLength;
    if e.WriteBody? {
      FramesAppend(c.accepted, c.writer.message);
    }
  }

  lemma StepKeeps(c: Channel, e: Step)
    requires Inv(c) && Enabled(c, e)
    ensures Inv(Apply(c, e))
  {
    hide Inv, Apply;
    match e
    case Look => LookKeeps(c);
    case ReadHeader => ReadHeaderKeeps(c);
    case ReadBody => ReadBodyKeeps(c);
    case _ => WriteKeeps(c, e);
  }

  predicate Allowed(c: Channel, es: seq<Step>)
    decreases |es|
  {
    es == [] || (Enabled(c, es[0]) && Allowed(Apply(c, es[0]), es[1..]))
  }

  function Run(c: Channel, es: seq<Step>): Channel
    requires Allowed(c, es)
    decreases |es|
  {
    if es == [] then c else Run(Apply(c, es[0]), es[1..])
  }

  lemma {:induction false} RunKeeps(c: Channel, es: seq<Step>)
    requires Inv(c) && Allowed(c, es)
    ensures Inv(Run(c, es))
    decreases |es|
  {
    hide Inv, Apply, Enabled;
    if es != [] {
      StepKeeps(c, es[0]);
      RunKeeps(Apply(c, es[0]), es[1..]);
    }
  }

  /** The messages received are a prefix of the messages accepted: whole and in order, although the reader may
      look between a message's length and its bytes. */
  lemma MessagesArriveWhole(es: seq<Step>)
    requires Allowed(Channel([], 0, [], [], Idle, Waiting), es)
    ensures var c := Run(Channel([], 0, [], [], Idle, Waiting), es); c.received <= c.accepted
  {
    RunKeeps(Channel([], 0, [], [], Idle, Waiting), es);
  }
}

/** Messages on the ring of StreamProtocol: each side of a message buffer drives the steps of a stream buffer,
    byte copies and publication of head and tail included. Proved to do what MessageProtocol says of a sequence of
    bytes. */
module MessageRing {
  import opened StreamBuffer
  import S = StreamProtocol
  import M = MessageProtocol

  /** Where xMessageBufferSend is: before the length, between length and bytes, or copying one of them. */
  datatype Sender =
    | Idle | SendingLength(message: seq<Byte>) | Between(message: seq<Byte>) | SendingBytes(message: seq<Byte>)
  /** Where xMessageBufferReceive is; the caller's buffer is large enough for the message. */
  datatype Receiver = Waiting | Found | ReadingLength | Known(length: nat) | ReadingBytes(length: nat)

  datatype System = System(channel: S.Channel, accepted: seq<seq<Byte>>, received: seq<seq<Byte>>,
                           sender: Sender, receiver: Receiver)

  datatype Step = LookForSpace | StartMessage(message: seq<Byte>) | CopyIn | PublishLength | StartBytes | PublishMessage
                | LookForData | StartLength | CopyOut | TakeLength | StartBody | TakeMessage

  /** A message is accepted if the space check passes, which must find out whether its length and all of its bytes
      fit. */
  predicate Enabled(s: System, e: Step) {
    var w, r := s.channel.writer, s.channel.reader;
    match e
    case LookForSpace => s.sender.Idle?
    case StartMessage(m) =>
      && s.sender.Idle? && w.Ready? && 0 < |m| < SIZE_LIMIT
      && RequiredSpace(|m|) <= w.space && SpaceCheckHolds(|m|, w.space)
    case CopyIn => w.Writing? && w.copied < |w.data|
    case PublishLength => s.sender.SendingLength? && w.Writing? && w.copied == |w.data|
    case StartBytes => s.sender.Between?
    case PublishMessage => s.sender.SendingBytes? && w.Writing? && w.copied == |w.data|
    case LookForData => s.receiver.Waiting?
    case StartLength => s.receiver.Found?
    case CopyOut => r.Reading? && |r.got| < r.count
    case TakeLength => s.receiver.ReadingLength? && r.Reading? && |r.got| == r.count
    case StartBody => s.receiver.Known?
    case TakeMessage => s.receiver.ReadingBytes? && r.Reading? && |r.got| == r.count
  }

  /** The step of the stream buffer behind a step of a message buffer. */
  function StreamStep(s: System, e: Step): S.Step
    requires Enabled(s, e)
  {
    match e
    case LookForSpace => S.LookForSpace
    case StartMessage(m) => S.BeginWrite(EncodeLength(|m|))
    case CopyIn => S.CopyIn
    case PublishLength | PublishMessage => S.PublishHead
    case StartBytes => S.BeginWrite(s.sender.message)
    case LookForData => S.LookForData
    case StartLength => S.BeginRead(LENGTH_BYTES)
    case CopyOut => S.CopyOut
    case TakeLength | TakeMessage => S.PublishTail
    case StartBody => S.BeginRead(Least(s.receiver.length, s.channel.reader.available))
  }

  function LengthIn(got: seq<Byte>): nat {
    if |got| == LENGTH_BYTES then DecodeLength(got) else 0
  }

  /** What the reader still knows of, what it is reading included. */
  function InView(r: S.Reader): nat {
    if r.Able? then r.available else r.count + r.available
  }

  /** The step below is always enabled, as StepIsStreamStep proves. */
  function Apply(s: System, e: Step): System
    requires Enabled(s, e)
  {
    var step := StreamStep(s, e);
    var r := s.(channel := if S.Enabled(s.channel, step) then S.Apply(s.channel, step) else s.channel);
    match e
    case LookForSpace | CopyIn | CopyOut => r
    case StartMessage(m) => r.(sender := SendingLength(m))
    case PublishLength => r.(sender := Between(s.sender.message))
    case StartBytes => r.(sender := SendingBytes(s.sender.message))
    case PublishMessage => r.(sender := Idle, accepted := s.accepted + [s.sender.message])
    case LookForData => r.(receiver := if InView(r.channel.reader) > LENGTH_BYTES then Found else Waiting)
    case StartLength => r.(receiver := ReadingLength)
    case TakeLength => r.(receiver := Known(LengthIn(s.channel.reader.got)))
    case StartBody => r.(receiver := ReadingBytes(s.receiver.length))
    case TakeMessage => r.(receiver := Waiting, received := s.received + [s.channel.reader.got])
  }

  // ---- the sequence of bytes it stands for -------------------------------------------------------

  function View(s: System): M.Channel {
    M.Channel(s.channel.written, |s.channel.taken|, s.accepted, s.received,
              if s.sender.Between? || s.sender.SendingBytes? then M.Header(s.sender.message) else M.Idle,
              match s.receiver
              case Waiting => M.Waiting
              case Found | ReadingLength => M.Seen(InView(s.channel.reader))
              case Known(n) => M.Body(n, InView(s.channel.reader))
              case ReadingBytes(n) => M.Body(n, InView(s.channel.reader)))
  }

  predicate SenderOk(sender: Sender, w: S.Writer) {
    match sender
    case Idle => w.Ready?
    case SendingLength(m) => 0 < |m| < SIZE_LIMIT && w.Writing? && w.data == EncodeLength(|m|) && |m| <= w.space
    case Between(m) => 0 < |m| < SIZE_LIMIT && w.Ready? && |m| <= w.space
    case SendingBytes(m) => w.Writing? && w.data == m
  }

  predicate ReceiverOk(receiver: Receiver, r: S.Reader) {
    match receiver
    case Waiting | Known(_) => r.Able?
    case Found => r.Able? && r.available > LENGTH_BYTES
    case ReadingLength => r.Reading? && r.count == LENGTH_BYTES
    case ReadingBytes(n) => r.Reading? && r.count == n
  }

  predicate Inv(s: System) {
    && S.Inv(s.channel) && M.Inv(View(s))
    && SenderOk(s.sender, s.channel.writer) && ReceiverOk(s.receiver, s.channel.reader)
  }

  /** Every step of a message buffer is a step of the stream buffer below: no assertion on indices or counts fails. */
  lemma StepIsStreamStep(s: System, e: Step)
    requires Inv(s) && Enabled(s, e)
    ensures S.Enabled(s.channel, StreamStep(s, e))
  {
    hide ContentsOf, EncodeLength, Frames;
  }

  /** What the reader has copied is what comes next in the bytes written. */
  lemma CopiedIsNext(c: S.Channel)
    requires S.Inv(c) && c.reader.Reading? && |c.reader.got| == c.reader.count
    ensures |c.taken| + |c.reader.got| <= |c.written|
    ensures c.written[|c.taken|..|c.taken| + |c.reader.got|] == c.reader.got
  {
    TakenContents(c.bytes, c.head, c.tail, c.reader.count, c.reader.got);
    hide ContentsOf;
  }

  lemma Unread(c: S.Channel)
    requires S.Inv(c)
    ensures |c.written| - |c.taken| == Distance(c.head, c.tail, |c.bytes|)
  {
    hide Distance;
  }

  /** A step on the ring is a step of the sequence of bytes, or changes nothing there. */
  ghost predicate Refines(v: M.Channel, w: M.Channel) {
    v == w || exists e :: M.Enabled(v, e) && w == M.Apply(v, e)
  }

  lemma ByStep(v: M.Channel, w: M.Channel, e: M.Step)
    requires M.Inv(v) && M.Enabled(v, e) && w == M.Apply(v, e)
    ensures Refines(v, w) && M.Inv(w)
  {
    hide M.Inv, M.Apply;
    M.StepKeeps(v, e);
  }

  lemma SendKeeps(s: System, e: Step)
    requires Inv(s) && Enabled(s, e) && S.Enabled(s.channel, StreamStep(s, e))
    requires e.LookForSpace? || e.StartMessage? || e.CopyIn? || e.PublishLength? || e.StartBytes? || e.PublishMessage?
    ensures Inv(Apply(s, e)) && Refines(View(s), View(Apply(s, e)))
  {
    hide S.Inv, M.Inv, EncodeLength;
    S.StepKeeps(s.channel, StreamStep(s, e));
    var v, w := View(s), View(Apply(s, e));
    if e.PublishLength? {
      ByStep(v, w, M.WriteHeader(s.sender.message));
    } else if e.PublishMessage? {
      ByStep(v, w, M.WriteBody);
    } else {
      assert v == w;
    }
  }

  lemma LookKeeps(s: System)
    requires Inv(s) && Enabled(s, LookForData)
    ensures Inv(Apply(s, LookForData)) && Refines(View(s), View(Apply(s, LookForData)))
  {
    hide M.Inv, S.Inv;
    S.StepKeeps(s.channel, S.LookForData);
    Unread(s.channel);
    ByStep(View(s), View(Apply(s, LookForData)), M.Look);
  }

  /** A look finds a message exactly if more than a length is there to be read. */
  lemma LookFinds(s: System)
    requires Inv(s) && Enabled(s, LookForData)
    ensures var r := Apply(s, LookForData);
            && r.receiver == (if |s.channel.written| - |s.channel.taken| > 4 then Found else Waiting)
            && r.sender == s.sender && r.accepted == s.accepted && r.received == s.received
  {
    S.LooksAreExact(s.channel);
    hide S.Inv, M.Inv;
  }

  lemma TakeLengthKeeps(s: System)
    requires Inv(s) && Enabled(s, TakeLength)
    ensures S.Enabled(s.channel, S.PublishTail)
    ensures Inv(Apply(s, TakeLength)) && Refines(View(s), View(Apply(s, TakeLength)))
  {
    hide M.Inv, S.Inv, DecodeLength;
    S.StepKeeps(s.channel, S.PublishTail);
    CopiedIsNext(s.channel);
    ByStep(View(s), View(Apply(s, TakeLength)), M.ReadHeader);
  }

  lemma TakeMessageKeeps(s: System)
    requires Inv(s) && Enabled(s, TakeMessage)
    ensures S.Enabled(s.channel, S.PublishTail)
    ensures Inv(Apply(s, TakeMessage)) && Refines(View(s), View(Apply(s, TakeMessage)))
  {
    hide M.Inv, S.Inv;
    S.StepKeeps(s.channel, S.PublishTail);
    CopiedIsNext(s.channel);
    BodyIsThere(s);
    ByStep(View(s), View(Apply(s, TakeMessage)), M.ReadBody);
  }

  /** The length found is at least one and at most what the reader knows of. */
  lemma BodyIsThere(s: System)
    requires Inv(s) && (s.receiver.Known? || s.receiver.ReadingBytes?)
    ensures 0 < s.receiver.length <= InView(s.channel.reader)
  {
    hide S.Inv, Frames;
    assert s.accepted[|s.received|] in s.accepted;
  }

  lemma StartKeeps(s: System, e: Step)
    requires Inv(s) && Enabled(s, e) && S.Enabled(s.channel, StreamStep(s, e))
    requires e.StartLength? || e.CopyOut? || e.StartBody?
    ensures Inv(Apply(s, e)) && Refines(View(s), View(Apply(s, e)))
  {
    hide S.Inv, M.Inv;
    S.StepKeeps(s.channel, StreamStep(s, e));
    if e.StartBody? {
      BodyIsThere(s);
    }
    assert View(s) == View(Apply(s, e));
  }

  /** Every step on the ring keeps the invariants of both layers and refines the sequence of bytes. */
  lemma StepKeeps(s: System, e: Step)
    requires Inv(s) && Enabled(s, e)
    ensures S.Enabled(s.channel, StreamStep(s, e)) && Inv(Apply(s, e)) && Refines(View(s), View(Apply(s, e)))
  {
    StepIsStreamStep(s, e);
    hide Inv, Apply, Refines, View, StreamStep, S.Enabled, Enabled;
    match e
    case LookForData => StepOfLook(s); LookKeeps(s);
    case TakeLength => TakeLengthKeeps(s);
    case TakeMessage => TakeMessageKeeps(s);
    case StartLength | CopyOut | StartBody => StartKeeps(s, e);
    case _ => SendKeeps(s, e);
  }

  lemma StepOfLook(s: System)
    ensures Enabled(s, LookForData) ==> StreamStep(s, LookForData) == S.LookForData
  {
  }

  // ---- runs --------------------------------------------------------------------------------------

  predicate Allowed(s: System, es: seq<Step>)
    decreases |es|
  {
    es == [] || (Enabled(s, es[0]) && Allowed(Apply(s, es[0]), es[1..]))
  }

  function Run(s: System, es: seq<Step>): System
    requires Allowed(s, es)
    decreases |es|
  {
    if es == [] then s else Run(Apply(s, es[0]), es[1..])
  }

  lemma {:induction false} RunKeeps(s: System, es: seq<Step>)
    requires Inv(s) && Allowed(s, es)
    ensures Inv(Run(s, es))
    decreases |es|
  {
    hide Inv, Apply, Enabled, StreamStep, S.Enabled, Refines;
    if es != [] {
      StepKeeps(s, es[0]);
      RunKeeps(Apply(s, es[0]), es[1..]);
    }
  }

  function NewSystem(bytes: seq<Byte>): System {
    System(S.NewChannel(bytes), [], [], Idle, Waiting)
  }

  /** Whatever the interleaving of byte copies and publications, the messages received are a prefix of the
      messages accepted, whole and in order, and what lies between tail and head is the rest. */
  lemma MessagesArriveWhole(bytes: seq<Byte>, es: seq<Step>)
    requires bytes != [] && Allowed(NewSystem(bytes), es)
    ensures var s := Run(NewSystem(bytes), es); var c := s.channel;
            && s.received <= s.accepted
            && c.taken <= c.written && S.Indices(c) && ContentsOf(c.bytes, c.head, c.tail) == c.written[|c.taken|..]
            && (s.sender.Idle? ==> MessagesOk(s.accepted) && c.written == Frames(s.accepted))
  {
    RunKeeps(NewSystem(bytes), es);
  }
}

/** The receiving half of the raw socket transport on its own: what it makes of a byte stream. */
module RawsockReceiver {
  import opened Endian
  import opened RawsockHeader

  datatype Frame = Frame(msgType: MsgType, payload: seq<Octet>)

  /** The outstanding read operation. */
  datatype Reading = NotReading | ReadingHeader | ReadingPayload(msgType: MsgType, length: nat)

  datatype RxError = BadRxLength | BadMessageType | SocketFailed

  /** The messages delivered upwards and the pings answered, in order. */
  datatype Receiver = Receiver(
    nativeIsLittle: bool,
    maxRxLength: nat,
    reading: Reading,
    delivered: seq<seq<Octet>>,
    answered: seq<seq<Octet>>)

  function FrameBytes(f: Frame, nativeIsLittle: bool): seq<Octet>
  {
    WireBytes(HeaderWord(f.msgType, |f.payload|), nativeIsLittle) + f.payload
  }

  /** What a header means for the next read: the payload, or the error that ends the reception. */
  datatype HeaderVerdict = Accept(msgType: MsgType, length: nat) | Reject(error: RxError)

  function JudgeHeader(hdr: nat, maxRxLength: nat): HeaderVerdict
  {
    if LengthField(hdr) > maxRxLength then Reject(BadRxLength)
    else if MsgTypeField(hdr) == Code(Wamp) then Accept(Wamp, LengthField(hdr))
    else if MsgTypeField(hdr) == Code(Ping) then Accept(Ping, LengthField(hdr))
    else if MsgTypeField(hdr) == Code(Pong) then Accept(Pong, LengthField(hdr))
    else Reject(BadMessageType)
  }

  predicate CanRead(r: Reading, available: nat)
  {
    match r
    case NotReading => false
    case ReadingHeader => available >= 4
    case ReadingPayload(_, n) => available >= n
  }

  function ReadLength(r: Reading): nat
  {
    match r
    case NotReading => 0
    case ReadingHeader => 4
    case ReadingPayload(_, n) => n
  }

  function Complete(r: Receiver, bytes: seq<Octet>): Receiver
    requires r.reading != NotReading && |bytes| == ReadLength(r.reading)
  {
    match r.reading
    case ReadingHeader =>
      (match JudgeHeader(WireWord(bytes, r.nativeIsLittle), r.maxRxLength)
       case Accept(t, n) => r.(reading := ReadingPayload(t, n))
       case Reject(_) => r.(reading := NotReading))
    case ReadingPayload(Wamp, _) => r.(reading := ReadingHeader, delivered := r.delivered + [bytes])
    case ReadingPayload(Ping, _) => r.(reading := ReadingHeader, answered := r.answered + [bytes])
    case ReadingPayload(Pong, _) => r.(reading := ReadingHeader)
  }

  function Progress(r: Reading, available: nat): nat
  {
    available + if r.ReadingPayload? then 1 else 0
  }

  /** Completes reads for as long as the bytes that have arrived allow. */
  function Pump(r: Receiver, unread: seq<Octet>): (Receiver, seq<Octet>)
    decreases Progress(r.reading, |unread|)
  {
    if CanRead(r.reading, |unread|) then
      var n := ReadLength(r.reading);
      Pump(Complete(r, unread[..n]), unread[n..])
    else (r, unread)
  }

  /** How the bytes are cut into chunks makes no difference. */
  lemma {:induction false} PumpComposes(r: Receiver, unread: seq<Octet>, more: seq<Octet>)
    ensures var (r1, rest) := Pump(r, unread); Pump(r, unread + more) == Pump(r1, rest + more)
    decreases Progress(r.reading, |unread|)
  {
    if CanRead(r.reading, |unread|) {
      var n := ReadLength(r.reading);
      assert (unread + more)[..n] == unread[..n] && (unread + more)[n..] == unread[n..] + more;
      PumpComposes(Complete(r, unread[..n]), unread[n..], more);
    }
  }

  /** The payloads of the frames of one type, in order. */
  function Payloads(frames: seq<Frame>, t: MsgType): seq<seq<Octet>>
  {
    if frames == [] then []
    else (if frames[0].msgType == t then [frames[0].payload] else []) + Payloads(frames[1..], t)
  }

  function Wire(frames: seq<Frame>, senderIsLittle: bool): seq<Octet>
  {
    if frames == [] then [] else FrameBytes(frames[0], senderIsLittle) + Wire(frames[1..], senderIsLittle)
  }

  /** A frame that the sender's header describes and the receiver's limit admits. */
  predicate Acceptable(f: Frame, maxRxLength: nat)
  {
    |f.payload| < 0x100_0000 && |f.payload| <= maxRxLength
  }

  function AfterFrame(r: Receiver, f: Frame): Receiver
  {
    match f.msgType
    case Wamp => r.(delivered := r.delivered + [f.payload])
    case Ping => r.(answered := r.answered + [f.payload])
    case Pong => r
  }

  lemma PumpStep(r: Receiver, bytes: seq<Octet>, rest: seq<Octet>)
    requires r.reading != NotReading && |bytes| == ReadLength(r.reading)
    ensures Pump(r, bytes + rest) == Pump(Complete(r, bytes), rest)
  {
    hide Complete;
    var all := bytes + rest;
    assert all[..|bytes|] == bytes && all[|bytes|..] == rest;
  }

  lemma PumpWaits(r: Receiver)
    requires r.reading == ReadingHeader
    ensures Pump(r, []) == (r, [])
  {
  }

  lemma HeaderRead(r: Receiver, f: Frame, senderIsLittle: bool)
    requires r.reading == ReadingHeader && Acceptable(f, r.maxRxLength)
    ensures Complete(r, WireBytes(HeaderWord(f.msgType, |f.payload|), senderIsLittle))
         == r.(reading := ReadingPayload(f.msgType, |f.payload|))
  {
    WireRoundTrip(HeaderWord(f.msgType, |f.payload|), senderIsLittle, r.nativeIsLittle);
    HeaderIsFaithful(f.msgType, |f.payload|);
    hide HeaderWord, WireBytes, WireWord, LengthField, MsgTypeField;
  }

  lemma PayloadCompletes(r: Receiver, f: Frame)
    requires r.reading == ReadingHeader
    ensures Complete(r.(reading := ReadingPayload(f.msgType, |f.payload|)), f.payload) == AfterFrame(r, f)
  {
  }

  lemma FrameBytesThen(f: Frame, rest: seq<Octet>, senderIsLittle: bool)
    ensures FrameBytes(f, senderIsLittle) + rest
         == WireBytes(HeaderWord(f.msgType, |f.payload|), senderIsLittle) + (f.payload + rest)
  {
    hide HeaderWord, WireBytes;
  }

  lemma FrameRead(r: Receiver, f: Frame, rest: seq<Octet>, senderIsLittle: bool)
    requires r.reading == ReadingHeader && Acceptable(f, r.maxRxLength)
    ensures Pump(r, FrameBytes(f, senderIsLittle) + rest) == Pump(AfterFrame(r, f), rest)
  {
    var header := WireBytes(HeaderWord(f.msgType, |f.payload|), senderIsLittle);
    var r1 := r.(reading := ReadingPayload(f.msgType, |f.payload|));
    HeaderRead(r, f, senderIsLittle);
    PumpStep(r, header, f.payload + rest);
    PumpStep(r1, f.payload, rest);
    PayloadCompletes(r, f);
    FrameBytesThen(f, rest, senderIsLittle);
    hide HeaderWord, WireBytes, Pump, Complete, AfterFrame, FrameBytes;
  }

  function AfterFrames(r: Receiver, frames: seq<Frame>): Receiver
    decreases frames
  {
    if frames == [] then r else AfterFrames(AfterFrame(r, frames[0]), frames[1..])
  }

  lemma {:induction false} FramesRead(r: Receiver, frames: seq<Frame>, senderIsLittle: bool)
    requires r.reading == ReadingHeader && forall f :: f in frames ==> Acceptable(f, r.maxRxLength)
    ensures Pump(r, Wire(frames, senderIsLittle)) == (AfterFrames(r, frames), [])
    decreases frames
  {
    PumpWaits(r);
    hide Pump, FrameBytes, JudgeHeader, Complete;
    if frames != [] {
      FrameRead(r, frames[0], Wire(frames[1..], senderIsLittle), senderIsLittle);
      FramesRead(AfterFrame(r, frames[0]), frames[1..], senderIsLittle);
    }
  }

  lemma {:induction false} FramesSorted(r: Receiver, frames: seq<Frame>)
    ensures AfterFrames(r, frames) == r.(delivered := r.delivered + Payloads(frames, Wamp),
                                         answered := r.answered + Payloads(frames, Ping))
    decreases frames
  {
    if frames != [] {
      var f, rest := frames[0], frames[1..];
      FramesSorted(AfterFrame(r, f), rest);
      var deliver := if f.msgType == Wamp then [f.payload] else [];
      var answer := if f.msgType == Ping then [f.payload] else [];
      assert AfterFrame(r, f) == r.(delivered := r.delivered + deliver, answered := r.answered + answer);
      Regroup(r.delivered, deliver, Payloads(rest, Wamp));
      Regroup(r.answered, answer, Payloads(rest, Ping));
    }
  }

  /** Any sequence of frames that fit, sent from a machine of either byte order, is received
      as its WAMP payloads in order, each ping is answered in order, no byte is left over and
      the next read is a header. */
  lemma WireRead(r: Receiver, frames: seq<Frame>, senderIsLittle: bool)
    requires r.reading == ReadingHeader && forall f :: f in frames ==> Acceptable(f, r.maxRxLength)
    ensures Pump(r, Wire(frames, senderIsLittle))
         == (r.(delivered := r.delivered + Payloads(frames, Wamp),
                answered := r.answered + Payloads(frames, Ping)), [])
  {
    FramesRead(r, frames, senderIsLittle);
    FramesSorted(r, frames);
  }

  lemma Regroup(a: seq<seq<Octet>>, b: seq<seq<Octet>>, c: seq<seq<Octet>>)
    ensures (a + b) + c == a + (b + c)
  {
  }

  lemma TooLongHeaderRead(r: Receiver, t: MsgType, senderIsLittle: bool)
    requires r.reading == ReadingHeader
    ensures Complete(r, WireBytes(HeaderWord(t, 0x100_0000), senderIsLittle))
         == r.(reading := if t == Pong then NotReading else ReadingPayload(Ping, 0))
  {
    WireRoundTrip(HeaderWord(t, 0x100_0000), senderIsLittle, r.nativeIsLittle);
    TooLongHeader(t);
    hide HeaderWord, WireBytes, WireWord, LengthField, MsgTypeField;
  }

  /** A frame of exactly 2^24 bytes, which the largest limit admits: the receiver answers a ping
      of nothing and reads the payload as if it were frames; after such a pong it gives up. */
  lemma TooLongFrameRead(r: Receiver, f: Frame, rest: seq<Octet>, senderIsLittle: bool)
    requires r.reading == ReadingHeader && |f.payload| == 0x100_0000
    ensures Pump(r, FrameBytes(f, senderIsLittle) + rest)
         == if f.msgType == Pong then (r.(reading := NotReading), f.payload + rest)
            else Pump(r.(answered := r.answered + [[]]), f.payload + rest)
  {
    var bytes := WireBytes(HeaderWord(f.msgType, |f.payload|), senderIsLittle);
    TooLongHeaderRead(r, f.msgType, senderIsLittle);
    FrameBytesThen(f, rest, senderIsLittle);
    hide HeaderWord, WireBytes, WireWord, Pump, JudgeHeader, FrameBytes;
    PumpStep(r, bytes, f.payload + rest);
    var r1 := Complete(r, bytes);
    if f.msgType == Pong {
      assert r1 == r.(reading := NotReading);
      PumpStops(r1, f.payload + rest);
    } else {
      assert r1 == r.(reading := ReadingPayload(Ping, 0));
      PumpStep(r1, [], f.payload + rest);
      assert [] + (f.payload + rest) == f.payload + rest;
      assert Complete(r1, []) == r.(answered := r.answered + [[]]);
    }
  }

  lemma PumpStops(r: Receiver, unread: seq<Octet>)
    requires r.reading == NotReading
    ensures Pump(r, unread) == (r, unread)
  {
  }
}

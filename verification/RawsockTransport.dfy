/** The whole transport: transmit queue, receive loop, and the object that runs both. */
module RawsockTransport {
  import opened Endian
  import opened RawsockHeader
  import opened RawsockReceiver
  import opened Wrappers

  /** Work posted for the user of the transport. */
  datatype Posted = Received(message: seq<Octet>) | RxFailed(error: RxError) | PongReceived

  datatype Transport = Transport(
    nativeIsLittle: bool,
    maxTxLength: nat,
    maxRxLength: nat,
    socketOpen: bool,
    running: bool,
    rxHandler: bool,
    txErrorHandler: bool,
    pingHandler: bool,
    pingFrame: Option<Frame>,
    reading: Reading,
    txQueue: seq<Frame>,
    txFrame: Option<Frame>,
    writing: bool,           // a write operation has not completed yet
    posted: seq<Posted>,
    txErrors: nat,           // calls of the transmit error handler
    accepted: seq<Frame>,    // every frame handed to sendFrame so far
    written: seq<Frame>)     // every frame whose write completed so far

  function Fresh(nativeIsLittle: bool, maxTxLength: nat, maxRxLength: nat): Transport
  {
    Transport(nativeIsLittle, maxTxLength, maxRxLength, true, false, false, false, false, None,
              NotReading, [], None, false, [], 0, [], [])
  }

  // ----- Steps ----------------------------------------------------------------------------

  function Receive(t: Transport): (t': Transport)
    ensures !t'.reading.ReadingPayload? && t'.socketOpen == t.socketOpen
  {
    if t.socketOpen then t.(reading := ReadingHeader) else t.(reading := NotReading)
  }

  function Start(t: Transport): Transport
  {
    Receive(t.(rxHandler := true, txErrorHandler := true)).(running := true)
  }

  predicate ReadyToTransmit(t: Transport)
  {
    t.socketOpen && t.txFrame.None? && t.txQueue != []
  }

  function Transmit(t: Transport): (t': Transport)
    ensures t'.socketOpen == t.socketOpen
  {
    if ReadyToTransmit(t)
    then t.(txFrame := Some(t.txQueue[0]), txQueue := t.txQueue[1..], writing := true)
    else t
  }

  function SendFrame(t: Transport, f: Frame): Transport
  {
    Transmit(t.(txQueue := t.txQueue + [f], accepted := t.accepted + [f]))
  }

  function SendPing(t: Transport, message: seq<Octet>): Transport
  {
    var f := Frame(Ping, message);
    SendFrame(t.(pingHandler := true, pingFrame := Some(f)), f)
  }

  function Close(t: Transport): Transport
  {
    t.(rxHandler := false, txErrorHandler := false, txQueue := [], running := false)
  }

  function WriteDone(t: Transport): Transport
  {
    var done := if t.txFrame.Some? then [t.txFrame.value] else [];
    Transmit(t.(txFrame := None, writing := false, written := t.written + done))
  }

  function WriteFailed(t: Transport): Transport
  {
    t.(txFrame := None, writing := false, txQueue := [], socketOpen := false,
       txErrors := t.txErrors + if t.txErrorHandler then 1 else 0)
  }

  function Cleanup(t: Transport): Transport
  {
    t.(rxHandler := false, txErrorHandler := false, pingHandler := false, reading := NotReading,
       txQueue := [], txFrame := None, pingFrame := None, socketOpen := false)
  }

  function ReadFailed(t: Transport, error: RxError): Transport
  {
    Cleanup(if t.rxHandler then t.(posted := t.posted + [RxFailed(error)]) else t)
  }

  function HeaderRead(t: Transport, bytes: seq<Octet>): Transport
    requires |bytes| == 4
  {
    match JudgeHeader(WireWord(bytes, t.nativeIsLittle), t.maxRxLength)
    case Accept(msgType, length) => t.(reading := ReadingPayload(msgType, length))
    case Reject(error) => ReadFailed(t, error)
  }

  function PongRead(t: Transport, payload: seq<Octet>): Transport
  {
    var answered := t.pingHandler && t.pingFrame.Some? && payload == t.pingFrame.value.payload;
    Receive(if answered then t.(posted := t.posted + [PongReceived], pingHandler := false, pingFrame := None)
            else t.(pingFrame := None))
  }

  function PayloadRead(t: Transport, payload: seq<Octet>): Transport
    requires t.reading.ReadingPayload?
  {
    if !t.running then t.(reading := NotReading)
    else
      match t.reading.msgType
      case Wamp => Receive(if t.rxHandler then t.(posted := t.posted + [Received(payload)]) else t)
      case Ping => Receive(SendFrame(t, Frame(Pong, payload)))
      case Pong => PongRead(t, payload)
  }

  function ReadDone(t: Transport, bytes: seq<Octet>): Transport
    requires t.reading != NotReading && |bytes| == ReadLength(t.reading)
  {
    if t.reading == ReadingHeader then HeaderRead(t, bytes) else PayloadRead(t, bytes)
  }

  // ----- The transmit queue ---------------------------------------------------------------

  function InFlight(t: Transport): seq<Frame>
  {
    if t.txFrame.Some? then [t.txFrame.value] else []
  }

  /** While the socket is open there is one write per frame in flight and none is idle while
      frames wait; until the transport is closed or fails, the frames accepted are those
      written, the one in flight and those queued, in that order; afterwards the frames
      written are still the first ones accepted. */
  predicate Valid(t: Transport)
  {
    && (t.socketOpen ==> (t.writing <==> t.txFrame.Some?))
    && (t.socketOpen && t.txQueue != [] ==> t.txFrame.Some?)
    && (t.socketOpen && t.running ==> t.accepted == t.written + InFlight(t) + t.txQueue)
    && (t.socketOpen ==> t.written + InFlight(t) <= t.accepted)
    && (t.socketOpen && !t.running ==> t.txQueue == [])
    && t.written <= t.accepted
    && (!t.socketOpen ==> t.txFrame.None?)
    && (t.running && t.socketOpen ==> t.rxHandler)
  }

  datatype Event =
    | EvStart
    | EvSend(message: seq<Octet>)
    | EvPing(message: seq<Octet>)
    | EvClose
    | EvWriteDone
    | EvWriteFailed
    | EvRead(bytes: seq<Octet>)
    | EvReadFailed

  /** What the caller and the socket may do in a state. A read may still complete after a failed
      write has released the socket, and a caller may send before it hears of a failure. */
  predicate Possible(t: Transport, e: Event)
  {
    match e
    case EvStart => !t.running && t.reading == NotReading && t.accepted == []
    case EvSend(m) => t.running && |m| <= t.maxTxLength
    case EvPing(m) => t.running && |m| <= t.maxTxLength
    case EvClose => true
    case EvWriteDone => t.writing
    case EvWriteFailed => t.writing
    case EvRead(bytes) => t.reading != NotReading && |bytes| == ReadLength(t.reading)
    case EvReadFailed => t.reading != NotReading
  }

  /** The transport would use a socket that it has released: by sending, which an assertion
      guards against, or by reading the payload of a header that came late. */
  predicate MeetsReleasedSocket(t: Transport, e: Event)
  {
    !t.socketOpen &&
    match e
    case EvSend(_) => true
    case EvPing(_) => true
    case EvRead(bytes) =>
      if t.reading == ReadingHeader then
        |bytes| == 4 && JudgeHeader(WireWord(bytes, t.nativeIsLittle), t.maxRxLength).Accept?
      else t.running && t.reading.ReadingPayload? && t.reading.msgType == Ping
    case _ => false
  }

  predicate Enabled(t: Transport, e: Event)
  {
    Possible(t, e) && !MeetsReleasedSocket(t, e)
  }

  function Step(t: Transport, e: Event): Transport
    requires Enabled(t, e)
  {
    match e
    case EvStart => Start(t)
    case EvSend(m) => SendFrame(t, Frame(Wamp, m))
    case EvPing(m) => SendPing(t, m)
    case EvClose => Close(t)
    case EvWriteDone => WriteDone(t)
    case EvWriteFailed => WriteFailed(t)
    case EvRead(bytes) => ReadDone(t, bytes)
    case EvReadFailed => ReadFailed(t, SocketFailed)
  }

  lemma TransmitKeepsOrder(t: Transport)
    requires t.socketOpen ==> (t.writing <==> t.txFrame.Some?)
    requires t.socketOpen && !t.running ==> t.txQueue == []
    requires t.socketOpen && t.running ==> t.accepted == t.written + InFlight(t) + t.txQueue
    requires t.socketOpen ==> t.written + InFlight(t) <= t.accepted
    requires t.written <= t.accepted && (!t.socketOpen ==> t.txFrame.None?)
    requires t.running && t.socketOpen ==> t.rxHandler
    ensures Valid(Transmit(t))
  {
    if ReadyToTransmit(t) {
      assert t.txQueue == [t.txQueue[0]] + t.txQueue[1..];
      assert t.written + [t.txQueue[0]] + t.txQueue[1..] == t.accepted;
    }
  }

  lemma SendFrameKeepsOrder(t: Transport, f: Frame)
    requires Valid(t) && (t.socketOpen ==> t.running)
    ensures Valid(SendFrame(t, f))
  {
    if t.socketOpen {
      assert t.written + InFlight(t) + (t.txQueue + [f]) == t.accepted + [f];
    }
    TransmitKeepsOrder(t.(txQueue := t.txQueue + [f], accepted := t.accepted + [f]));
  }

  lemma WriteDoneKeepsOrder(t: Transport)
    requires Valid(t)
    ensures Valid(WriteDone(t))
  {
    assert t.written + [] == t.written;
    var t1 := t.(txFrame := None, writing := false, written := t.written + InFlight(t));
    assert t1.written + InFlight(t1) == t1.written;
    TransmitKeepsOrder(t1);
  }

  lemma ReadFailedKeepsOrder(t: Transport, error: RxError)
    requires Valid(t)
    ensures Valid(ReadFailed(t, error))
  {
  }

  lemma ReceiveKeepsOrder(t: Transport)
    requires Valid(t)
    ensures Valid(Receive(t))
  {
  }

  lemma PayloadReadKeepsOrder(t: Transport, payload: seq<Octet>)
    requires Valid(t) && t.reading.ReadingPayload? && (t.running && t.reading.msgType == Ping ==> t.socketOpen)
    ensures Valid(PayloadRead(t, payload))
  {
    if t.running {
      match t.reading.msgType
      case Wamp =>
        ReceiveKeepsOrder(t.(posted := t.posted + [Received(payload)]));
        ReceiveKeepsOrder(t);
        hide Receive;
      case Ping =>
        SendFrameKeepsOrder(t, Frame(Pong, payload));
        ReceiveKeepsOrder(SendFrame(t, Frame(Pong, payload)));
        hide SendFrame, Receive, Valid;
      case Pong =>
        ReceiveKeepsOrder(t.(posted := t.posted + [PongReceived], pingHandler := false, pingFrame := None));
        ReceiveKeepsOrder(t.(pingFrame := None));
        hide Receive;
    }
  }

  lemma ReadKeepsOrder(t: Transport, bytes: seq<Octet>)
    requires Valid(t) && Enabled(t, EvRead(bytes))
    ensures Valid(ReadDone(t, bytes))
  {
    if t.reading == ReadingHeader {
      hide WireWord, ReadFailed;
      var verdict := JudgeHeader(WireWord(bytes, t.nativeIsLittle), t.maxRxLength);
      hide JudgeHeader;
      if verdict.Reject? {
        ReadFailedKeepsOrder(t, verdict.error);
      }
    } else {
      PayloadReadKeepsOrder(t, bytes);
    }
  }

  lemma StepKeepsValid(t: Transport, e: Event)
    requires Valid(t) && Enabled(t, e)
    ensures Valid(Step(t, e))
  {
    hide ReadDone, SendFrame, WriteDone;
    match e
    case EvSend(m) => SendFrameKeepsOrder(t, Frame(Wamp, m));
    case EvPing(m) => SendFrameKeepsOrder(t.(pingHandler := true, pingFrame := Some(Frame(Ping, m))), Frame(Ping, m));
    case EvWriteDone => WriteDoneKeepsOrder(t);
    case EvRead(bytes) => ReadKeepsOrder(t, bytes);
    case _ =>
  }

  /** A run is a list of events, each possible when it happens. */
  predicate CanRun(t: Transport, events: seq<Event>)
    decreases |events|
  {
    events == [] || (Enabled(t, events[0]) && CanRun(Step(t, events[0]), events[1..]))
  }

  function Run(t: Transport, events: seq<Event>): Transport
    requires CanRun(t, events)
    decreases |events|
  {
    if events == [] then t else Run(Step(t, events[0]), events[1..])
  }

  lemma {:induction false} RunKeepsValid(t: Transport, events: seq<Event>)
    requires Valid(t) && CanRun(t, events)
    ensures Valid(Run(t, events))
    decreases |events|
  {
    if events != [] {
      StepKeepsValid(t, events[0]);
      RunKeepsValid(Step(t, events[0]), events[1..]);
    }
  }

  /** Transmission is first in, first out and never idle: after any run of a transport that
      is still running on an open socket. */
  lemma TransmissionIsFifo(nativeIsLittle: bool, maxTxLength: nat, maxRxLength: nat, events: seq<Event>)
    requires CanRun(Fresh(nativeIsLittle, maxTxLength, maxRxLength), events)
    ensures var t := Run(Fresh(nativeIsLittle, maxTxLength, maxRxLength), events);
            && t.written <= t.accepted
            && (t.socketOpen && t.running ==> t.accepted == t.written + InFlight(t) + t.txQueue)
            && (t.socketOpen && t.txQueue != [] ==> t.writing)
  {
    RunKeepsValid(Fresh(nativeIsLittle, maxTxLength, maxRxLength), events);
  }

  // ----- Released sockets -----------------------------------------------------------------

  /** The socket is released by a failed write, a failed read, and a header that is refused. */
  predicate Releases(t: Transport, e: Event)
  {
    match e
    case EvWriteFailed => true
    case EvReadFailed => true
    case EvRead(bytes) =>
      t.reading == ReadingHeader && |bytes| == 4
      && JudgeHeader(WireWord(bytes, t.nativeIsLittle), t.maxRxLength).Reject?
    case _ => false
  }

  lemma PayloadKeepsSocket(t: Transport, payload: seq<Octet>)
    requires t.reading.ReadingPayload?
    ensures PayloadRead(t, payload).socketOpen == t.socketOpen
  {
    hide Receive, Transmit;
  }

  lemma SocketReleasedIff(t: Transport, e: Event)
    requires Enabled(t, e)
    ensures Step(t, e).socketOpen <==> t.socketOpen && !Releases(t, e)
  {
    hide WireWord, JudgeHeader, Transmit, Receive, PayloadRead;
    if e.EvRead? && t.reading != ReadingHeader {
      PayloadKeepsSocket(t, e.bytes);
    }
  }

  /** No event of the run releases the socket. */
  predicate NeverReleases(t: Transport, events: seq<Event>)
    requires CanRun(t, events)
    decreases |events|
  {
    events == [] || (!Releases(t, events[0]) && NeverReleases(Step(t, events[0]), events[1..]))
  }

  lemma {:induction false} RunReleasedIff(t: Transport, events: seq<Event>)
    requires CanRun(t, events)
    ensures Run(t, events).socketOpen <==> t.socketOpen && NeverReleases(t, events)
    decreases |events|
  {
    if events != [] {
      SocketReleasedIff(t, events[0]);
      hide Step, Enabled, Releases;
      RunReleasedIff(Step(t, events[0]), events[1..]);
    }
  }

  /** After every run, the transport can come to use a released socket if and only if an
      operation failed during the run and either the transport is running, so that a caller may
      still send, or a header is still being read. */
  lemma ReleasedSocketMetIff(nativeIsLittle: bool, maxTxLength: nat, maxRxLength: nat, events: seq<Event>)
    requires CanRun(Fresh(nativeIsLittle, maxTxLength, maxRxLength), events)
    ensures var t := Run(Fresh(nativeIsLittle, maxTxLength, maxRxLength), events);
            (exists e :: Possible(t, e) && MeetsReleasedSocket(t, e)) <==>
            !NeverReleases(Fresh(nativeIsLittle, maxTxLength, maxRxLength), events)
            && (t.running || t.reading == ReadingHeader)
  {
    var t := Run(Fresh(nativeIsLittle, maxTxLength, maxRxLength), events);
    RunReleasedIff(Fresh(nativeIsLittle, maxTxLength, maxRxLength), events);
    hide Run, CanRun, NeverReleases;
    if !t.socketOpen && t.running {
      assert Possible(t, EvSend([])) && MeetsReleasedSocket(t, EvSend([]));
    } else if !t.socketOpen && t.reading == ReadingHeader {
      var bytes := AcceptedHeader(t);
      assert Possible(t, EvRead(bytes)) && MeetsReleasedSocket(t, EvRead(bytes));
    }
  }

  lemma AcceptedHeader(t: Transport) returns (bytes: seq<Octet>)
    ensures |bytes| == 4 && JudgeHeader(WireWord(bytes, t.nativeIsLittle), t.maxRxLength).Accept?
  {
    bytes := WireBytes(HeaderWord(Wamp, 0), t.nativeIsLittle);
    WireRoundTrip(HeaderWord(Wamp, 0), t.nativeIsLittle, t.nativeIsLittle);
    HeaderIsFaithful(Wamp, 0);
    hide WireWord, WireBytes, HeaderWord;
  }

  /** A late header after a failed write is such a use; a run leads there. */
  lemma ReleasedSocketIsReachable(nativeIsLittle: bool, maxTxLength: nat, maxRxLength: nat) returns (bytes: seq<Octet>)
    ensures var t0, events := Fresh(nativeIsLittle, maxTxLength, maxRxLength), [EvStart, EvSend([]), EvWriteFailed];
            && CanRun(t0, events)
            && Possible(Run(t0, events), EvRead(bytes)) && MeetsReleasedSocket(Run(t0, events), EvRead(bytes))
  {
    var t0 := Fresh(nativeIsLittle, maxTxLength, maxRxLength);
    var t1 := Start(t0);
    var t2 := SendFrame(t1, Frame(Wamp, []));
    var t3 := WriteFailed(t2);
    assert t2.writing && t3.reading == ReadingHeader && !t3.socketOpen;
    var events := [EvStart, EvSend([]), EvWriteFailed];
    assert events[1..] == [EvSend([]), EvWriteFailed] && events[1..][1..] == [EvWriteFailed];
    assert [EvWriteFailed][1..] == [];
    bytes := AcceptedHeader(t3);
    hide SendFrame, JudgeHeader, WireWord;
    assert CanRun(t2, [EvWriteFailed]) && Run(t2, [EvWriteFailed]) == t3;
    assert CanRun(t1, events[1..]) && Run(t1, events[1..]) == t3;
  }

  // ----- The receive loop within the transport --------------------------------------------

  function Messages(posted: seq<Posted>): seq<seq<Octet>>
  {
    if posted == [] then []
    else (if posted[0].Received? then [posted[0].message] else []) + Messages(posted[1..])
  }

  lemma {:induction false} MessagesAppend(posted: seq<Posted>, p: Posted)
    ensures Messages(posted + [p]) == if p.Received? then Messages(posted) + [p.message] else Messages(posted)
  {
    if posted == [] {
      assert [p][1..] == [];
    } else {
      assert (posted + [p])[0] == posted[0] && (posted + [p])[1..] == posted[1..] + [p];
      MessagesAppend(posted[1..], p);
    }
  }

  lemma {:induction false} PayloadsAppend(frames: seq<Frame>, f: Frame, t: MsgType)
    ensures Payloads(frames + [f], t)
      == if f.msgType == t then Payloads(frames, t) + [f.payload] else Payloads(frames, t)
    decreases frames
  {
    if frames == [] {
      assert [f][1..] == [];
    } else {
      assert (frames + [f])[0] == frames[0] && (frames + [f])[1..] == frames[1..] + [f];
      PayloadsAppend(frames[1..], f, t);
      var head := if frames[0].msgType == t then [frames[0].payload] else [];
      assert Payloads(frames + [f], t) == head + Payloads(frames[1..] + [f], t);
      if f.msgType == t {
        RawsockReceiver.Regroup(head, Payloads(frames[1..], t), [f.payload]);
      }
    }
  }

  /** The transport as seen by the sender of the bytes it receives. */
  function View(t: Transport): Receiver
  {
    Receiver(t.nativeIsLittle, t.maxRxLength,
             if t.socketOpen && t.running then t.reading else NotReading,
             Messages(t.posted), Payloads(t.accepted, Pong))
  }

  /** What a read changes besides the view: it accepts nothing but pongs. */
  predicate StaysConnected(t: Transport, t1: Transport)
  {
    && (t1.socketOpen ==> t1.running) && (!t1.socketOpen ==> t1.reading == NotReading)
    && t1.maxTxLength == t.maxTxLength
    && (forall f :: f in t1.accepted && f.msgType != Pong ==> f in t.accepted)
  }

  lemma HeaderReadRefines(t: Transport, bytes: seq<Octet>)
    requires t.socketOpen && t.running && t.reading == ReadingHeader && |bytes| == 4
    ensures View(HeaderRead(t, bytes)) == Complete(View(t), bytes)
    ensures StaysConnected(t, HeaderRead(t, bytes))
  {
    var verdict := JudgeHeader(WireWord(bytes, t.nativeIsLittle), t.maxRxLength);
    hide WireWord, JudgeHeader;
    if verdict.Reject? {
      MessagesAppend(t.posted, RxFailed(verdict.error));
    }
    hide Messages, Payloads;
  }

  lemma SendFrameView(t: Transport, f: Frame)
    ensures View(SendFrame(t, f)) ==
            if f.msgType == Pong then View(t).(answered := View(t).answered + [f.payload]) else View(t)
    ensures SendFrame(t, f).socketOpen == t.socketOpen && SendFrame(t, f).running == t.running
  {
    PayloadsAppend(t.accepted, f, Pong);
    hide Messages, Payloads;
  }

  lemma ReceiveView(t: Transport)
    requires t.socketOpen && t.running
    ensures View(Receive(t)) == View(t).(reading := ReadingHeader)
  {
  }

  lemma SendPongStaysConnected(t: Transport, f: Frame)
    requires t.socketOpen && t.running && f.msgType == Pong
    ensures StaysConnected(t, Receive(SendFrame(t, f)))
  {
    var sent := SendFrame(t, f);
    assert sent.accepted == t.accepted + [f] && sent.socketOpen && sent.running && sent.maxTxLength == t.maxTxLength;
    hide SendFrame;
  }

  lemma PayloadReadStaysConnected(t: Transport, bytes: seq<Octet>)
    requires t.socketOpen && t.running && t.reading.ReadingPayload?
    ensures StaysConnected(t, PayloadRead(t, bytes))
  {
    hide SendFrame;
    if t.reading.msgType == Ping {
      SendPongStaysConnected(t, Frame(Pong, bytes));
      hide Receive, StaysConnected;
    }
  }

  lemma PayloadReadRefines(t: Transport, bytes: seq<Octet>)
    requires t.socketOpen && t.running && t.rxHandler && t.reading.ReadingPayload? && |bytes| == t.reading.length
    ensures View(PayloadRead(t, bytes)) == Complete(View(t), bytes)
  {
    match t.reading.msgType
    case Wamp =>
      var t1 := t.(posted := t.posted + [Received(bytes)]);
      MessagesAppend(t.posted, Received(bytes));
      ReceiveView(t1);
      hide Messages, Payloads, Receive;
    case Ping =>
      SendFrameView(t, Frame(Pong, bytes));
      ReceiveView(SendFrame(t, Frame(Pong, bytes)));
      hide Messages, Payloads, Receive, SendFrame;
    case Pong =>
      MessagesAppend(t.posted, PongReceived);
      hide Messages, Payloads;
  }

  // ----- A whole connection ---------------------------------------------------------------

  /** Completes reads of the transport for as long as the bytes that have arrived allow. */
  function PumpTransport(t: Transport, unread: seq<Octet>): (Transport, seq<Octet>)
    decreases Progress(t.reading, |unread|)
  {
    if t.socketOpen && CanRead(t.reading, |unread|) then
      var n := ReadLength(t.reading);
      var t1 := ReadDone(t, unread[..n]);
      ReadMakesProgress(t, unread[..n], |unread| - n);
      PumpTransport(t1, unread[n..])
    else (t, unread)
  }

  lemma PayloadReadEndsPayload(t: Transport, payload: seq<Octet>)
    requires t.reading.ReadingPayload?
    ensures !PayloadRead(t, payload).reading.ReadingPayload?
  {
    hide SendFrame, Receive;
  }

  lemma ReadMakesProgress(t: Transport, bytes: seq<Octet>, left: nat)
    requires t.reading != NotReading && |bytes| == ReadLength(t.reading)
    ensures Progress(ReadDone(t, bytes).reading, left) < Progress(t.reading, |bytes| + left)
  {
    if t.reading.ReadingPayload? {
      PayloadReadEndsPayload(t, bytes);
    }
    hide HeaderRead, PayloadRead;
  }

  /** What happens to a connection that nobody closes and whose socket does not fail. */
  datatype NetEvent =
    | Arrive(chunk: seq<Octet>)        // some bytes of the stream, cut anywhere
    | AskSend(message: seq<Octet>)
    | AskPing(message: seq<Octet>)
    | Written

  predicate CanHappen(t: Transport, e: NetEvent)
  {
    match e
    case Arrive(_) => true
    case AskSend(m) => Enabled(t, EvSend(m))
    case AskPing(m) => Enabled(t, EvPing(m))
    case Written => Enabled(t, EvWriteDone)
  }

  function NetStep(t: Transport, unread: seq<Octet>, e: NetEvent): (Transport, seq<Octet>)
    requires CanHappen(t, e)
  {
    match e
    case Arrive(chunk) => PumpTransport(t, unread + chunk)
    case AskSend(m) => (Step(t, EvSend(m)), unread)
    case AskPing(m) => (Step(t, EvPing(m)), unread)
    case Written => (Step(t, EvWriteDone), unread)
  }

  predicate CanNetRun(t: Transport, unread: seq<Octet>, events: seq<NetEvent>)
    decreases |events|
  {
    events == [] ||
    (CanHappen(t, events[0]) &&
     var (t1, rest) := NetStep(t, unread, events[0]); CanNetRun(t1, rest, events[1..]))
  }

  function NetRun(t: Transport, unread: seq<Octet>, events: seq<NetEvent>): (Transport, seq<Octet>)
    requires CanNetRun(t, unread, events)
    decreases |events|
  {
    if events == [] then (t, unread)
    else var (t1, rest) := NetStep(t, unread, events[0]); NetRun(t1, rest, events[1..])
  }

  function Stream(events: seq<NetEvent>): seq<Octet>
  {
    if events == [] then []
    else (if events[0].Arrive? then events[0].chunk else []) + Stream(events[1..])
  }

  /** Frames that are not answers to pings were checked against the peer's limit by the caller. */
  predicate CallerFramesFit(t: Transport)
  {
    forall f :: f in t.accepted && f.msgType != Pong ==> |f.payload| <= t.maxTxLength
  }

  predicate Connected(t: Transport)
  {
    Valid(t) && (t.socketOpen ==> t.running) && (!t.socketOpen ==> t.reading == NotReading) && CallerFramesFit(t)
  }

  lemma ReadKeepsConnected(t: Transport, bytes: seq<Octet>)
    requires Connected(t) && t.socketOpen && t.reading != NotReading && |bytes| == ReadLength(t.reading)
    ensures Connected(ReadDone(t, bytes)) && View(ReadDone(t, bytes)) == Complete(View(t), bytes)
    ensures ReadDone(t, bytes).maxTxLength == t.maxTxLength
  {
    ReadKeepsOrder(t, bytes);
    assert Valid(t) && t.running && t.rxHandler;
    if t.reading == ReadingHeader {
      HeaderReadRefines(t, bytes);
      hide Valid, View, Complete, HeaderRead;
    } else {
      PayloadReadRefines(t, bytes);
      PayloadReadStaysConnected(t, bytes);
      hide Valid, View, Complete, PayloadRead;
    }
  }

  lemma {:induction false} PumpRefines(t: Transport, unread: seq<Octet>)
    requires Connected(t)
    ensures var (t1, rest) := PumpTransport(t, unread);
            Connected(t1) && t1.maxTxLength == t.maxTxLength
            && (View(t1), rest) == Pump(View(t), unread) && !CanRead(View(t1).reading, |rest|)
    decreases Progress(t.reading, |unread|)
  {
    if t.socketOpen && CanRead(t.reading, |unread|) {
      var n := ReadLength(t.reading);
      ReadKeepsConnected(t, unread[..n]);
      ReadMakesProgress(t, unread[..n], |unread| - n);
      PumpRefines(ReadDone(t, unread[..n]), unread[n..]);
      hide Valid, CallerFramesFit, ReadDone, Complete, Messages, Payloads;
    }
  }

  lemma TransmittingIsInvisible(t: Transport, unread: seq<Octet>, e: NetEvent)
    requires Connected(t) && CanHappen(t, e) && !e.Arrive?
    ensures var t1 := NetStep(t, unread, e).0;
            Connected(t1) && View(t1) == View(t) && t1.maxTxLength == t.maxTxLength
  {
    match e
    case AskSend(m) =>
      SendFrameView(t, Frame(Wamp, m));
      SendFrameKeepsOrder(t, Frame(Wamp, m));
      hide View, Valid;
    case AskPing(m) =>
      var f := Frame(Ping, m);
      var t1 := t.(pingHandler := true, pingFrame := Some(f));
      SendFrameView(t1, f);
      SendFrameKeepsOrder(t1, f);
      assert View(t1) == View(t);
      hide View, Valid;
    case Written =>
      WriteDoneKeepsOrder(t);
      hide Valid;
  }

  lemma {:induction false} NetRunRefines(t: Transport, unread: seq<Octet>, events: seq<NetEvent>)
    requires Connected(t) && !CanRead(View(t).reading, |unread|) && CanNetRun(t, unread, events)
    ensures var (t1, rest) := NetRun(t, unread, events);
            Connected(t1) && t1.maxTxLength == t.maxTxLength
            && (View(t1), rest) == Pump(View(t), unread + Stream(events))
    decreases |events|
  {
    hide Connected, View, PumpTransport, Step, Enabled, CanRead;
    if events == [] {
      assert unread + [] == unread;
      PumpStuck(View(t), unread);
    } else {
      var e := events[0];
      var (t1, rest) := NetStep(t, unread, e);
      NetStepRefines(t, unread, e, Stream(events[1..]));
      hide Pump, NetStep, CanHappen;
      NetRunRefines(t1, rest, events[1..]);
    }
  }

  lemma PumpStuck(r: Receiver, unread: seq<Octet>)
    requires !CanRead(r.reading, |unread|)
    ensures Pump(r, unread) == (r, unread)
  {
  }

  lemma NetStepRefines(t: Transport, unread: seq<Octet>, e: NetEvent, later: seq<Octet>)
    requires Connected(t) && !CanRead(View(t).reading, |unread|) && CanHappen(t, e)
    ensures var (t1, rest) := NetStep(t, unread, e);
            && Connected(t1) && t1.maxTxLength == t.maxTxLength && !CanRead(View(t1).reading, |rest|)
            && Pump(View(t1), rest + later)
            == Pump(View(t), unread + ((if e.Arrive? then e.chunk else []) + later))
  {
    hide Connected, View, Pump, PumpTransport, Step, Enabled, CanRead;
    if e.Arrive? {
      PumpRefines(t, unread + e.chunk);
      PumpComposes(View(t), unread + e.chunk, later);
      assert unread + (e.chunk + later) == unread + e.chunk + later;
    } else {
      TransmittingIsInvisible(t, unread, e);
      assert [] + later == later;
    }
  }

  /** The bytes of any frames that fit, cut into any chunks, arriving between any sends, pings
      and write completions: exactly the WAMP payloads are delivered and exactly the ping
      payloads are answered, in order, and the transport waits for the next header. */
  lemma ConnectionDeliversFrames(t0: Transport, frames: seq<Frame>, events: seq<NetEvent>, senderIsLittle: bool,
                                 receiverIsLittle: bool, maxTxLength: nat, maxRxLength: nat)
    requires t0 == Start(Fresh(receiverIsLittle, maxTxLength, maxRxLength))
    requires forall f :: f in frames ==> Acceptable(f, maxRxLength)
    requires CanNetRun(t0, [], events) && Stream(events) == Wire(frames, senderIsLittle)
    ensures var (t, unread) := NetRun(t0, [], events);
            && Messages(t.posted) == Payloads(frames, Wamp)
            && Payloads(t.accepted, Pong) == Payloads(frames, Ping)
            && t.socketOpen && t.reading == ReadingHeader && unread == []
            // the limit check of sendFrame held all along exactly when every ping could be echoed
            && ((forall f :: f in t.accepted ==> |f.payload| <= maxTxLength) <==>
                (forall f :: f in frames && f.msgType == Ping ==> |f.payload| <= maxTxLength))
  {
    NetRunRefines(t0, [], events);
    WireRead(View(t0), frames, senderIsLittle);
    assert [] + Stream(events) == Stream(events);
    assert View(t0).delivered + Payloads(frames, Wamp) == Payloads(frames, Wamp);
    assert View(t0).answered + Payloads(frames, Ping) == Payloads(frames, Ping);
    var t := NetRun(t0, [], events).0;
    PayloadsAreMembers(t.accepted, Pong);
    PayloadsAreMembers(frames, Ping);
    assert CallerFramesFit(t);
    hide Pump, NetRun, CanNetRun, Payloads, Messages, Wire, Stream;
    if forall f :: f in frames && f.msgType == Ping ==> |f.payload| <= maxTxLength {
      forall f | f in t.accepted && f.msgType == Pong ensures |f.payload| <= maxTxLength {
        assert f.payload in Payloads(frames, Ping);
      }
    }
    if forall f :: f in t.accepted ==> |f.payload| <= maxTxLength {
      forall f | f in frames && f.msgType == Ping ensures |f.payload| <= maxTxLength {
        assert f.payload in Payloads(t.accepted, Pong);
      }
    }
  }

  lemma {:induction false} PayloadsAreMembers(frames: seq<Frame>, t: MsgType)
    ensures forall p :: p in Payloads(frames, t) <==> Frame(t, p) in frames
  {
    if frames != [] {
      PayloadsAreMembers(frames[1..], t);
      assert frames == [frames[0]] + frames[1..];
    }
  }

  // ----- The transport object -------------------------------------------------------------

  class SocketTransport {
    const nativeIsLittle: bool
    const maxTxLength: nat
    const maxRxLength: nat
    var socketOpen: bool
    var running: bool
    var rxHandler: bool
    var txErrorHandler: bool
    var pingHandler: bool
    var pingFrame: Option<Frame>
    var reading: Reading
    var txQueue: seq<Frame>
    var txFrame: Option<Frame>
    var writing: bool
    var posted: seq<Posted>
    var txErrors: nat
    ghost var accepted: seq<Frame>
    ghost var written: seq<Frame>

    ghost function State(): Transport
      reads this
    {
      Transport(nativeIsLittle, maxTxLength, maxRxLength, socketOpen, running, rxHandler, txErrorHandler,
                pingHandler, pingFrame, reading, txQueue, txFrame, writing, posted, txErrors, accepted, written)
    }

    constructor (nativeIsLittle: bool, maxTxLength: nat, maxRxLength: nat)
      ensures State() == Fresh(nativeIsLittle, maxTxLength, maxRxLength) && Valid(State())
    {
      this.nativeIsLittle, this.maxTxLength, this.maxRxLength := nativeIsLittle, maxTxLength, maxRxLength;
      socketOpen, running, rxHandler, txErrorHandler, pingHandler := true, false, false, false, false;
      pingFrame, reading, txQueue, txFrame, writing := None, NotReading, [], None, false;
      posted, txErrors, accepted, written := [], 0, [], [];
    }

    method StartUp()
      requires Valid(State()) && Enabled(State(), EvStart)
      modifies this
      ensures State() == Start(old(State())) && Valid(State())
    {
      StepKeepsValid(State(), EvStart);
      rxHandler, txErrorHandler := true, true;
      ReceiveNext();
      running := true;
    }

    method Send(message: seq<Octet>)
      requires Valid(State()) && Enabled(State(), EvSend(message))
      modifies this
      ensures State() == SendFrame(old(State()), Frame(Wamp, message)) && Valid(State())
    {
      StepKeepsValid(State(), EvSend(message));
      Enqueue(Frame(Wamp, message));
    }

    method PingPeer(message: seq<Octet>)
      requires Valid(State()) && Enabled(State(), EvPing(message))
      modifies this
      ensures State() == SendPing(old(State()), message) && Valid(State())
    {
      StepKeepsValid(State(), EvPing(message));
      pingHandler := true;
      var f := Frame(Ping, message);
      pingFrame := Some(f);
      Enqueue(f);
    }

    method CloseSocket()
      requires Valid(State())
      modifies this
      ensures State() == Close(old(State())) && Valid(State())
    {
      StepKeepsValid(State(), EvClose);
      rxHandler, txErrorHandler := false, false;
      txQueue := [];
      running := false;
    }

    method Enqueue(f: Frame)
      modifies this
      ensures State() == SendFrame(old(State()), f)
    {
      txQueue := txQueue + [f];
      accepted := accepted + [f];
      TransmitNext();
    }

    method TransmitNext()
      modifies this
      ensures State() == Transmit(old(State()))
    {
      if socketOpen && txFrame.None? && txQueue != [] {
        txFrame := Some(txQueue[0]);
        txQueue := txQueue[1..];
        writing := true;
      }
    }

    /** The write of the frame in flight completed. */
    method OnWritten()
      requires Valid(State()) && writing
      modifies this
      ensures State() == WriteDone(old(State())) && Valid(State())
    {
      StepKeepsValid(State(), EvWriteDone);
      hide Valid;
      writing := false;
      written := written + if txFrame.Some? then [txFrame.value] else [];
      txFrame := None;
      TransmitNext();
    }

    method OnWriteError()
      requires Valid(State()) && writing
      modifies this
      ensures State() == WriteFailed(old(State())) && Valid(State())
    {
      StepKeepsValid(State(), EvWriteFailed);
      hide Valid;
      writing := false;
      DropFrames();
      if txErrorHandler {
        txErrors := txErrors + 1;
      }
      socketOpen := false;
    }

    method ReceiveNext()
      modifies this`reading
      ensures State() == Receive(old(State()))
    {
      reading := if socketOpen then ReadingHeader else NotReading;
    }

    method OnHeader(bytes: seq<Octet>)
      requires Valid(State()) && reading == ReadingHeader && Enabled(State(), EvRead(bytes))
      modifies this
      ensures State() == ReadDone(old(State()), bytes) && Valid(State())
    {
      hide WireWord;
      StepKeepsValid(State(), EvRead(bytes));
      hide Valid;
      var hdr := WireWord(bytes, nativeIsLittle);
      if LengthField(hdr) > maxRxLength {
        FailReading(BadRxLength);
      } else if MsgTypeField(hdr) == Code(Wamp) {
        reading := ReadingPayload(Wamp, LengthField(hdr));
      } else if MsgTypeField(hdr) == Code(Ping) {
        reading := ReadingPayload(Ping, LengthField(hdr));
      } else if MsgTypeField(hdr) == Code(Pong) {
        reading := ReadingPayload(Pong, LengthField(hdr));
      } else {
        FailReading(BadMessageType);
      }
    }

    method OnPayload(payload: seq<Octet>)
      requires Valid(State()) && reading.ReadingPayload? && Enabled(State(), EvRead(payload))
      modifies this
      ensures State() == ReadDone(old(State()), payload) && Valid(State())
    {
      StepKeepsValid(State(), EvRead(payload));
      assert |payload| == ReadLength(reading);
      hide Valid, Enabled, SendFrame, PongRead;
      if !running {
        reading := NotReading;
        return;
      }
      match reading.msgType {
        case Wamp =>
          if rxHandler {
            posted := posted + [Received(payload)];
          }
          ReceiveNext();
        case Ping =>
          Enqueue(Frame(Pong, payload));
          ReceiveNext();
        case Pong =>
          OnPong(payload);
      }
    }

    /** The payload is compared with that of the outstanding ping. */
    method OnPong(payload: seq<Octet>)
      modifies this
      ensures State() == PongRead(old(State()), payload)
    {
      if pingHandler && pingFrame.Some? && payload == pingFrame.value.payload {
        posted := posted + [PongReceived];
        pingHandler := false;
      }
      pingFrame := None;
      ReceiveNext();
    }

    method OnReadError()
      requires Valid(State()) && reading != NotReading
      modifies this
      ensures State() == ReadFailed(old(State()), SocketFailed) && Valid(State())
    {
      StepKeepsValid(State(), EvReadFailed);
      FailReading(SocketFailed);
    }

    method FailReading(error: RxError)
      modifies this
      ensures State() == ReadFailed(old(State()), error)
    {
      if rxHandler {
        posted := posted + [RxFailed(error)];
      }
      CleanUp();
    }

    method CleanUp()
      modifies this
      ensures State() == Cleanup(old(State()))
    {
      DropHandlers();
      reading, pingFrame := NotReading, None;
      DropFrames();
      socketOpen := false;
    }

    method DropHandlers()
      modifies this`rxHandler, this`txErrorHandler, this`pingHandler
      ensures !rxHandler && !txErrorHandler && !pingHandler
    {
      rxHandler, txErrorHandler, pingHandler := false, false, false;
    }

    method DropFrames()
      modifies this`txQueue, this`txFrame
      ensures txQueue == [] && txFrame == None
    {
      txQueue, txFrame := [], None;
    }
  }
}

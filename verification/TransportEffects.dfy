/** What each event does to the transport, told by its result alone: what is posted, accepted and
    written, what is read next, and who is told of errors; and, over whole runs, how pings are
    reported and that a closed transport is silent. */
module TransportEffects {
  import opened Endian
  import opened RawsockHeader
  import opened RawsockReceiver
  import opened RawsockLayout
  import opened RawsockTransport
  import opened Wrappers

  // ----- One event ------------------------------------------------------------------------

  /** The ping whose answer is waited for. */
  predicate Awaits(t: Transport, payload: seq<Octet>)
  {
    t.pingHandler && t.pingFrame.Some? && t.pingFrame.value.payload == payload
  }

  /** A header that is not accepted. */
  predicate Refused(t: Transport, bytes: seq<Octet>)
    requires |bytes| == 4
  {
    LengthOf(bytes) > t.maxRxLength || bytes[0] > 2
  }

  function RefusedWith(t: Transport, bytes: seq<Octet>): RxError
    requires |bytes| == 4
  {
    if LengthOf(bytes) > t.maxRxLength then BadRxLength else BadMessageType
  }

  function TypeNumbered(n: nat): MsgType
    requires n <= 2
  {
    if n == 0 then Wamp else if n == 1 then Ping else Pong
  }

  /** What the user of the transport hears of. */
  function PostedBy(t: Transport, e: Event): seq<Posted>
    requires Enabled(t, e)
  {
    match e
    case EvReadFailed => if t.rxHandler then [RxFailed(SocketFailed)] else []
    case EvRead(bytes) =>
      if t.reading == ReadingHeader then
        if t.rxHandler && Refused(t, bytes) then [RxFailed(RefusedWith(t, bytes))] else []
      else if !t.running then []
      else if t.reading.msgType == Wamp && t.rxHandler then [Received(bytes)]
      else if t.reading.msgType == Pong && Awaits(t, bytes) then [PongReceived]
      else []
    case _ => []
  }

  /** The frame to be transmitted on account of an event. */
  function AcceptedBy(t: Transport, e: Event): seq<Frame>
  {
    match e
    case EvSend(m) => [Frame(Wamp, m)]
    case EvPing(m) => [Frame(Ping, m)]
    case EvRead(bytes) =>
      if t.running && t.reading.ReadingPayload? && t.reading.msgType == Ping then [Frame(Pong, bytes)] else []
    case _ => []
  }

  function NextRead(t: Transport): Reading
  {
    if t.socketOpen then ReadingHeader else NotReading
  }

  function ReadAfter(t: Transport, e: Event): Reading
    requires Enabled(t, e)
  {
    match e
    case EvStart => NextRead(t)
    case EvReadFailed => NotReading
    case EvRead(bytes) =>
      if t.reading == ReadingHeader then
        if Refused(t, bytes) then NotReading else ReadingPayload(TypeNumbered(bytes[0]), LengthOf(bytes))
      else if t.running then NextRead(t)
      else NotReading
    case _ => t.reading
  }

  /** A read failed, or brought a header that is refused. */
  predicate EndsReading(t: Transport, e: Event)
    requires Enabled(t, e)
  {
    e.EvReadFailed? || (e.EvRead? && t.reading == ReadingHeader && Refused(t, e.bytes))
  }

  predicate ReadsPong(t: Transport, e: Event)
  {
    e.EvRead? && t.running && t.reading.ReadingPayload? && t.reading.msgType == Pong
  }

  /** The handlers an event leaves installed, and the ping that waits. */
  ghost predicate HandlersFollow(t: Transport, e: Event, t1: Transport)
    requires Enabled(t, e)
  {
    && t1.running == (e.EvStart? || (t.running && !e.EvClose?))
    && t1.rxHandler == (e.EvStart? || (t.rxHandler && !e.EvClose? && !EndsReading(t, e)))
    && t1.txErrorHandler == (e.EvStart? || (t.txErrorHandler && !e.EvClose? && !EndsReading(t, e)))
    && (forall p :: Awaits(t1, p) <==>
          if e.EvPing? then p == e.message else Awaits(t, p) && !ReadsPong(t, e) && !EndsReading(t, e))
  }

  ghost predicate Follows(t: Transport, e: Event, t1: Transport)
    requires Enabled(t, e)
  {
    && t1.posted == t.posted + PostedBy(t, e)
    && t1.accepted == t.accepted + AcceptedBy(t, e)
    && t1.written == t.written + (if e.EvWriteDone? then InFlight(t) else [])
    && t1.txErrors == t.txErrors + (if e.EvWriteFailed? && t.txErrorHandler then 1 else 0)
    && t1.reading == ReadAfter(t, e)
    && HandlersFollow(t, e, t1)
  }

  lemma Unchanged(t: Transport)
    ensures t.posted + [] == t.posted && t.accepted + [] == t.accepted && t.written + [] == t.written
  {
  }

  /** Starting a write touches nothing that is told here. */
  lemma TransmitIsApart(t: Transport)
    ensures var t1 := Transmit(t);
            t1 == t.(txFrame := t1.txFrame, txQueue := t1.txQueue, writing := t1.writing)
  {
  }

  lemma HeaderOutcome(t: Transport, bytes: seq<Octet>)
    requires |bytes| == 4
    ensures RawsockTransport.HeaderRead(t, bytes) ==
            if Refused(t, bytes) then ReadFailed(t, RefusedWith(t, bytes))
            else t.(reading := ReadingPayload(TypeNumbered(bytes[0]), LengthOf(bytes)))
  {
    HeaderJudged(bytes, t.nativeIsLittle, t.maxRxLength);
    hide WireWord, LengthOf, JudgeHeader, ReadFailed;
  }

  lemma AcceptedFollows(t: Transport, bytes: seq<Octet>)
    requires Enabled(t, EvRead(bytes)) && t.reading == ReadingHeader && !Refused(t, bytes)
    ensures Follows(t, EvRead(bytes), t.(reading := ReadingPayload(TypeNumbered(bytes[0]), LengthOf(bytes))))
  {
    Unchanged(t);
    hide Enabled, Refused, RefusedWith, TypeNumbered, LengthOf;
  }

  lemma RefusedFollows(t: Transport, bytes: seq<Octet>)
    requires Enabled(t, EvRead(bytes)) && t.reading == ReadingHeader && Refused(t, bytes)
    ensures Follows(t, EvRead(bytes), ReadFailed(t, RefusedWith(t, bytes)))
  {
    Unchanged(t);
    hide Enabled, Refused, RefusedWith, TypeNumbered, LengthOf;
  }

  lemma HeaderFollows(t: Transport, bytes: seq<Octet>)
    requires Enabled(t, EvRead(bytes)) && t.reading == ReadingHeader
    ensures Follows(t, EvRead(bytes), RawsockTransport.HeaderRead(t, bytes))
  {
    HeaderOutcome(t, bytes);
    hide RawsockTransport.HeaderRead, MeetsReleasedSocket, Follows, ReadFailed;
    if Refused(t, bytes) {
      RefusedFollows(t, bytes);
    } else {
      AcceptedFollows(t, bytes);
    }
  }

  lemma PingFollows(t: Transport, bytes: seq<Octet>)
    requires Enabled(t, EvRead(bytes)) && t.reading.ReadingPayload? && t.running && t.reading.msgType == Ping
    ensures Follows(t, EvRead(bytes), PayloadRead(t, bytes))
  {
    var f := Frame(Pong, bytes);
    TransmitIsApart(t.(txQueue := t.txQueue + [f], accepted := t.accepted + [f]));
    Unchanged(t);
    hide Transmit, Enabled;
  }

  lemma StoppedFollows(t: Transport, bytes: seq<Octet>)
    requires Enabled(t, EvRead(bytes)) && t.reading.ReadingPayload? && !t.running
    ensures Follows(t, EvRead(bytes), PayloadRead(t, bytes))
  {
    Unchanged(t);
    hide SendFrame, Enabled;
  }

  lemma MessageFollows(t: Transport, bytes: seq<Octet>)
    requires Enabled(t, EvRead(bytes)) && t.reading.ReadingPayload? && t.running && t.reading.msgType == Wamp
    ensures Follows(t, EvRead(bytes), PayloadRead(t, bytes))
  {
    Unchanged(t);
    hide Enabled;
    assert PayloadRead(t, bytes) ==
           Receive(if t.rxHandler then t.(posted := t.posted + [Received(bytes)]) else t);
    hide PayloadRead;
  }

  lemma PongFollows(t: Transport, bytes: seq<Octet>)
    requires Enabled(t, EvRead(bytes)) && t.reading.ReadingPayload? && t.running && t.reading.msgType == Pong
    ensures Follows(t, EvRead(bytes), PayloadRead(t, bytes))
  {
    Unchanged(t);
    hide Enabled;
    assert PayloadRead(t, bytes) == PongRead(t, bytes);
    hide PayloadRead;
  }

  lemma SendFollows(t: Transport, e: Event)
    requires Enabled(t, e) && (e.EvSend? || e.EvPing?)
    ensures Follows(t, e, Step(t, e))
  {
    var f := if e.EvSend? then Frame(Wamp, e.message) else Frame(Ping, e.message);
    var t1 := if e.EvSend? then t else t.(pingHandler := true, pingFrame := Some(f));
    TransmitIsApart(t1.(txQueue := t1.txQueue + [f], accepted := t1.accepted + [f]));
    Unchanged(t);
    assert Step(t, e) == SendFrame(t1, f);
    hide Transmit, Enabled, Step;
  }

  lemma WrittenFollows(t: Transport)
    requires Enabled(t, EvWriteDone)
    ensures Follows(t, EvWriteDone, WriteDone(t))
  {
    TransmitIsApart(t.(txFrame := None, writing := false, written := t.written + InFlight(t)));
    Unchanged(t);
    hide Transmit, Enabled;
  }

  lemma OtherFollows(t: Transport, e: Event)
    requires Enabled(t, e) && (e.EvStart? || e.EvClose? || e.EvWriteFailed? || e.EvReadFailed?)
    ensures Follows(t, e, Step(t, e))
  {
    Unchanged(t);
    hide Enabled, Transmit, RawsockTransport.HeaderRead, PayloadRead, JudgeHeader;
  }

  /** Every step does exactly this. */
  lemma StepFollows(t: Transport, e: Event)
    requires Enabled(t, e)
    ensures Follows(t, e, Step(t, e))
  {
    match e {
      case EvRead(bytes) =>
        if t.reading == ReadingHeader {
          HeaderFollows(t, bytes);
        } else if !t.running {
          StoppedFollows(t, bytes);
        } else {
          match t.reading.msgType
          case Wamp => MessageFollows(t, bytes);
          case Ping => PingFollows(t, bytes);
          case Pong => PongFollows(t, bytes);
        }
      case EvSend(_) => SendFollows(t, e);
      case EvPing(_) => SendFollows(t, e);
      case EvWriteDone => WrittenFollows(t);
      case _ => OtherFollows(t, e);
    }
    hide Follows, SendFrame, WriteDone, RawsockTransport.HeaderRead, PayloadRead, MeetsReleasedSocket;
  }

  // ----- Pings ----------------------------------------------------------------------------

  function PongReports(t: Transport): nat
  {
    multiset(t.posted)[PongReceived]
  }

  lemma ReportsGrow(t: Transport, e: Event)
    requires Enabled(t, e)
    ensures PongReports(Step(t, e)) ==
            PongReports(t) + if e.EvRead? && ReadsPong(t, e) && Awaits(t, e.bytes) then 1 else 0
  {
    StepFollows(t, e);
    hide Step, ReadAfter, Awaits;
    assert multiset(t.posted + PostedBy(t, e)) == multiset(t.posted) + multiset(PostedBy(t, e));
  }

  /** No ping is sent. */
  predicate SendsNoPing(events: seq<Event>)
  {
    forall i :: 0 <= i < |events| ==> !events[i].EvPing?
  }

  /** No pong comes and the reception does not end. */
  predicate Quiet(t: Transport, events: seq<Event>)
    requires CanRun(t, events)
    decreases |events|
  {
    events == [] ||
    (!ReadsPong(t, events[0]) && !EndsReading(t, events[0]) && Quiet(Step(t, events[0]), events[1..]))
  }

  lemma {:induction false} QuietKeepsWaiting(t: Transport, events: seq<Event>, payload: seq<Octet>)
    requires CanRun(t, events) && Quiet(t, events) && SendsNoPing(events) && Awaits(t, payload)
    ensures Awaits(Run(t, events), payload) && PongReports(Run(t, events)) == PongReports(t)
    decreases |events|
  {
    if events != [] {
      StepFollows(t, events[0]);
      ReportsGrow(t, events[0]);
      hide Step, Enabled, Awaits, ReadsPong, EndsReading, PongReports, PostedBy, AcceptedBy, ReadAfter;
      QuietKeepsWaiting(Step(t, events[0]), events[1..], payload);
    }
  }

  lemma {:induction false} NothingToReport(t: Transport, events: seq<Event>)
    requires CanRun(t, events) && SendsNoPing(events) && forall p :: !Awaits(t, p)
    ensures PongReports(Run(t, events)) == PongReports(t)
    decreases |events|
  {
    if events != [] {
      StepFollows(t, events[0]);
      ReportsGrow(t, events[0]);
      hide Step, Enabled, Awaits, ReadsPong, EndsReading, PongReports, PostedBy, AcceptedBy, ReadAfter;
      NothingToReport(Step(t, events[0]), events[1..]);
    }
  }

  /** A ping is sent, anything else happens, and then a pong comes: it is reported if and only if
      it brings the payload of the ping, and whatever comes before the next ping, other pongs
      included, it is reported no second time. */
  lemma PongReportedOnceIff(t: Transport, payload: seq<Octet>, before: seq<Event>, answer: seq<Octet>,
                            after: seq<Event>)
    requires Enabled(t, EvPing(payload))
    requires CanRun(Step(t, EvPing(payload)), before) && SendsNoPing(before)
    requires Quiet(Step(t, EvPing(payload)), before)
    requires var t1 := Run(Step(t, EvPing(payload)), before);
             && Enabled(t1, EvRead(answer)) && ReadsPong(t1, EvRead(answer))
             && CanRun(Step(t1, EvRead(answer)), after) && SendsNoPing(after)
    ensures var t1 := Run(Step(t, EvPing(payload)), before);
            PongReports(Run(Step(t1, EvRead(answer)), after)) == PongReports(t) + if answer == payload then 1 else 0
  {
    StepFollows(t, EvPing(payload));
    ReportsGrow(t, EvPing(payload));
    var t0 := Step(t, EvPing(payload));
    QuietKeepsWaiting(t0, before, payload);
    var t1 := Run(t0, before);
    ReportsGrow(t1, EvRead(answer));
    StepFollows(t1, EvRead(answer));
    assert Awaits(t1, answer) <==> answer == payload;
    hide Step, Enabled, Awaits, ReadsPong, EndsReading, PongReports, PostedBy, AcceptedBy, ReadAfter;
    NothingToReport(Step(t1, EvRead(answer)), after);
  }

  predicate Waits(t: Transport)
  {
    t.pingHandler && t.pingFrame.Some?
  }

  lemma WaitsForSome(t: Transport)
    ensures Waits(t) <==> exists p :: Awaits(t, p)
  {
    if Waits(t) {
      assert Awaits(t, t.pingFrame.value.payload);
    }
  }

  function PingsSent(t: Transport): nat
  {
    |Payloads(t.accepted, Ping)|
  }

  lemma PingsGrow(t: Transport, e: Event)
    requires Enabled(t, e)
    ensures PingsSent(Step(t, e)) == PingsSent(t) + if e.EvPing? then 1 else 0
  {
    StepFollows(t, e);
    hide Step, Payloads, PostedBy, ReadAfter, HandlersFollow, Enabled;
    var fs := AcceptedBy(t, e);
    if fs != [] {
      PayloadsAppend(t.accepted, fs[0], Ping);
      assert fs == [fs[0]];
    } else {
      assert t.accepted + fs == t.accepted;
    }
  }

  lemma {:induction false} ReportsBounded(t: Transport, events: seq<Event>)
    requires CanRun(t, events)
    requires PongReports(t) + (if Waits(t) then 1 else 0) <= PingsSent(t)
    ensures var t1 := Run(t, events); PongReports(t1) + (if Waits(t1) then 1 else 0) <= PingsSent(t1)
    decreases |events|
  {
    if events != [] {
      var e := events[0];
      StepFollows(t, e);
      ReportsGrow(t, e);
      PingsGrow(t, e);
      WaitsForSome(t);
      WaitsForSome(Step(t, e));
      hide Step, Enabled, Awaits, EndsReading, Waits, PongReports, PingsSent, PostedBy, AcceptedBy, ReadAfter;
      ReportsBounded(Step(t, e), events[1..]);
    }
  }

  /** On every run no more pongs are reported than pings were sent. */
  lemma ReportsWithinPings(nativeIsLittle: bool, maxTxLength: nat, maxRxLength: nat, events: seq<Event>)
    requires CanRun(Fresh(nativeIsLittle, maxTxLength, maxRxLength), events)
    ensures var t := Run(Fresh(nativeIsLittle, maxTxLength, maxRxLength), events); PongReports(t) <= PingsSent(t)
  {
    ReportsBounded(Fresh(nativeIsLittle, maxTxLength, maxRxLength), events);
    hide Run, CanRun;
  }

  // ----- A closed transport ---------------------------------------------------------------

  predicate Silent(t: Transport)
  {
    !t.running && !t.rxHandler && !t.txErrorHandler
  }

  lemma {:induction false} SilentStays(t: Transport, events: seq<Event>)
    requires Silent(t) && CanRun(t, events) && EvStart !in events
    ensures var t1 := Run(t, events);
            Silent(t1) && t1.posted == t.posted && t1.txErrors == t.txErrors && t1.accepted == t.accepted
    decreases |events|
  {
    if events != [] {
      SilentStep(t, events[0]);
      hide Step, Enabled;
      SilentStays(Step(t, events[0]), events[1..]);
    }
  }

  lemma SilentStep(t: Transport, e: Event)
    requires Silent(t) && Enabled(t, e) && e != EvStart
    ensures var t1 := Step(t, e);
            Silent(t1) && t1.posted == t.posted && t1.txErrors == t.txErrors && t1.accepted == t.accepted
  {
    StepFollows(t, e);
    hide Step, Awaits, ReadAfter, Refused, EndsReading;
    assert t.posted + [] == t.posted && t.accepted + [] == t.accepted;
  }

  /** Once a transport is closed it posts nothing, tells nobody of errors and accepts no frame,
      whatever still completes, until it is started again. */
  lemma ClosedIsSilent(t: Transport, events: seq<Event>)
    requires CanRun(Step(t, EvClose), events) && EvStart !in events
    ensures var t1 := Run(Step(t, EvClose), events);
            t1.posted == t.posted && t1.txErrors == t.txErrors && t1.accepted == t.accepted
  {
    SilentStays(Step(t, EvClose), events);
    hide Run, CanRun;
  }
}

/** The session engine: states, request maps, replies, cancellation and failure, and the
    guards that a client puts in front of them. */
module Sessions {
  import opened WampMessages
  import opened Handlers

  datatype Session = Session(
    isRouter: bool,
    state: State,
    hasTransport: bool,
    maxTxLength: nat,
    oneShot: RequestMap,
    multiShot: RequestMap,
    lastId: int,
    drawnBy: seq<IdUse>,               // what each id drawn so far was for
    sessionUses: seq<IdUse>,           // the HELLO and GOODBYE requests so far, which have no ids
    terminating: bool,
    posted: seq<Task>,                 // posted to the strand and not run yet
    completions: seq<Completion>,      // every handler call so far
    submitted: nat,                    // handlers handed in so far; the n-th has token n
    ongoing: set<nat>,                 // tokens handed in for progressive results
    dropped: multiset<nat>,            // tokens let go without a call, while terminating
    sent: seq<Key>,                    // type and request id of every message sent
    inbound: seq<Message>)             // passed on to the inbound message handler

  function Fresh(isRouter: bool): Session
  {
    Session(isRouter, Disconnected, false, 0, map[], map[], 0, [], [], false, [], [], 0, {}, multiset{}, [], [])
  }

  // ----- Building blocks ------------------------------------------------------------------

  function Post(s: Session, h: Handler, outcome: Outcome): Session
  {
    s.(posted := s.posted + [Task(h, outcome)])
  }

  ghost function AbortPending(s: Session, ec: Errc): Session
  {
    if s.terminating then
      s.(oneShot := map[], multiShot := map[], dropped := s.dropped + MapTokens(s.oneShot) + MapTokens(s.multiShot))
    else
      s.(oneShot := map[], multiShot := map[],
         posted := s.posted + Tasks(Drain(s.oneShot), Failure(ec)) + Tasks(Drain(s.multiShot), Failure(ec)))
  }

  ghost function Fail(s: Session, ec: Errc): Session
  {
    if s.state == Failed then s
    else AbortPending(s.(state := Failed), ec).(hasTransport := false)
  }

  ghost function Close(s: Session): Session
  {
    AbortPending(s.(state := Disconnected), SessionEnded).(hasTransport := false)
  }

  /** Draws a request id for the types of message that carry one. */
  function WithId(s: Session, t: MsgType, owner: int): Session
  {
    if HasRequestId(t) then s.(lastId := NextRequestId(s.lastId), drawnBy := s.drawnBy + [IdUse(t, owner)]) else s
  }

  function KeyFor(s: Session, t: MsgType): Key
  {
    Key(t, if HasRequestId(t) then NextRequestId(s.lastId) else 0)
  }

  function SendMessage(s: Session, t: MsgType, size: nat): Session
    requires s.hasTransport
  {
    var s1 := WithId(s, t, -1);
    if size > s.maxTxLength then s1 else s1.(sent := s.sent + [KeyFor(s, t)])
  }

  /** A handler pending under the same key gives way. */
  function Displaced(s: Session, pending: RequestMap, key: Key): Session
  {
    if key in pending then Post(s, pending[key], Failure(Cancelled)) else s
  }

  function Enlisted(s: Session, key: Key, h: Handler, multi: bool): Session
  {
    if multi then Displaced(s, s.multiShot, key).(multiShot := s.multiShot[key := h], sent := s.sent + [key])
    else Displaced(s, s.oneShot, key).(oneShot := s.oneShot[key := h], sent := s.sent + [key])
  }

  function SendRequest(s: Session, t: MsgType, size: nat, h: Handler, multi: bool): Session
    requires s.hasTransport
  {
    var h1, s1 := h.(draw := |s.drawnBy|), WithId(s, t, h.token);
    if size > s.maxTxLength then Post(s1, h1, Failure(PayloadSizeExceeded))
    else Enlisted(s1, KeyFor(s, t), h1, multi)
  }

  function Log(s: Session, h: Handler, outcome: Outcome, final: bool): Session
  {
    s.(completions := s.completions + [Completion(h.token, outcome, final)])
  }

  /** A handler is called for the last time; the one that adjourn wraps first ends the session
      if it got a reply. */
  ghost function Invoke(s: Session, h: Handler, outcome: Outcome): Session
  {
    Log(if h.adjourning && outcome.Reply? then AbortPending(s.(state := Closed), SessionEnded) else s, h, outcome, true)
  }

  // ----- Received messages ----------------------------------------------------------------

  ghost function ProcessWampReply(s: Session, key: Key, msg: Message): Session
  {
    if key in s.oneShot then
      Invoke(s.(oneShot := s.oneShot - {key}), s.oneShot[key], Reply(msg))
    else if key in s.multiShot then
      if IsProgressive(msg) then Log(s, s.multiShot[key], Reply(msg), false)
      else Invoke(s.(multiShot := s.multiShot - {key}), s.multiShot[key], Reply(msg))
    else s
  }

  ghost function ProcessAbort(s: Session, msg: Message, ec: Errc): Session
  {
    if s.state == Establishing || s.state == Authenticating then
      ProcessWampReply(s.(state := Closed), Key(HELLO, 0), msg)
    else if s.state == ShuttingDown then s
    else Fail(s, ec)
  }

  ghost function ProcessGoodbye(s: Session, msg: Message, ec: Errc): Session
    requires s.hasTransport
  {
    if s.state == ShuttingDown then ProcessWampReply(s.(state := Closed), RequestKey(msg), msg)
    else SendMessage(AbortPending(s, ec), GOODBYE, 0).(state := Closed)
  }

  function ProcessHello(s: Session, msg: Message): Session
  {
    s.(state := Established, inbound := s.inbound + [msg])
  }

  function ProcessChallenge(s: Session, msg: Message): Session
  {
    s.(state := Authenticating, inbound := s.inbound + [msg])
  }

  ghost function ProcessWelcome(s: Session, msg: Message): Session
  {
    ProcessWampReply(s.(state := Established), Key(HELLO, 0), msg)
  }

  function ProcessUnsolicited(s: Session, msg: Message): Session
  {
    if s.state == ShuttingDown then s else s.(inbound := s.inbound + [msg])
  }

  /** The error code is the one that the reason of an ABORT or GOODBYE names. */
  ghost function ProcessMessage(s: Session, msg: Message, ec: Errc): Session
    requires s.hasTransport
  {
    var t := msg.msgType;
    if RepliesTo(t) != NONE then ProcessWampReply(s, Key(RepliesTo(t), RequestId(msg)), msg)
    else if t == HELLO then ProcessHello(s, msg)
    else if t == CHALLENGE then ProcessChallenge(s, msg)
    else if t == WELCOME then ProcessWelcome(s, msg)
    else if t == ABORT then ProcessAbort(s, msg, ec)
    else if t == GOODBYE then ProcessGoodbye(s, msg, ec)
    else if t == ERROR then ProcessWampReply(s, RequestKey(msg), msg)
    else ProcessUnsolicited(s, msg)
  }

  /** What the assertions at the head of the processing functions demand of the state. */
  predicate AssertionsHold(s: Session, msg: Message)
  {
    && (msg.msgType == HELLO ==> s.state == Establishing)
    && (msg.msgType == CHALLENGE ==> s.state == Establishing)
    && (msg.msgType == WELCOME ==> s.state == Establishing || s.state == Authenticating)
  }

  /** What the codec and the schema check make of received bytes. */
  datatype Input = Undecodable(ec: Errc) | NotAMessage | Parsed(msg: Message, reason: Errc)

  predicate ReadyToReceive(s: Session)
  {
    s.state in {Establishing, Authenticating, Established, ShuttingDown}
  }

  ghost function OnTransportRx(s: Session, input: Input): Session
    requires ReadyToReceive(s) ==> s.hasTransport
  {
    if !ReadyToReceive(s) then Fail(s, ProtocolViolation)
    else match input
      case Undecodable(ec) => Fail(s, ec)
      case NotAMessage => Fail(s, ProtocolViolation)
      case Parsed(msg, reason) =>
        if !IsValidRx(msg.msgType, s.state, s.isRouter) then Fail(s, ProtocolViolation)
        else ProcessMessage(s, msg, reason)
  }

  // ----- Cancellation ---------------------------------------------------------------------

  /** Unless the mode is kill, the caller is told at once. */
  function Uncall(s: Session, key: Key, kill: bool): Session
  {
    if kill then s
    else if key in s.oneShot then Post(s.(oneShot := s.oneShot - {key}), s.oneShot[key], Failure(Cancelled))
    else if key in s.multiShot then Post(s.(multiShot := s.multiShot - {key}), s.multiShot[key], Failure(Cancelled))
    else s
  }

  predicate IsPending(s: Session, key: Key)
  {
    key in s.oneShot || key in s.multiShot
  }

  /** CANCEL goes out with the id of its call, if it fits. */
  function SendCancel(s: Session, id: int, size: nat): Session
    requires s.hasTransport
  {
    if size > s.maxTxLength then s else s.(sent := s.sent + [Key(CANCEL, id)])
  }

  function CancelCall(s: Session, id: int, kill: bool, size: nat): Session
    requires s.hasTransport
  {
    var key := Key(CALL, id);
    if IsPending(s, key) then SendCancel(Uncall(s, key, kill), id, size) else s
  }

  // ----- Runs of a client -----------------------------------------------------------------

  datatype Command =
    | CmdConnect
    | CmdConnectFailed
    | CmdOpen(maxTxLength: nat)
    | CmdJoin(size: nat)
    | CmdLeave(size: nat)
    | CmdDisconnect
    | CmdTerminate
    | CmdRequest(msgType: MsgType, size: nat)
    | CmdOngoingCall(size: nat)
    | CmdSend(msgType: MsgType, size: nat)
    | CmdCancelCall(id: int, kill: bool, size: nat)
    | CmdReceive(input: Input)
    | CmdTransportError(ec: Errc)
    | CmdRunTask

  /** The requests that clients send through the one-shot map. */
  predicate IsRequestType(t: MsgType)
  {
    t in {PUBLISH, SUBSCRIBE, UNSUBSCRIBE, CALL, ENROLL, UNREGISTER}
  }

  predicate Enabled(s: Session, c: Command)
  {
    match c
    case CmdConnectFailed => s.state in {Connecting, Disconnected, Failed}
    case CmdOpen(_) => s.state == Connecting
    case CmdRequest(t, _) => IsRequestType(t)
    case CmdRunTask => s.posted != []
    case _ => true
  }

  /** The next handler to be handed in. */
  function NewHandler(s: Session, adjourning: bool): Handler
  {
    Handler(s.submitted, adjourning, 0)
  }

  function HandedIn(s: Session): Session
  {
    s.(submitted := s.submitted + 1)
  }

  /** A handler is handed in with the request that opens a session. */
  function Opening(s: Session): Session
  {
    HandedIn(s).(state := Establishing, sessionUses := s.sessionUses + [IdUse(HELLO, s.submitted)])
  }

  /** A handler is handed in with the request that ends it. */
  function Leaving(s: Session): Session
  {
    HandedIn(s).(state := ShuttingDown, sessionUses := s.sessionUses + [IdUse(GOODBYE, s.submitted)])
  }

  /** A call made in the wrong state. */
  function Refuse(s: Session, h: Handler): Session
  {
    if s.terminating then s.(dropped := s.dropped + multiset{h.token}) else Post(s, h, Failure(InvalidState))
  }

  ghost function RunTask(s: Session): Session
    requires s.posted != []
  {
    Invoke(s.(posted := s.posted[1..]), s.posted[0].handler, s.posted[0].outcome)
  }

  ghost function Join(s: Session, size: nat): Session
    requires s.state == Closed ==> s.hasTransport
  {
    var h := NewHandler(s, false);
    if s.state != Closed then Refuse(HandedIn(s), h)
    else SendRequest(Opening(s), HELLO, size, h, false)
  }

  ghost function Leave(s: Session, size: nat): Session
    requires s.state == Established ==> s.hasTransport
  {
    var h := NewHandler(s, true);
    if s.state != Established then Refuse(HandedIn(s), h)
    else SendRequest(Leaving(s), GOODBYE, size, h, false)
  }

  ghost function Request(s: Session, t: MsgType, size: nat, multi: bool): Session
    requires s.state == Established ==> s.hasTransport
  {
    var h := NewHandler(s, false);
    var s1 := if multi then HandedIn(s).(ongoing := s.ongoing + {h.token}) else HandedIn(s);
    if s.state != Established then Refuse(s1, h) else SendRequest(s1, t, size, h, multi)
  }

  function Connect(s: Session): Session
  {
    if s.state == Disconnected then s.(terminating := false, state := Connecting) else s
  }

  function Open(s: Session, maxTxLength: nat): Session
  {
    s.(hasTransport := true, state := Closed, maxTxLength := maxTxLength)
  }

  predicate MaySend(s: Session, t: MsgType)
  {
    s.state == if t == AUTHENTICATE then Authenticating else Established
  }

  /** The transport is there exactly in the states that use it. */
  predicate TransportFits(s: Session)
  {
    s.hasTransport <==> s.state in {Closed, Establishing, Authenticating, Established, ShuttingDown}
  }

  /** Calls posted to the strand all report failures. */
  predicate PostedAreFailures(ts: seq<Task>)
  {
    forall i :: 0 <= i < |ts| ==> ts[i].outcome.Failure?
  }

  predicate Shaped(s: Session)
  {
    TransportFits(s) && PostedAreFailures(s.posted)
  }

  ghost function Step(s: Session, c: Command): Session
    requires Shaped(s) && Enabled(s, c)
  {
    match c
    case CmdConnect => Connect(s)
    case CmdConnectFailed => s.(state := Failed)
    case CmdOpen(maxTxLength) => Open(s, maxTxLength)
    case CmdJoin(size) => Join(s, size)
    case CmdLeave(size) => Leave(s, size)
    case CmdDisconnect => Close(s)
    case CmdTerminate => Close(s.(terminating := true))
    case CmdRequest(t, size) => Request(s, t, size, false)
    case CmdOngoingCall(size) => Request(s, CALL, size, true)
    case CmdSend(t, size) => if MaySend(s, t) then SendMessage(s, t, size) else s
    case CmdCancelCall(id, kill, size) => if s.state == Established then CancelCall(s, id, kill, size) else s
    case CmdReceive(input) => OnTransportRx(s, input)
    case CmdTransportError(ec) => if s.state == Disconnected then s else Fail(s, ec)
    case CmdRunTask => RunTask(s)
  }

  // ----- The transport --------------------------------------------------------------------

  /** Nothing is dropped by a step of a session that is not terminating. */
  predicate SameRun(s: Session, s1: Session)
  {
    s1.isRouter == s.isRouter && (!s.terminating ==> !s1.terminating && s1.dropped == s.dropped)
  }

  predicate Continues(s: Session, s1: Session)
  {
    Shaped(s1) && SameRun(s, s1)
  }

  lemma AbortKeepsShape(s: Session, ec: Errc)
    requires PostedAreFailures(s.posted)
    ensures PostedAreFailures(AbortPending(s, ec).posted)
    ensures AbortPending(s, ec).state == s.state && AbortPending(s, ec).hasTransport == s.hasTransport
    ensures SameRun(s, AbortPending(s, ec))
  {
  }

  lemma FailKeepsShape(s: Session, ec: Errc)
    requires Shaped(s)
    ensures Continues(s, Fail(s, ec))
  {
    AbortKeepsShape(s.(state := Failed), ec);
    hide AbortPending;
  }

  lemma EnlistKeepsShape(s: Session, key: Key, h: Handler, multi: bool)
    requires Shaped(s)
    ensures Continues(s, Enlisted(s, key, h, multi))
  {
  }

  lemma SendRequestKeepsShape(s: Session, t: MsgType, size: nat, h: Handler, multi: bool)
    requires Shaped(s) && s.hasTransport
    ensures Continues(s, SendRequest(s, t, size, h, multi))
  {
    EnlistKeepsShape(WithId(s, t, h.token), KeyFor(s, t), h.(draw := |s.drawnBy|), multi);
    hide Enlisted, KeyFor;
  }

  lemma InvokeKeepsShape(s: Session, h: Handler, outcome: Outcome)
    requires Shaped(s) && (h.adjourning && outcome.Reply? ==> s.hasTransport)
    ensures Continues(s, Invoke(s, h, outcome))
  {
    AbortKeepsShape(s.(state := Closed), SessionEnded);
    hide AbortPending;
  }

  lemma ReplyKeepsShape(s: Session, key: Key, msg: Message)
    requires Shaped(s) && s.hasTransport
    ensures Continues(s, ProcessWampReply(s, key, msg))
  {
    if key in s.oneShot {
      InvokeKeepsShape(s.(oneShot := s.oneShot - {key}), s.oneShot[key], Reply(msg));
    } else if key in s.multiShot {
      InvokeKeepsShape(s.(multiShot := s.multiShot - {key}), s.multiShot[key], Reply(msg));
    }
    hide Invoke;
  }

  lemma AbortMsgKeepsShape(s: Session, msg: Message, ec: Errc)
    requires Shaped(s) && s.hasTransport
    ensures Continues(s, ProcessAbort(s, msg, ec))
  {
    ReplyKeepsShape(s.(state := Closed), Key(HELLO, 0), msg);
    FailKeepsShape(s, ec);
    hide ProcessWampReply, Fail;
  }

  lemma GoodbyeKeepsShape(s: Session, msg: Message, ec: Errc)
    requires Shaped(s) && s.hasTransport
    ensures Continues(s, ProcessGoodbye(s, msg, ec))
  {
    hide ProcessWampReply, RequestKey;
    if s.state == ShuttingDown {
      ReplyKeepsShape(s.(state := Closed), RequestKey(msg), msg);
    } else {
      AbortKeepsShape(s, ec);
      hide AbortPending;
    }
  }

  lemma PassingOnKeepsShape(s: Session, msg: Message)
    requires Shaped(s) && s.hasTransport
    ensures Continues(s, ProcessHello(s, msg)) && Continues(s, ProcessChallenge(s, msg))
    ensures Continues(s, ProcessUnsolicited(s, msg))
  {
  }

  lemma WelcomeKeepsShape(s: Session, msg: Message)
    requires Shaped(s) && s.hasTransport
    ensures Continues(s, ProcessWelcome(s, msg))
  {
    ReplyKeepsShape(s.(state := Established), Key(HELLO, 0), msg);
    hide ProcessWampReply;
  }

  lemma MessageKeepsShape(s: Session, msg: Message, ec: Errc)
    requires Shaped(s) && s.hasTransport
    ensures Continues(s, ProcessMessage(s, msg, ec))
  {
    hide Shaped, ProcessWampReply, RequestKey, RepliesTo, RequestId, ProcessHello, ProcessChallenge, ProcessWelcome,
      ProcessAbort, ProcessGoodbye, ProcessUnsolicited;
    if RepliesTo(msg.msgType) != NONE {
      ReplyKeepsShape(s, Key(RepliesTo(msg.msgType), RequestId(msg)), msg);
    } else {
      ReplyKeepsShape(s, RequestKey(msg), msg);
      PassingOnKeepsShape(s, msg);
      WelcomeKeepsShape(s, msg);
      AbortMsgKeepsShape(s, msg, ec);
      GoodbyeKeepsShape(s, msg, ec);
    }
  }

  lemma RxKeepsShape(s: Session, input: Input)
    requires Shaped(s)
    ensures Continues(s, OnTransportRx(s, input))
  {
    FailKeepsShape(s, ProtocolViolation);
    if ReadyToReceive(s) && input.Undecodable? {
      FailKeepsShape(s, input.ec);
    }
    if ReadyToReceive(s) && input.Parsed? {
      MessageKeepsShape(s, input.msg, input.reason);
    }
    hide Fail, ProcessMessage, PostedAreFailures, IsValidRx;
  }

  lemma RequestKeepsShape(s: Session, t: MsgType, size: nat, multi: bool)
    requires Shaped(s)
    ensures Continues(s, Request(s, t, size, multi))
  {
    var s1 := if multi then HandedIn(s).(ongoing := s.ongoing + {s.submitted}) else HandedIn(s);
    if s.state == Established {
      SendRequestKeepsShape(s1, t, size, NewHandler(s, false), multi);
    }
    hide SendRequest;
  }

  lemma JoinKeepsShape(s: Session, size: nat)
    requires Shaped(s)
    ensures Continues(s, Join(s, size))
  {
    if s.state == Closed {
      SendRequestKeepsShape(Opening(s), HELLO, size, NewHandler(s, false), false);
    }
    hide SendRequest;
  }

  lemma LeaveKeepsShape(s: Session, size: nat)
    requires Shaped(s)
    ensures Continues(s, Leave(s, size))
  {
    if s.state == Established {
      SendRequestKeepsShape(Leaving(s), GOODBYE, size, NewHandler(s, true), false);
    }
    hide SendRequest;
  }

  lemma CloseKeepsShape(s: Session)
    requires PostedAreFailures(s.posted)
    ensures Continues(s, Close(s))
  {
    AbortKeepsShape(s.(state := Disconnected), SessionEnded);
    hide AbortPending;
  }

  lemma CancelKeepsShape(s: Session, id: int, kill: bool, size: nat)
    requires Shaped(s) && s.hasTransport
    ensures Continues(s, CancelCall(s, id, kill, size))
  {
  }

  lemma RunTaskKeepsShape(s: Session)
    requires Shaped(s) && s.posted != []
    ensures Continues(s, RunTask(s))
  {
    InvokeKeepsShape(s.(posted := s.posted[1..]), s.posted[0].handler, s.posted[0].outcome);
    hide Invoke;
  }

  /** On every run the transport is set exactly in the states that use it, so no assertion on
      the transport can fail; no assumption is made about sizes or inputs. */
  lemma StepKeepsShape(s: Session, c: Command)
    requires Shaped(s) && Enabled(s, c)
    ensures Shaped(Step(s, c)) && Step(s, c).isRouter == s.isRouter
    ensures c != CmdTerminate ==> SameRun(s, Step(s, c))
  {
    hide Join, Leave, Close, Request, SendMessage, CancelCall, OnTransportRx, Fail, RunTask;
    match c
    case CmdJoin(size) => JoinKeepsShape(s, size);
    case CmdLeave(size) => LeaveKeepsShape(s, size);
    case CmdDisconnect => CloseKeepsShape(s);
    case CmdTerminate => CloseKeepsShape(s.(terminating := true));
    case CmdRequest(t, size) => RequestKeepsShape(s, t, size, false);
    case CmdOngoingCall(size) => RequestKeepsShape(s, CALL, size, true);
    case CmdSend(t, size) => SendKeepsShape(s, t, size);
    case CmdCancelCall(id, kill, size) => if s.state == Established { CancelKeepsShape(s, id, kill, size); }
    case CmdReceive(input) => RxKeepsShape(s, input);
    case CmdTransportError(ec) => FailKeepsShape(s, ec);
    case CmdRunTask => RunTaskKeepsShape(s);
    case _ =>
  }

  lemma SendKeepsShape(s: Session, t: MsgType, size: nat)
    requires Shaped(s)
    ensures MaySend(s, t) ==> Continues(s, SendMessage(s, t, size))
  {
  }

  // ----- Runs ---------------------------------------------------------------------------

  ghost predicate CanRun(s: Session, commands: seq<Command>)
    requires Shaped(s)
    decreases |commands|
  {
    commands == [] ||
    (Enabled(s, commands[0]) && (StepKeepsShape(s, commands[0]); CanRun(Step(s, commands[0]), commands[1..])))
  }

  ghost function Run(s: Session, commands: seq<Command>): Session
    requires Shaped(s) && CanRun(s, commands)
    decreases |commands|
  {
    if commands == [] then s
    else StepKeepsShape(s, commands[0]); Run(Step(s, commands[0]), commands[1..])
  }
}

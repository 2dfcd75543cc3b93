/** What the calls of a client do: which messages go out, which requests become pending, and what
    the handlers of those that cannot are told. */
module SessionSending {
  import opened WampMessages
  import opened Handlers
  import opened Sessions
  import opened SessionStates
  import opened SessionReplies
  import opened SessionReceiving

  // ----- Requests -------------------------------------------------------------------------

  /** The id of the next draw, or none. */
  function FreshKey(s: Session, t: MsgType): Key
  {
    Key(t, if HasRequestId(t) then IdOfDraw(|s.drawnBy|) else 0)
  }

  function Given(pending: RequestMap, key: Key): seq<Task>
  {
    if key in pending then [Task(pending[key], Failure(Cancelled))] else []
  }

  /** A request that fits goes out and is pending with its handler, in the map of its kind; one that
      was pending under its key is told that it is cancelled. One that does not fit is not sent,
      and its handler is told so. */
  predicate Issued(s: Session, s1: Session, t: MsgType, size: nat, adjourning: bool, multi: bool)
  {
    var key, h := FreshKey(s, t), Handler(s.submitted, adjourning, |s.drawnBy|);
    if size > s.maxTxLength then
      && s1.sent == s.sent && s1.oneShot == s.oneShot && s1.multiShot == s.multiShot
      && s1.posted == s.posted + [Task(h, Failure(PayloadSizeExceeded))]
    else if multi then
      && s1.sent == s.sent + [key] && s1.oneShot == s.oneShot && s1.multiShot == s.multiShot[key := h]
      && s1.posted == s.posted + Given(s.multiShot, key)
    else
      && s1.sent == s.sent + [key] && s1.oneShot == s.oneShot[key := h] && s1.multiShot == s.multiShot
      && s1.posted == s.posted + Given(s.oneShot, key)
  }

  /** What no call of a client touches but by ending the session. */
  predicate Untouched(s: Session, s1: Session)
  {
    && s1.completions == s.completions && s1.inbound == s.inbound && s1.hasTransport == s.hasTransport
    && s1.maxTxLength == s.maxTxLength && s1.terminating == s.terminating && s1.dropped == s.dropped
  }

  lemma FreshKeyIsNext(s: Session, t: MsgType)
    requires Numbered(s)
    ensures KeyFor(s, t) == FreshKey(s, t)
  {
    WithIdNumbered(s, t, -1);
  }

  lemma EnlistedIsIssued(s: Session, key: Key, h: Handler, multi: bool)
    ensures var s1 := Enlisted(s, key, h, multi);
            && s1.sent == s.sent + [key] && Untouched(s, s1) && s1.state == s.state && s1.submitted == s.submitted
            && (multi ==> s1.oneShot == s.oneShot && s1.multiShot == s.multiShot[key := h]
                          && s1.posted == s.posted + Given(s.multiShot, key))
            && (!multi ==> s1.oneShot == s.oneShot[key := h] && s1.multiShot == s.multiShot
                           && s1.posted == s.posted + Given(s.oneShot, key))
  {
    assert s.posted + [] == s.posted;
  }

  /** The parts of a session that a request may touch. */
  predicate SameRequests(s: Session, s1: Session)
  {
    && s1.sent == s.sent && s1.oneShot == s.oneShot && s1.multiShot == s.multiShot && s1.posted == s.posted
    && Untouched(s, s1)
  }

  lemma WithIdKeeps(s: Session, t: MsgType, owner: int)
    ensures var s1 := WithId(s, t, owner); SameRequests(s, s1) && s1.state == s.state && s1.submitted == s.submitted
  {
    hide HasRequestId;
  }

  lemma RequestIsIssued(s: Session, s0: Session, t: MsgType, size: nat, adjourning: bool, multi: bool)
    requires Numbered(s) && s0.hasTransport && s0.lastId == s.lastId && s0.drawnBy == s.drawnBy && SameRequests(s, s0)
    ensures var s1 := SendRequest(s0, t, size, Handler(s.submitted, adjourning, 0), multi);
            Issued(s, s1, t, size, adjourning, multi) && Untouched(s, s1) && s1.state == s0.state
            && s1.submitted == s0.submitted
  {
    FreshKeyIsNext(s, t);
    var h := Handler(s.submitted, adjourning, 0);
    var sw := WithId(s0, t, h.token);
    WithIdKeeps(s0, t, h.token);
    assert KeyFor(s0, t) == FreshKey(s, t);
    EnlistedIsIssued(sw, KeyFor(s0, t), h.(draw := |s0.drawnBy|), multi);
    hide Enlisted, Given, Numbered, FreshKey, KeyFor, WithId;
  }

  /** A call made in the wrong state: its handler is told so, unless the client is terminating. */
  predicate Refused(s: Session, s1: Session, adjourning: bool)
  {
    && s1.sent == s.sent && s1.oneShot == s.oneShot && s1.multiShot == s.multiShot && s1.state == s.state
    && s1.completions == s.completions && s1.submitted == s.submitted + 1
    && if s.terminating then s1.posted == s.posted && s1.dropped == s.dropped + multiset{s.submitted}
       else
         && s1.dropped == s.dropped
         && s1.posted == s.posted + [Task(Handler(s.submitted, adjourning, 0), Failure(InvalidState))]
  }

  lemma JoinStep(s: Session, size: nat)
    requires Numbered(s) && Shaped(s)
    ensures var s1 := Step(s, CmdJoin(size));
            if s.state == Closed then
              Issued(s, s1, HELLO, size, false, false) && s1.state == Establishing && Untouched(s, s1)
              && s1.submitted == s.submitted + 1
            else Refused(s, s1, false)
  {
    if s.state == Closed {
      RequestIsIssued(s, Opening(s), HELLO, size, false, false);
    }
    hide SendRequest, Issued, Numbered;
  }

  lemma LeaveStep(s: Session, size: nat)
    requires Numbered(s) && Shaped(s)
    ensures var s1 := Step(s, CmdLeave(size));
            if s.state == Established then
              Issued(s, s1, GOODBYE, size, true, false) && s1.state == ShuttingDown && Untouched(s, s1)
              && s1.submitted == s.submitted + 1
            else Refused(s, s1, true)
  {
    if s.state == Established {
      RequestIsIssued(s, Leaving(s), GOODBYE, size, true, false);
    }
    hide SendRequest, Issued, Numbered;
  }

  lemma RequestStep(s: Session, t: MsgType, size: nat)
    requires Numbered(s) && Shaped(s) && IsRequestType(t)
    ensures var s1 := Step(s, CmdRequest(t, size));
            if s.state == Established then
              Issued(s, s1, t, size, false, false) && s1.state == Established && Untouched(s, s1)
              && s1.submitted == s.submitted + 1
            else Refused(s, s1, false)
  {
    if s.state == Established {
      RequestIsIssued(s, HandedIn(s), t, size, false, false);
    }
    hide SendRequest, Issued, Numbered, IsRequestType;
  }

  lemma OngoingCallStep(s: Session, size: nat)
    requires Numbered(s) && Shaped(s)
    ensures var s1 := Step(s, CmdOngoingCall(size));
            if s.state == Established then
              Issued(s, s1, CALL, size, false, true) && s1.state == Established && Untouched(s, s1)
              && s1.submitted == s.submitted + 1 && s1.ongoing == s.ongoing + {s.submitted}
            else Refused(s, s1, false)
  {
    if s.state == Established {
      var s0 := HandedIn(s).(ongoing := s.ongoing + {s.submitted});
      RequestIsIssued(s, s0, CALL, size, false, true);
      OngoingKept(s0, size, NewHandler(s, false));
    }
    hide SendRequest, Issued, Numbered;
  }

  lemma OngoingKept(s: Session, size: nat, h: Handler)
    requires s.hasTransport
    ensures SendRequest(s, CALL, size, h, true).ongoing == s.ongoing
  {
  }

  // ----- Messages without handlers --------------------------------------------------------

  lemma SendStep(s: Session, t: MsgType, size: nat)
    requires Numbered(s) && Shaped(s)
    ensures var s1 := Step(s, CmdSend(t, size));
            && s1.sent == s.sent + Gained(s, CmdSend(t, size))
            && s1.oneShot == s.oneShot && s1.multiShot == s.multiShot && s1.posted == s.posted
            && s1.state == s.state && Untouched(s, s1)
  {
    FreshKeyIsNext(s, t);
    WithIdKeeps(s, t, -1);
    assert s.sent + [] == s.sent;
    hide Numbered, FreshKey, KeyFor, WithId;
  }

  /** The part of a map that a cancellation leaves. */
  function Without(m: RequestMap, key: Key, gone: bool): RequestMap
  {
    if gone then m - {key} else m
  }

  /** A call that is pending is cancelled: CANCEL with its id goes out if it fits, in every mode;
      unless the mode is kill the handler, of the one-shot call if there are both, is told at once
      and the call is no longer pending. For a call that is not pending, or in another state,
      nothing happens. */
  lemma CancelStep(s: Session, id: int, kill: bool, size: nat)
    requires Shaped(s)
    ensures var s1, key := Step(s, CmdCancelCall(id, kill, size)), Key(CALL, id);
            var one, multi := key in s.oneShot, key in s.multiShot;
            if s.state == Established && (one || multi) then
              && s1.sent == s.sent + (if size <= s.maxTxLength then [Key(CANCEL, id)] else [])
              && s1.oneShot == Without(s.oneShot, key, !kill && one)
              && s1.multiShot == Without(s.multiShot, key, !kill && !one)
              && s1.posted == s.posted + (if kill then [] else
                                          [Task(if one then s.oneShot[key] else s.multiShot[key], Failure(Cancelled))])
              && s1.state == Established && Untouched(s, s1)
            else s1 == s
  {
    assert s.sent + [] == s.sent && s.posted + [] == s.posted;
    hide Shaped, Without;
    if s.state == Established && IsPending(s, Key(CALL, id)) {
      UncallStep(s, Key(CALL, id), kill);
      hide Uncall;
      assert CancelCall(s, id, kill, size) == SendCancel(Uncall(s, Key(CALL, id), kill), id, size);
      hide CancelCall;
    }
  }

  lemma UncallStep(s: Session, key: Key, kill: bool)
    requires IsPending(s, key)
    ensures var s1, one := Uncall(s, key, kill), key in s.oneShot;
            && s1.sent == s.sent && s1.state == s.state && s1.maxTxLength == s.maxTxLength && Untouched(s, s1)
            && s1.oneShot == Without(s.oneShot, key, !kill && one)
            && s1.multiShot == Without(s.multiShot, key, !kill && !one)
            && s1.posted == s.posted + (if kill then [] else
                                        [Task(if one then s.oneShot[key] else s.multiShot[key], Failure(Cancelled))])
  {
    assert s.posted + [] == s.posted;
  }

  // ----- Connecting, ending, and the strand -----------------------------------------------

  lemma ConnectionSteps(s: Session, maxTxLength: nat)
    requires Shaped(s)
    ensures Step(s, CmdConnect) == if s.state == Disconnected then s.(terminating := false, state := Connecting) else s
    ensures s.state in {Connecting, Disconnected, Failed} ==> Step(s, CmdConnectFailed) == s.(state := Failed)
    ensures s.state == Connecting ==>
              Step(s, CmdOpen(maxTxLength)) == s.(hasTransport := true, state := Closed, maxTxLength := maxTxLength)
  {
  }

  /** Disconnecting ends every request with the error that the session ended; terminating lets them
      go. */
  lemma EndingSteps(s: Session)
    requires Shaped(s)
    ensures AbortsAll(s.(state := Disconnected, hasTransport := false), Step(s, CmdDisconnect), SessionEnded)
    ensures AbortsAll(s.(state := Disconnected, hasTransport := false, terminating := true), Step(s, CmdTerminate),
                      SessionEnded)
  {
    EndingsClose(s);
    hide Step, AbortsAll, Close, Shaped;
    ClosingAbortsAll(s);
    ClosingAbortsAll(s.(terminating := true));
  }

  lemma EndingsClose(s: Session)
    requires Shaped(s)
    ensures Step(s, CmdDisconnect) == Close(s) && Step(s, CmdTerminate) == Close(s.(terminating := true))
  {
    hide Close, Shaped;
  }

  lemma ClosingAbortsAll(s: Session)
    ensures AbortsAll(s.(state := Disconnected, hasTransport := false), Close(s), SessionEnded)
  {
    var s0 := s.(state := Disconnected);
    AbortingAbortsAll(s0, SessionEnded);
    TransportAside(s0, AbortPending(s0, SessionEnded), SessionEnded);
    hide AbortPending, AbortsAll;
  }

  lemma TransportErrorStep(s: Session, ec: Errc)
    requires Shaped(s)
    ensures var s1 := Step(s, CmdTransportError(ec)); if s.state == Disconnected then s1 == s else Fails(s, s1, ec)
  {
    FailingFails(s, ec);
    hide Fail, Fails;
  }

  /** The strand calls the handler posted first with what it was posted with. */
  lemma RunTaskStep(s: Session)
    requires Shaped(s) && s.posted != []
    ensures Step(s, CmdRunTask)
         == s.(posted := s.posted[1..],
               completions := s.completions + [Completion(s.posted[0].handler.token, s.posted[0].outcome, true)])
  {
    assert s.posted[0].outcome.Failure?;
    hide Shaped;
  }

  // ----- What goes out --------------------------------------------------------------------

  /** The messages that a command sends, by their types and ids. */
  function Gained(s: Session, c: Command): seq<Key>
  {
    match c
    case CmdJoin(size) => if s.state == Closed && size <= s.maxTxLength then [Key(HELLO, 0)] else []
    case CmdLeave(size) => if s.state == Established && size <= s.maxTxLength then [Key(GOODBYE, 0)] else []
    case CmdRequest(t, size) =>
      if s.state == Established && size <= s.maxTxLength then [Key(t, IdOfDraw(|s.drawnBy|))] else []
    case CmdOngoingCall(size) =>
      if s.state == Established && size <= s.maxTxLength then [Key(CALL, IdOfDraw(|s.drawnBy|))] else []
    case CmdSend(t, size) =>
      if s.state == (if t == AUTHENTICATE then Authenticating else Established) && size <= s.maxTxLength
      then [FreshKey(s, t)] else []
    case CmdCancelCall(id, _, size) =>
      if s.state == Established && (Key(CALL, id) in s.oneShot || Key(CALL, id) in s.multiShot) && size <= s.maxTxLength
      then [Key(CANCEL, id)] else []
    case CmdReceive(input) =>
      if input.Parsed? && Admitted(s, input.msg) && input.msg.msgType == GOODBYE && s.state == Established
      then [Key(GOODBYE, 0)] else []
    case _ => []
  }

  lemma ReceiveSends(s: Session, input: Input)
    requires Shaped(s)
    ensures Step(s, CmdReceive(input)).sent == s.sent + Gained(s, CmdReceive(input))
  {
    assert s.sent + [] == s.sent;
    if input.Parsed? && Admitted(s, input.msg) {
      var msg, reason := input.msg, input.reason;
      match AnswerTo(s.state, msg) {
        case Some(key) => AnswerSendsNothing(s, msg, reason);
        case None =>
          if msg.msgType in {HELLO, CHALLENGE} {
            OpeningReceived(s, msg, reason);
          } else if msg.msgType == ABORT {
            AbortReceived(s, msg, reason);
          } else if msg.msgType == GOODBYE {
            GoodbyeReceived(s, msg, reason);
          } else {
            UnsolicitedReceived(s, msg, reason);
          }
      }
    } else {
      BadInputReceived(s, input);
    }
    hide Step, AnswerTo, AllFailed, Shaped, IsValidRx;
  }

  lemma AnswerSendsNothing(s: Session, msg: Message, reason: Errc)
    requires Shaped(s) && Admitted(s, msg) && AnswerTo(s.state, msg).Some?
    ensures Received(s, msg, reason).sent == s.sent
  {
    AnswerIsProcessed(s, msg, reason);
    ReplySendsNothing(s.(state := StateAfter(s.state, msg.msgType)), AnswerTo(s.state, msg).value, msg);
    hide Received, ProcessWampReply, AnswerTo;
  }

  lemma ReplySendsNothing(s: Session, key: Key, msg: Message)
    ensures ProcessWampReply(s, key, msg).sent == s.sent
  {
    AbortFrame(s.(oneShot := s.oneShot - {key}, state := Closed), SessionEnded);
    AbortFrame(s.(multiShot := s.multiShot - {key}, state := Closed), SessionEnded);
    hide AbortPending;
  }

  lemma AbortsAllSends(s: Session, s1: Session, ec: Errc)
    requires AbortsAll(s, s1, ec)
    ensures s1.sent == s.sent && s1.oneShot == map[] && s1.multiShot == map[]
  {
    hide AllFailed, MapTokens;
  }

  lemma EndingsSendNothing(s: Session, ec: Errc)
    requires Shaped(s)
    ensures forall c :: c in {CmdDisconnect, CmdTerminate, CmdTransportError(ec)} ==>
              && Step(s, c).sent == s.sent
              && (Step(s, c).oneShot == map[] || Step(s, c).oneShot == s.oneShot)
              && (Step(s, c).multiShot == map[] || Step(s, c).multiShot == s.multiShot)
  {
    EndingSteps(s);
    TransportErrorStep(s, ec);
    hide Step, AbortsAll, Shaped;
    var s0 := s.(state := Disconnected, hasTransport := false);
    AbortsAllSends(s0, Step(s, CmdDisconnect), SessionEnded);
    AbortsAllSends(s0.(terminating := true), Step(s, CmdTerminate), SessionEnded);
    if s.state != Disconnected && s.state != Failed {
      AbortsAllSends(s.(state := Failed, hasTransport := false), Step(s, CmdTransportError(ec)), ec);
    }
  }

  predicate HandsIn(c: Command)
  {
    c.CmdJoin? || c.CmdLeave? || c.CmdRequest? || c.CmdOngoingCall?
  }

  lemma RequestsSend(s: Session, c: Command)
    requires Numbered(s) && Shaped(s) && Enabled(s, c) && HandsIn(c)
    ensures Step(s, c).sent == s.sent + Gained(s, c) && NewOnesSent(s, Step(s, c))
  {
    assert s.sent + [] == s.sent;
    match c
    case CmdJoin(size) =>
      JoinStep(s, size);
      if s.state == Closed { IssuedIsSent(s, Step(s, c), HELLO, size, false, false); }
      else { RefusedIsSent(s, Step(s, c), false); }
      hide Step, Numbered, NewOnesSent;
    case CmdLeave(size) =>
      LeaveStep(s, size);
      if s.state == Established { IssuedIsSent(s, Step(s, c), GOODBYE, size, true, false); }
      else { RefusedIsSent(s, Step(s, c), true); }
      hide Step, Numbered, NewOnesSent;
    case CmdRequest(t, size) =>
      RequestStep(s, t, size);
      if s.state == Established { IssuedIsSent(s, Step(s, c), t, size, false, false); }
      else { RefusedIsSent(s, Step(s, c), false); }
      hide Step, Numbered, NewOnesSent;
    case CmdOngoingCall(size) =>
      OngoingCallStep(s, size);
      if s.state == Established { IssuedIsSent(s, Step(s, c), CALL, size, false, true); }
      else { RefusedIsSent(s, Step(s, c), false); }
      hide Step, Numbered, NewOnesSent;
  }

  lemma RefusedIsSent(s: Session, s1: Session, adjourning: bool)
    requires Refused(s, s1, adjourning)
    ensures NewOnesSent(s, s1)
  {
  }

  /** Every command sends what it should and nothing else. */
  lemma StepSends(s: Session, c: Command)
    requires Numbered(s) && Shaped(s) && Enabled(s, c)
    ensures Step(s, c).sent == s.sent + Gained(s, c)
  {
    assert s.sent + [] == s.sent;
    if HandsIn(c) {
      RequestsSend(s, c);
      hide Step, Gained, NewOnesSent, Numbered;
    } else {
      match c
      case CmdSend(t, size) => SendStep(s, t, size); hide Step, Gained, Numbered;
      case CmdCancelCall(id, kill, size) => CancelStep(s, id, kill, size); hide Step, Numbered;
      case CmdReceive(input) => ReceiveSends(s, input); hide Step, Gained;
      case CmdDisconnect => EndingsSendNothing(s, SessionEnded); hide Step, Numbered;
      case CmdTerminate => EndingsSendNothing(s, SessionEnded); hide Step, Numbered;
      case CmdTransportError(ec) => EndingsSendNothing(s, ec); hide Step, Numbered;
      case CmdRunTask => RunTaskStep(s); hide Step, Numbered;
      case CmdOpen(maxTxLength) => ConnectionSteps(s, maxTxLength); hide Step, Numbered;
      case CmdConnect => ConnectionSteps(s, 0); hide Step, Numbered;
      case CmdConnectFailed => ConnectionSteps(s, 0); hide Step, Numbered;
    }
  }

  // ----- What is pending has been sent ----------------------------------------------------

  ghost predicate PendingSent(s: Session)
  {
    (forall k :: k in s.oneShot ==> k in s.sent) && (forall k :: k in s.multiShot ==> k in s.sent)
  }

  /** Requests that become pending in a step are sent in it. */
  ghost predicate NewOnesSent(s: Session, s1: Session)
  {
    && (forall k :: k in s1.oneShot ==> k in s.oneShot || k in s1.sent)
    && (forall k :: k in s1.multiShot ==> k in s.multiShot || k in s1.sent)
  }

  lemma IssuedIsSent(s: Session, s1: Session, t: MsgType, size: nat, adjourning: bool, multi: bool)
    requires Issued(s, s1, t, size, adjourning, multi)
    ensures NewOnesSent(s, s1)
  {
    hide FreshKey, Given;
  }

  lemma PrunedIsSent(s: Session, s1: Session)
    requires Pruned(s, s1)
    ensures NewOnesSent(s, s1)
  {
  }

  lemma EndingsSendNewOnes(s: Session, ec: Errc)
    requires Shaped(s)
    ensures forall c :: c in {CmdDisconnect, CmdTerminate, CmdTransportError(ec)} ==> NewOnesSent(s, Step(s, c))
  {
    EndingsSendNothing(s, ec);
    hide Step, Shaped;
  }

  lemma ConnectingSendsNewOnes(s: Session, maxTxLength: nat)
    requires Shaped(s)
    ensures NewOnesSent(s, Step(s, CmdConnect))
    ensures forall c :: c in {CmdConnectFailed, CmdOpen(maxTxLength)} && Enabled(s, c) ==> NewOnesSent(s, Step(s, c))
  {
    ConnectionSteps(s, maxTxLength);
    hide Step;
  }

  lemma TaskSendsNewOnes(s: Session)
    requires Shaped(s) && s.posted != []
    ensures NewOnesSent(s, Step(s, CmdRunTask))
  {
    RunTaskStep(s);
    hide Step;
  }

  lemma SendSendsNewOnes(s: Session, t: MsgType, size: nat)
    requires Numbered(s) && Shaped(s)
    ensures NewOnesSent(s, Step(s, CmdSend(t, size)))
  {
    SendStep(s, t, size);
    hide Step, Gained, Numbered;
  }

  lemma StepSendsNewOnes(s: Session, c: Command)
    requires Numbered(s) && Shaped(s) && Enabled(s, c)
    ensures NewOnesSent(s, Step(s, c))
  {
    if HandsIn(c) {
      RequestsSend(s, c);
      hide Step, Gained, NewOnesSent, Numbered;
    } else {
      hide NewOnesSent, Numbered, Pruned;
      match c
      case CmdSend(t, size) => SendSendsNewOnes(s, t, size); hide Step;
      case CmdCancelCall(id, kill, size) =>
        if s.state == Established {
          CancelPrunes(s, id, kill, size);
          PrunedIsSent(s, CancelCall(s, id, kill, size));
        } else {
          SameIsPruned(s);
          PrunedIsSent(s, s);
        }
        hide CancelCall;
      case CmdReceive(input) => RxPrunes(s, input); PrunedIsSent(s, OnTransportRx(s, input)); hide OnTransportRx;
      case CmdTransportError(ec) => EndingsSendNewOnes(s, ec); hide Step;
      case CmdOpen(maxTxLength) => ConnectingSendsNewOnes(s, maxTxLength); hide Step;
      case CmdConnect => ConnectingSendsNewOnes(s, 0); hide Step;
      case CmdConnectFailed => ConnectingSendsNewOnes(s, 0); hide Step;
      case CmdDisconnect => EndingsSendNewOnes(s, SessionEnded); hide Step;
      case CmdTerminate => EndingsSendNewOnes(s, SessionEnded); hide Step;
      case CmdRunTask => TaskSendsNewOnes(s); hide Step;
    }
  }

  lemma SameIsPruned(s: Session)
    ensures Pruned(s, s)
  {
  }

  lemma StepPendingSent(s: Session, c: Command)
    requires Numbered(s) && Shaped(s) && Enabled(s, c) && PendingSent(s)
    ensures PendingSent(Step(s, c))
  {
    StepSends(s, c);
    StepSendsNewOnes(s, c);
    hide Step, Gained, Numbered, Shaped, Enabled;
  }

  lemma {:induction false} RunPendingSent(s: Session, commands: seq<Command>)
    requires Shaped(s) && CanRun(s, commands) && Numbered(s) && PendingSent(s)
    ensures PendingSent(Run(s, commands))
    decreases |commands|
  {
    hide Shaped, Numbered, PendingSent, Step, Enabled;
    if commands != [] {
      StepKeepsShape(s, commands[0]);
      StepNumbered(s, commands[0]);
      StepPendingSent(s, commands[0]);
      RunPendingSent(Step(s, commands[0]), commands[1..]);
    }
  }

  /** On every run, every request that is pending has been sent. */
  lemma PendingRequestsWereSent(isRouter: bool, commands: seq<Command>)
    requires CanRun(Fresh(isRouter), commands)
    ensures var s := Run(Fresh(isRouter), commands);
            (forall k :: k in s.oneShot ==> k in s.sent) && (forall k :: k in s.multiShot ==> k in s.sent)
  {
    FreshIsNumbered(isRouter);
    RunPendingSent(Fresh(isRouter), commands);
  }

  /** On every run, each command sends exactly the messages it should: a request that fits its key
      with the id drawn for it, a cancellation a CANCEL if the call was pending, a GOODBYE that comes
      first another. */
  lemma CommandsSend(isRouter: bool, commands: seq<Command>, c: Command)
    requires CanRun(Fresh(isRouter), commands + [c])
    ensures CanRun(Fresh(isRouter), commands)
    ensures Run(Fresh(isRouter), commands + [c]).sent
         == Run(Fresh(isRouter), commands).sent + Gained(Run(Fresh(isRouter), commands), c)
  {
    RunThen(Fresh(isRouter), commands, c);
    FreshIsNumbered(isRouter);
    RunIsNumbered(Fresh(isRouter), commands);
    hide Run, CanRun, Step, Gained, Numbered, Shaped;
    StepSends(Run(Fresh(isRouter), commands), c);
  }
}

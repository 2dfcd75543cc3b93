/** What each state of a client session says about its pending requests, and where that
    ends. */
module SessionStates {
  import opened WampMessages
  import opened Handlers
  import opened Sessions

  // ----- What each session state guarantees -----------------------------------------------

  /** An id-bearing request pends under the id drawn for it. */
  predicate RequestFits(k: Key, h: Handler, drawnBy: seq<IdUse>)
  {
    && IsRequestType(k.msgType) && !h.adjourning
    && h.draw < |drawnBy| && drawnBy[h.draw] == IdUse(k.msgType, h.token) && k.id == IdOfDraw(h.draw)
  }

  /** HELLO pends only while a session is being established, GOODBYE only while it is shut
      down, other requests only while it is established or shut down. */
  predicate KeyFits(k: Key, h: Handler, state: State, drawnBy: seq<IdUse>)
  {
    if k == Key(HELLO, 0) then !h.adjourning && state in {Establishing, Authenticating}
    else if k == Key(GOODBYE, 0) then h.adjourning && state == ShuttingDown
    else RequestFits(k, h, drawnBy) && state in {Established, ShuttingDown}
  }

  predicate OneShotFits(m: RequestMap, state: State, drawnBy: seq<IdUse>)
  {
    forall k :: k in m ==> KeyFits(k, m[k], state, drawnBy)
  }

  predicate MultiShotFits(m: RequestMap, state: State, drawnBy: seq<IdUse>)
  {
    forall k :: k in m ==> k.msgType == CALL && RequestFits(k, m[k], drawnBy) && state in {Established, ShuttingDown}
  }

  /** The last id is that of the latest draw. */
  predicate IdsFit(s: Session)
  {
    s.lastId == if s.drawnBy == [] then 0 else IdOfDraw(|s.drawnBy| - 1)
  }

  predicate Keyed(s: Session)
  {
    && !s.isRouter && IdsFit(s)
    && OneShotFits(s.oneShot, s.state, s.drawnBy) && MultiShotFits(s.multiShot, s.state, s.drawnBy)
    && (s.state == ShuttingDown ==> Key(GOODBYE, 0) in s.oneShot)
  }

  lemma NoPendingElsewhere(s: Session)
    requires Keyed(s) && s.state !in {Establishing, Authenticating, Established, ShuttingDown}
    ensures s.oneShot == map[] && s.multiShot == map[]
  {
    assert s.oneShot.Keys == {} && s.multiShot.Keys == {};
  }

  lemma AbortedIsKeyed(s: Session, ec: Errc, state: State)
    requires !s.isRouter && IdsFit(s) && state != ShuttingDown
    ensures Keyed(AbortPending(s, ec).(state := state)) && Keyed(AbortPending(s.(state := state), ec))
    ensures AbortPending(s.(state := state), ec).state == state
  {
  }

  lemma FailKeyed(s: Session, ec: Errc)
    requires Keyed(s)
    ensures Keyed(Fail(s, ec))
  {
    AbortedIsKeyed(s, ec, Failed);
    hide AbortPending, OneShotFits, MultiShotFits;
  }

  lemma CloseKeyed(s: Session)
    requires Keyed(s)
    ensures Keyed(Close(s))
  {
    AbortedIsKeyed(s, SessionEnded, Disconnected);
    hide AbortPending, OneShotFits, MultiShotFits;
  }

  lemma WithIdKeyed(s: Session, t: MsgType, owner: int)
    requires Keyed(s)
    ensures Keyed(WithId(s, t, owner))
    ensures HasRequestId(t) ==> KeyFor(s, t).id == IdOfDraw(|s.drawnBy|)
  {
    var s1 := WithId(s, t, owner);
    forall k | k in s.oneShot ensures KeyFits(k, s.oneShot[k], s.state, s1.drawnBy) {
      assert KeyFits(k, s.oneShot[k], s.state, s.drawnBy);
    }
    forall k | k in s.multiShot ensures RequestFits(k, s.multiShot[k], s1.drawnBy) {
      assert RequestFits(k, s.multiShot[k], s.drawnBy);
    }
  }

  lemma SendMessageKeyed(s: Session, t: MsgType, size: nat)
    requires Keyed(s) && s.hasTransport
    ensures Keyed(SendMessage(s, t, size))
  {
    WithIdKeyed(s, t, -1);
    hide OneShotFits, MultiShotFits, WithId;
  }

  lemma SendCancelKeyed(s: Session, id: int, size: nat)
    requires Keyed(s) && s.hasTransport
    ensures Keyed(SendCancel(s, id, size))
  {
    hide OneShotFits, MultiShotFits;
  }

  lemma EnlistKeyed(s: Session, key: Key, h: Handler, multi: bool)
    requires Keyed(s)
    requires if multi then key.msgType == CALL && RequestFits(key, h, s.drawnBy)
             && s.state in {Established, ShuttingDown}
             else KeyFits(key, h, s.state, s.drawnBy)
    ensures Keyed(Enlisted(s, key, h, multi))
  {
    hide KeyFits, RequestFits;
  }

  lemma SendRequestKeyed(s: Session, t: MsgType, size: nat, h: Handler, multi: bool)
    requires Keyed(s) && s.hasTransport && s.state == Established && !h.adjourning
    requires IsRequestType(t) && (multi ==> t == CALL)
    ensures Keyed(SendRequest(s, t, size, h, multi))
  {
    WithIdKeyed(s, t, h.token);
    var s1, h1 := WithId(s, t, h.token), h.(draw := |s.drawnBy|);
    assert RequestFits(KeyFor(s, t), h1, s1.drawnBy);
    EnlistKeyed(s1, KeyFor(s, t), h1, multi);
    hide Enlisted, OneShotFits, MultiShotFits, RequestFits;
  }

  lemma RequestKeyed(s: Session, t: MsgType, size: nat, multi: bool)
    requires Keyed(s) && TransportFits(s) && IsRequestType(t) && (multi ==> t == CALL)
    ensures Keyed(Request(s, t, size, multi))
  {
    hide OneShotFits, MultiShotFits, SendRequest, IsRequestType;
    var h := NewHandler(s, false);
    var s1 := if multi then HandedIn(s).(ongoing := s.ongoing + {h.token}) else HandedIn(s);
    if s.state == Established {
      SendRequestKeyed(s1, t, size, h, multi);
    }
  }

  lemma JoinKeyed(s: Session, size: nat)
    requires Keyed(s) && TransportFits(s)
    ensures Keyed(Join(s, size))
  {
    if s.state == Closed {
      NoPendingElsewhere(s);
      var s1 := Opening(s);
      assert Keyed(s1);
      EnlistKeyed(s1, Key(HELLO, 0), NewHandler(s, false).(draw := |s1.drawnBy|), false);
      hide Enlisted, OneShotFits, MultiShotFits;
    }
  }

  /** The first GOODBYE may not be left out: its handler is what empties the maps. */
  lemma LeaveKeyed(s: Session, size: nat)
    requires Keyed(s) && TransportFits(s) && (s.state == Established ==> size <= s.maxTxLength)
    ensures Keyed(Leave(s, size))
  {
    if s.state == Established {
      var s1 := Leaving(s);
      var h := NewHandler(s, true).(draw := |s1.drawnBy|);
      assert KeyFits(Key(GOODBYE, 0), h, ShuttingDown, s1.drawnBy);
      assert Key(GOODBYE, 0) !in s.oneShot;
      forall k | k in s.oneShot ensures KeyFits(k, s.oneShot[k], ShuttingDown, s.drawnBy) {
        assert KeyFits(k, s.oneShot[k], Established, s.drawnBy);
      }
      hide KeyFits, RequestFits;
    }
  }

  lemma CancelKeyed(s: Session, id: int, kill: bool, size: nat)
    requires Keyed(s) && s.hasTransport
    ensures Keyed(CancelCall(s, id, kill, size))
  {
    var key := Key(CALL, id);
    var s1 := Uncall(s, key, kill);
    assert Keyed(s1) && s1.hasTransport by {
      hide KeyFits, RequestFits;
    }
    hide Uncall, Keyed;
    if IsPending(s, key) {
      SendCancelKeyed(s1, id, size);
    }
    hide SendCancel;
  }

  lemma ReplyKeyed(s: Session, key: Key, msg: Message)
    requires Keyed(s) && s.state in {Established, ShuttingDown}
    ensures Keyed(ProcessWampReply(s, key, msg))
  {
    if key in s.oneShot {
      assert KeyFits(key, s.oneShot[key], s.state, s.drawnBy);
      var s1 := s.(oneShot := s.oneShot - {key});
      if s.oneShot[key].adjourning {
        AbortedIsKeyed(s1, SessionEnded, Closed);
        hide AbortPending, OneShotFits, MultiShotFits;
      } else {
        hide KeyFits, RequestFits, AbortPending;
      }
    } else if key in s.multiShot {
      assert RequestFits(key, s.multiShot[key], s.drawnBy);
      hide KeyFits, RequestFits, AbortPending;
    }
  }

  /** While the session is being established only HELLO pends. */
  lemma OnlyHelloPends(s: Session)
    requires Keyed(s) && s.state in {Establishing, Authenticating}
    ensures s.multiShot == map[] && s.oneShot - {Key(HELLO, 0)} == map[]
    ensures Key(HELLO, 0) in s.oneShot ==> !s.oneShot[Key(HELLO, 0)].adjourning
    ensures Key(HELLO, 0) !in s.oneShot ==> s.oneShot == map[]
  {
    assert s.multiShot.Keys == {};
    assert s.oneShot.Keys <= {Key(HELLO, 0)};
    if Key(HELLO, 0) in s.oneShot {
      assert KeyFits(Key(HELLO, 0), s.oneShot[Key(HELLO, 0)], s.state, s.drawnBy);
    } else {
      assert s.oneShot.Keys == {};
    }
  }

  lemma HelloAnswered(s: Session, msg: Message, state: State)
    requires Keyed(s) && s.state in {Establishing, Authenticating} && state != ShuttingDown
    ensures Keyed(ProcessWampReply(s.(state := state), Key(HELLO, 0), msg))
  {
    OnlyHelloPends(s);
    var s1 := ProcessWampReply(s.(state := state), Key(HELLO, 0), msg);
    assert s1.oneShot == map[] && s1.multiShot == map[] && s1.state == state;
  }

  lemma AbortMsgKeyed(s: Session, msg: Message, ec: Errc)
    requires Keyed(s)
    ensures Keyed(ProcessAbort(s, msg, ec))
  {
    hide ProcessWampReply, Fail, OneShotFits, MultiShotFits;
    if s.state in {Establishing, Authenticating} {
      HelloAnswered(s, msg, Closed);
    }
    FailKeyed(s, ec);
  }

  lemma GoodbyeAnswered(s: Session, msg: Message)
    requires Keyed(s) && s.state == ShuttingDown && msg.msgType == GOODBYE
    ensures var s1 := ProcessWampReply(s.(state := Closed), RequestKey(msg), msg); Keyed(s1) && s1.state == Closed
  {
    var key := Key(GOODBYE, 0);
    assert RequestKey(msg) == key && KeyFits(key, s.oneShot[key], s.state, s.drawnBy);
    AbortedIsKeyed(s.(oneShot := s.oneShot - {key}), SessionEnded, Closed);
    hide AbortPending, OneShotFits, MultiShotFits, RequestKey;
  }

  lemma GoodbyeKeyed(s: Session, msg: Message, ec: Errc)
    requires Keyed(s) && s.hasTransport && s.state in {Established, ShuttingDown} && msg.msgType == GOODBYE
    ensures Keyed(ProcessGoodbye(s, msg, ec)) && ProcessGoodbye(s, msg, ec).state == Closed
  {
    if s.state == ShuttingDown {
      GoodbyeAnswered(s, msg);
      hide ProcessWampReply, Keyed;
    } else {
      AbortedIsKeyed(s, ec, Closed);
      assert AbortPending(s, ec).hasTransport;
      hide AbortPending, OneShotFits, MultiShotFits, ProcessWampReply, RequestKey;
    }
  }

  lemma PassingOnKeyed(s: Session, msg: Message)
    requires Keyed(s)
    ensures s.state in {Establishing, Authenticating} ==> Keyed(ProcessChallenge(s, msg))
    ensures Keyed(ProcessUnsolicited(s, msg))
  {
    if s.state in {Establishing, Authenticating} {
      OnlyHelloPends(s);
      forall k | k in s.oneShot ensures KeyFits(k, s.oneShot[k], Authenticating, s.drawnBy) {
        assert KeyFits(k, s.oneShot[k], s.state, s.drawnBy);
      }
    }
    hide KeyFits, RequestFits;
  }

  lemma MessageKeyed(s: Session, msg: Message, ec: Errc)
    requires Keyed(s) && s.hasTransport && IsValidRx(msg.msgType, s.state, false)
    ensures Keyed(ProcessMessage(s, msg, ec))
  {
    hide Keyed, ProcessWampReply, ProcessChallenge, ProcessAbort, ProcessGoodbye, ProcessUnsolicited,
      RequestKey, RequestId;
    PassingOnKeyed(s, msg);
    if s.state in {Established, ShuttingDown} {
      ReplyKeyed(s, Key(RepliesTo(msg.msgType), RequestId(msg)), msg);
      ReplyKeyed(s, RequestKey(msg), msg);
    } else {
      HelloAnswered(s, msg, Established);
    }
    if msg.msgType == GOODBYE {
      GoodbyeKeyed(s, msg, ec);
    }
    AbortMsgKeyed(s, msg, ec);
  }

  lemma RxKeyed(s: Session, input: Input)
    requires Keyed(s) && (ReadyToReceive(s) ==> s.hasTransport)
    ensures Keyed(OnTransportRx(s, input))
  {
    hide Fail, ProcessMessage, IsValidRx;
    FailKeyed(s, ProtocolViolation);
    if ReadyToReceive(s) && input.Undecodable? {
      FailKeyed(s, input.ec);
    }
    if ReadyToReceive(s) && input.Parsed? && IsValidRx(input.msg.msgType, s.state, s.isRouter) {
      MessageKeyed(s, input.msg, input.reason);
    }
    hide Keyed;
  }

  lemma RunTaskKeyed(s: Session)
    requires Keyed(s) && s.posted != [] && PostedAreFailures(s.posted)
    ensures Keyed(RunTask(s))
  {
    hide KeyFits, RequestFits, AbortPending;
  }

  lemma ConnectingKeyed(s: Session, maxTxLength: nat)
    requires Keyed(s)
    ensures Keyed(Connect(s))
    ensures s.state in {Connecting, Disconnected, Failed} ==> Keyed(s.(state := Failed))
    ensures s.state == Connecting ==> Keyed(Open(s, maxTxLength))
  {
    if s.state in {Connecting, Disconnected, Failed} {
      NoPendingElsewhere(s);
    }
  }

  /** The one thing a caller has to see to: the GOODBYE it leaves with is not too long. */
  predicate GoodbyeFits(s: Session, c: Command)
  {
    c.CmdLeave? && s.state == Established ==> c.size <= s.maxTxLength
  }

  lemma StepKeyed(s: Session, c: Command)
    requires Keyed(s) && Shaped(s) && Enabled(s, c) && GoodbyeFits(s, c)
    ensures Keyed(Step(s, c))
  {
    hide Keyed, Join, Leave, Close, Request, SendMessage, CancelCall, OnTransportRx, Fail, RunTask, Connect, Open;
    match c
    case CmdConnect => ConnectingKeyed(s, 0);
    case CmdConnectFailed => ConnectingKeyed(s, 0);
    case CmdOpen(maxTxLength) => ConnectingKeyed(s, maxTxLength);
    case CmdJoin(size) => JoinKeyed(s, size);
    case CmdLeave(size) => LeaveKeyed(s, size);
    case CmdDisconnect => CloseKeyed(s);
    case CmdTerminate => TerminatingKeyed(s); CloseKeyed(s.(terminating := true));
    case CmdRequest(t, size) => RequestKeyed(s, t, size, false);
    case CmdOngoingCall(size) => RequestKeyed(s, CALL, size, true);
    case CmdSend(t, size) => if MaySend(s, t) { SendMessageKeyed(s, t, size); }
    case CmdCancelCall(id, kill, size) => if s.state == Established { CancelKeyed(s, id, kill, size); }
    case CmdReceive(input) => RxKeyed(s, input);
    case CmdTransportError(ec) => FailKeyed(s, ec);
    case CmdRunTask => RunTaskKeyed(s);
  }

  lemma TerminatingKeyed(s: Session)
    requires Keyed(s)
    ensures Keyed(s.(terminating := true))
  {
    hide KeyFits, RequestFits;
  }

  /** Leaving with a GOODBYE that is too long ends the session with nothing to answer it. */
  lemma OversizedGoodbyeUnkeyed(s: Session, c: Command)
    requires Keyed(s) && Shaped(s) && Enabled(s, c) && !GoodbyeFits(s, c)
    ensures Step(s, c).state == ShuttingDown && Key(GOODBYE, 0) !in Step(s, c).oneShot
  {
    var key := Key(GOODBYE, 0);
    if key in s.oneShot {
      assert KeyFits(key, s.oneShot[key], Established, s.drawnBy);
    }
    assert Step(s, c).oneShot == s.oneShot;
  }

  /** A step keeps the guarantees if and only if its GOODBYE, if there is one, fits. */
  lemma StepKeyedIff(s: Session, c: Command)
    requires Keyed(s) && Shaped(s) && Enabled(s, c)
    ensures Keyed(Step(s, c)) <==> GoodbyeFits(s, c)
  {
    if GoodbyeFits(s, c) {
      StepKeyed(s, c);
    } else {
      OversizedGoodbyeUnkeyed(s, c);
    }
    hide Step;
  }

  /** What a state says about the transport and about the requests that may pend. */
  ghost predicate Guaranteed(s: Session)
  {
    && (s.hasTransport <==> s.state in {Closed, Establishing, Authenticating, Established, ShuttingDown})
    && (Key(HELLO, 0) in s.oneShot ==> s.state in {Establishing, Authenticating})
    && (Key(GOODBYE, 0) in s.oneShot <==> s.state == ShuttingDown)
    && (forall k :: k in s.oneShot && k != Key(HELLO, 0) && k != Key(GOODBYE, 0) ==>
          IsRequestType(k.msgType) && 1 <= k.id <= MAX_REQUEST_ID && s.state in {Established, ShuttingDown})
    && (forall k :: k in s.multiShot ==>
          k.msgType == CALL && 1 <= k.id <= MAX_REQUEST_ID && s.state in {Established, ShuttingDown})
    && (s.state !in {Establishing, Authenticating, Established, ShuttingDown} ==>
          s.oneShot == map[] && s.multiShot == map[])
  }

  lemma KeyedIsGuaranteed(s: Session)
    requires Keyed(s) && Shaped(s)
    ensures Guaranteed(s)
  {
    if s.state !in {Establishing, Authenticating, Established, ShuttingDown} {
      NoPendingElsewhere(s);
    }
    if Key(GOODBYE, 0) in s.oneShot {
      assert KeyFits(Key(GOODBYE, 0), s.oneShot[Key(GOODBYE, 0)], s.state, s.drawnBy);
    }
  }

  /** The guarantees hold at the start of a run and after every command of it. */
  ghost predicate AlwaysGuaranteed(s: Session, commands: seq<Command>)
    requires Shaped(s) && CanRun(s, commands)
    decreases |commands|
  {
    Guaranteed(s) &&
    (commands == [] || (StepKeepsShape(s, commands[0]); AlwaysGuaranteed(Step(s, commands[0]), commands[1..])))
  }

  /** Every GOODBYE of the run fits. */
  ghost predicate GoodbyesFit(s: Session, commands: seq<Command>)
    requires Shaped(s) && CanRun(s, commands)
    decreases |commands|
  {
    commands == [] ||
    (GoodbyeFits(s, commands[0]) && (StepKeepsShape(s, commands[0]); GoodbyesFit(Step(s, commands[0]), commands[1..])))
  }

  lemma {:induction false} RunGuaranteedIff(s: Session, commands: seq<Command>)
    requires Shaped(s) && CanRun(s, commands) && Keyed(s)
    ensures AlwaysGuaranteed(s, commands) <==> GoodbyesFit(s, commands)
    decreases |commands|
  {
    KeyedIsGuaranteed(s);
    if commands != [] {
      var c := commands[0];
      StepKeepsShape(s, c);
      StepKeyedIff(s, c);
      if GoodbyeFits(s, c) {
        hide Shaped, Keyed, Step, Enabled, GoodbyeFits, Guaranteed;
        RunGuaranteedIff(Step(s, c), commands[1..]);
      } else {
        OversizedGoodbyeUnkeyed(s, c);
        hide Shaped, Keyed, Step, Enabled, GoodbyeFits;
        assert !Guaranteed(Step(s, c));
      }
    }
  }

  /** What the states of a client session guarantee, they guarantee after every command of a run
      if and only if every GOODBYE that the client leaves with fits the transport. */
  lemma StatesGuarantee(commands: seq<Command>)
    requires CanRun(Fresh(false), commands)
    ensures AlwaysGuaranteed(Fresh(false), commands) <==> GoodbyesFit(Fresh(false), commands)
  {
    RunGuaranteedIff(Fresh(false), commands);
  }

  // ----- Where the guarantees end ---------------------------------------------------------

  /** A session left with a GOODBYE and answered by one ends with empty maps exactly when the
      GOODBYE fitted the transport or nothing was pending: an oversized one is never sent, and
      then nothing is left to empty the maps when the router says goodbye itself. */
  lemma LeavingIsCleanIff(s: Session, size: nat, reply: Message, ec: Errc)
    requires Keyed(s) && Shaped(s) && s.state == Established && reply.msgType == GOODBYE
    ensures var s1 := Leave(s, size);
            && s1.state == ShuttingDown && s1.hasTransport
            && var s2 := ProcessGoodbye(s1, reply, ec);
            && s2.state == Closed
            && (s2.oneShot == map[] && s2.multiShot == map[] <==>
                  size <= s.maxTxLength || (s.oneShot == map[] && s.multiShot == map[]))
  {
    var key := Key(GOODBYE, 0);
    if key in s.oneShot {
      assert KeyFits(key, s.oneShot[key], Established, s.drawnBy);
    }
    assert RequestKey(reply) == key;
    hide KeyFits, RequestFits;
  }

  /** And a client can get there: connect, join, be welcomed, and leave with a GOODBYE of 600
      bytes where 512 fit. */
  lemma OversizedGoodbyeIsReachable()
    ensures exists commands :: CanRun(Fresh(false), commands)
              && !GoodbyesFit(Fresh(false), commands)
              && var s := Run(Fresh(false), commands);
                 s.state == ShuttingDown && s.oneShot == map[] && s.multiShot == map[]
  {
    var s0 := Fresh(false);
    var s3 := JoiningSession();
    var rest := OversizedGoodbye(s3);
    hide Step, Shaped, GoodbyeFits, Run, CanRun, GoodbyesFit;
    RunOf(Step(Step(s0, CmdConnect), CmdOpen(512)), CmdJoin(100), rest);
    RunOf(Step(s0, CmdConnect), CmdOpen(512), [CmdJoin(100)] + rest);
    RunOf(s0, CmdConnect, [CmdOpen(512)] + ([CmdJoin(100)] + rest));
  }

  lemma OversizedGoodbye(s: Session) returns (commands: seq<Command>)
    requires Shaped(s) && s.state == Establishing && s.hasTransport && !s.isRouter && s.maxTxLength == 512
    requires s.oneShot == map[Key(HELLO, 0) := Handler(0, false, 0)] && s.multiShot == map[]
    ensures CanRun(s, commands) && !GoodbyesFit(s, commands)
    ensures var s1 := Run(s, commands);
            s1.state == ShuttingDown && s1.oneShot == map[] && s1.multiShot == map[]
  {
    var welcome, leave := CmdReceive(Parsed(Message(WELCOME, 0, 0, false), SessionEnded)), CmdLeave(600);
    WelcomedSession(s);
    var s1 := Step(s, welcome);
    LeftSession(s1);
    hide Step, Shaped, GoodbyeFits;
    RunOf(s1, leave, []);
    assert Run(Step(s1, leave), []) == Step(s1, leave);
    hide Run, CanRun, GoodbyesFit;
    RunOf(s, welcome, [leave] + []);
    commands := [welcome] + ([leave] + []);
  }

  lemma WelcomedSession(s: Session)
    requires Shaped(s) && s.state == Establishing && s.hasTransport && !s.isRouter && s.maxTxLength == 512
    requires s.oneShot == map[Key(HELLO, 0) := Handler(0, false, 0)] && s.multiShot == map[]
    ensures var c := CmdReceive(Parsed(Message(WELCOME, 0, 0, false), SessionEnded));
            && Enabled(s, c)
            && var s1 := Step(s, c);
            && Shaped(s1) && s1.state == Established && s1.maxTxLength == 512
            && s1.oneShot == map[] && s1.multiShot == map[]
  {
    var msg := Message(WELCOME, 0, 0, false);
    assert OnTransportRx(s, Parsed(msg, SessionEnded)) == ProcessWelcome(s, msg);
    assert s.oneShot - {Key(HELLO, 0)} == map[];
    hide OnTransportRx;
  }

  lemma LeftSession(s: Session)
    requires Shaped(s) && s.state == Established && s.maxTxLength == 512 && s.oneShot == map[] && s.multiShot == map[]
    ensures Enabled(s, CmdLeave(600)) && !GoodbyeFits(s, CmdLeave(600))
    ensures var s1 := Step(s, CmdLeave(600));
            Shaped(s1) && s1.state == ShuttingDown && s1.oneShot == map[] && s1.multiShot == map[]
  {
    LeaveKeepsShape(s, 600);
  }

  /** The assertions of the processing functions hold for every admissible message but a
      second CHALLENGE: the traits table admits it while authenticating, where the assertion
      of its processing function does not. */
  lemma AssertionsHoldIff(s: Session, msg: Message)
    requires IsValidRx(msg.msgType, s.state, s.isRouter)
    ensures AssertionsHold(s, msg) <==> !(msg.msgType == CHALLENGE && s.state == Authenticating)
  {
  }

  /** And a client can get there: connect, join, and be challenged. */
  lemma SecondChallengeIsReachable()
    ensures exists commands :: CanRun(Fresh(false), commands)
              && var s := Run(Fresh(false), commands);
                 IsValidRx(CHALLENGE, s.state, s.isRouter) && !AssertionsHold(s, Message(CHALLENGE, 0, 0, false))
  {
    var s0 := Fresh(false);
    var challenge := CmdReceive(Parsed(Message(CHALLENGE, 0, 0, false), SessionEnded));
    var s3 := JoiningSession();
    var s4 := Step(s3, challenge);
    ChallengedSession(s3);
    AuthenticatingAdmitsChallenge();
    hide Step, Shaped, IsValidRx;
    RunOf(s3, challenge, []);
    RunOf(Step(Step(s0, CmdConnect), CmdOpen(512)), CmdJoin(100), [challenge] + []);
    RunOf(Step(s0, CmdConnect), CmdOpen(512), [CmdJoin(100)] + ([challenge] + []));
    RunOf(s0, CmdConnect, [CmdOpen(512)] + ([CmdJoin(100)] + ([challenge] + [])));
  }

  lemma RunOf(s: Session, c: Command, rest: seq<Command>)
    requires Shaped(s) && Enabled(s, c) && Shaped(Step(s, c)) && CanRun(Step(s, c), rest)
    ensures CanRun(s, [c] + rest) && Run(s, [c] + rest) == Run(Step(s, c), rest)
    ensures GoodbyesFit(s, [c] + rest) <==> GoodbyeFits(s, c) && GoodbyesFit(Step(s, c), rest)
  {
    hide Shaped, Step;
    assert ([c] + rest)[1..] == rest;
  }

  lemma JoiningSession() returns (s: Session)
    ensures var s0 := Fresh(false);
            && Shaped(s0) && Enabled(s0, CmdConnect)
            && var s1 := Step(s0, CmdConnect);
            && Shaped(s1) && Enabled(s1, CmdOpen(512))
            && var s2 := Step(s1, CmdOpen(512));
            && Shaped(s2) && Enabled(s2, CmdJoin(100)) && s == Step(s2, CmdJoin(100))
    ensures Shaped(s) && s.state == Establishing && s.hasTransport && !s.isRouter && s.maxTxLength == 512
    ensures s.oneShot == map[Key(HELLO, 0) := Handler(0, false, 0)] && s.multiShot == map[]
  {
    var s1 := Connect(Fresh(false));
    var s2 := Open(s1, 512);
    s := Join(s2, 100);
    JoinKeepsShape(s2, 100);
  }

  lemma ChallengedSession(s: Session)
    requires Shaped(s) && s.state == Establishing && s.hasTransport && !s.isRouter
    ensures var c := CmdReceive(Parsed(Message(CHALLENGE, 0, 0, false), SessionEnded));
            Enabled(s, c) && Shaped(Step(s, c)) && Step(s, c).state == Authenticating && !Step(s, c).isRouter
  {
    var msg := Message(CHALLENGE, 0, 0, false);
    assert OnTransportRx(s, Parsed(msg, SessionEnded)) == ProcessChallenge(s, msg);
    hide OnTransportRx;
  }

  lemma AuthenticatingAdmitsChallenge()
    ensures IsValidRx(CHALLENGE, Authenticating, false)
  {
  }

  /** What reaches the inbound message handler of a client is one of the four kinds it knows. */
  lemma InboundIsKnown(s: Session, msg: Message, ec: Errc)
    requires s.hasTransport && IsValidRx(msg.msgType, s.state, false)
    ensures var after := ProcessMessage(s, msg, ec).inbound;
            after == s.inbound ||
            (after == s.inbound + [msg] && msg.msgType in {CHALLENGE, EVENT, INVOCATION, INTERRUPT})
  {
    InboundStays(s, Key(RepliesTo(msg.msgType), RequestId(msg)), msg, ec);
    InboundStays(s, RequestKey(msg), msg, ec);
    InboundStays(s.(state := Established), Key(HELLO, 0), msg, ec);
    hide ProcessWampReply, ProcessAbort, ProcessGoodbye, RequestKey, RequestId;
  }

  lemma InboundStays(s: Session, key: Key, msg: Message, ec: Errc)
    ensures ProcessWampReply(s, key, msg).inbound == s.inbound
    ensures ProcessAbort(s, msg, ec).inbound == s.inbound
    ensures s.hasTransport ==> ProcessGoodbye(s, msg, ec).inbound == s.inbound
  {
    ReplyLeavesInbound(s, key, msg);
    ReplyLeavesInbound(s.(state := Closed), Key(HELLO, 0), msg);
    ReplyLeavesInbound(s.(state := Closed), RequestKey(msg), msg);
    AbortLeavesInbound(s, ec);
    AbortLeavesInbound(s.(state := Failed), ec);
    hide ProcessWampReply, AbortPending;
  }

  lemma AbortLeavesInbound(s: Session, ec: Errc)
    ensures AbortPending(s, ec).inbound == s.inbound && AbortPending(s, ec).hasTransport == s.hasTransport
  {
  }

  lemma ReplyLeavesInbound(s: Session, key: Key, msg: Message)
    ensures ProcessWampReply(s, key, msg).inbound == s.inbound
  {
    AbortLeavesInbound(s.(oneShot := s.oneShot - {key}, state := Closed), SessionEnded);
    AbortLeavesInbound(s.(multiShot := s.multiShot - {key}, state := Closed), SessionEnded);
    hide AbortPending;
  }
}

/** Replies reach their own requests: why the ids of pending requests tell them apart, and why a
    reply is only ever given to the handler of the request that it answers. Nothing is assumed
    of the sizes of messages, of what is received or of the order of calls. */
module SessionReplies {
  import opened WampMessages
  import opened Handlers
  import opened Sessions
  import opened SessionConservation
  import opened SessionStates

  predicate IsSessionKey(k: Key)
  {
    k == Key(HELLO, 0) || k == Key(GOODBYE, 0)
  }

  // ----- Pending requests and their ids ---------------------------------------------------

  /** HELLO and GOODBYE have no ids: their handlers are those that came with the request. */
  predicate PendingFits(k: Key, h: Handler, drawnBy: seq<IdUse>, sessionUses: seq<IdUse>)
  {
    if IsSessionKey(k) then IdUse(k.msgType, h.token) in sessionUses else RequestFits(k, h, drawnBy)
  }

  /** Every pending handler waits under the key of its own request. */
  ghost predicate HandlersFit(s: Session)
  {
    && (forall k :: k in s.oneShot ==> PendingFits(k, s.oneShot[k], s.drawnBy, s.sessionUses))
    && (forall k :: k in s.multiShot ==> RequestFits(k, s.multiShot[k], s.drawnBy))
  }

  ghost predicate Numbered(s: Session)
  {
    IdsFit(s) && HandlersFit(s)
  }

  /** Steps that draw no id and only take requests away. */
  ghost predicate Pruned(s: Session, s1: Session)
  {
    && s1.lastId == s.lastId && s1.drawnBy == s.drawnBy && s1.sessionUses == s.sessionUses
    && s.submitted <= s1.submitted
    && (forall k :: k in s1.oneShot ==> k in s.oneShot && s1.oneShot[k] == s.oneShot[k])
    && (forall k :: k in s1.multiShot ==> k in s.multiShot && s1.multiShot[k] == s.multiShot[k])
  }

  lemma PrunedIsNumbered(s: Session, s1: Session)
    requires Numbered(s) && Pruned(s, s1)
    ensures Numbered(s1)
  {
    hide PendingFits, RequestFits;
  }

  lemma AbortPrunes(s: Session, ec: Errc)
    ensures Pruned(s, AbortPending(s, ec)) && AbortPending(s, ec).hasTransport == s.hasTransport
  {
    hide Drain, Tasks, MapTokens;
  }

  lemma ClosingPrunes(s: Session, ec: Errc)
    ensures Pruned(s, Fail(s, ec)) && Pruned(s, Close(s))
  {
    AbortPrunes(s.(state := Failed), ec);
    AbortPrunes(s.(state := Disconnected), SessionEnded);
    hide AbortPending;
  }

  lemma InvokePrunes(s: Session, h: Handler, outcome: Outcome)
    ensures Pruned(s, Invoke(s, h, outcome))
  {
    AbortPrunes(s.(state := Closed), SessionEnded);
    hide AbortPending;
  }

  lemma ReplyPrunes(s: Session, key: Key, msg: Message)
    ensures Pruned(s, ProcessWampReply(s, key, msg))
  {
    if key in s.oneShot {
      InvokePrunes(s.(oneShot := s.oneShot - {key}), s.oneShot[key], Reply(msg));
    } else if key in s.multiShot {
      InvokePrunes(s.(multiShot := s.multiShot - {key}), s.multiShot[key], Reply(msg));
    }
    hide Invoke;
  }

  lemma GoodbyePrunes(s: Session, msg: Message, ec: Errc)
    requires s.hasTransport
    ensures Pruned(s, ProcessGoodbye(s, msg, ec))
  {
    ReplyPrunes(s.(state := Closed), RequestKey(msg), msg);
    AbortPrunes(s, ec);
    hide ProcessWampReply, AbortPending, RequestKey;
  }

  lemma AbortMsgPrunes(s: Session, msg: Message, ec: Errc)
    ensures Pruned(s, ProcessAbort(s, msg, ec)) && Pruned(s, ProcessWelcome(s, msg))
  {
    ReplyPrunes(s.(state := Established), Key(HELLO, 0), msg);
    ReplyPrunes(s.(state := Closed), Key(HELLO, 0), msg);
    ClosingPrunes(s, ec);
    hide ProcessWampReply, Fail;
  }

  lemma PassingOnPrunes(s: Session, msg: Message)
    ensures Pruned(s, ProcessHello(s, msg)) && Pruned(s, ProcessChallenge(s, msg))
    ensures Pruned(s, ProcessUnsolicited(s, msg))
  {
  }

  lemma MessagePrunes(s: Session, msg: Message, ec: Errc)
    requires s.hasTransport
    ensures Pruned(s, ProcessMessage(s, msg, ec))
  {
    hide Pruned, ProcessWampReply, ProcessHello, ProcessChallenge, ProcessUnsolicited, ProcessAbort, ProcessWelcome,
      ProcessGoodbye, RequestKey, RequestId, RepliesTo;
    ReplyPrunes(s, Key(RepliesTo(msg.msgType), RequestId(msg)), msg);
    ReplyPrunes(s, RequestKey(msg), msg);
    AbortMsgPrunes(s, msg, ec);
    GoodbyePrunes(s, msg, ec);
    PassingOnPrunes(s, msg);
  }

  lemma RxPrunes(s: Session, input: Input)
    requires ReadyToReceive(s) ==> s.hasTransport
    ensures Pruned(s, OnTransportRx(s, input))
  {
    ClosingPrunes(s, ProtocolViolation);
    if ReadyToReceive(s) && input.Undecodable? {
      ClosingPrunes(s, input.ec);
    }
    if ReadyToReceive(s) && input.Parsed? {
      MessagePrunes(s, input.msg, input.reason);
    }
    hide Fail, ProcessMessage, IsValidRx, Pruned;
  }

  lemma CancelPrunes(s: Session, id: int, kill: bool, size: nat)
    requires s.hasTransport
    ensures Pruned(s, CancelCall(s, id, kill, size))
  {
  }

  /** The id of the next request is that of the next draw. */
  lemma WithIdNumbered(s: Session, t: MsgType, owner: int)
    requires Numbered(s)
    ensures Numbered(WithId(s, t, owner))
    ensures HasRequestId(t) ==> KeyFor(s, t).id == IdOfDraw(|s.drawnBy|)
  {
    var s1 := WithId(s, t, owner);
    forall k | k in s.oneShot ensures PendingFits(k, s.oneShot[k], s1.drawnBy, s.sessionUses) {
      assert PendingFits(k, s.oneShot[k], s.drawnBy, s.sessionUses);
    }
    forall k | k in s.multiShot ensures RequestFits(k, s.multiShot[k], s1.drawnBy) {
      assert RequestFits(k, s.multiShot[k], s.drawnBy);
    }
  }

  lemma EnlistNumbered(s: Session, key: Key, h: Handler, multi: bool)
    requires Numbered(s)
    requires if multi then RequestFits(key, h, s.drawnBy) else PendingFits(key, h, s.drawnBy, s.sessionUses)
    ensures Numbered(Enlisted(s, key, h, multi))
  {
    hide PendingFits, RequestFits;
  }

  lemma SendRequestNumbered(s: Session, t: MsgType, size: nat, h: Handler, multi: bool)
    requires Numbered(s) && s.hasTransport
    requires (IsRequestType(t) && !h.adjourning) ||
             (!multi && (t == HELLO || t == GOODBYE) && IdUse(t, h.token) in s.sessionUses)
    ensures Numbered(SendRequest(s, t, size, h, multi))
  {
    WithIdNumbered(s, t, h.token);
    var s1, h1, key := WithId(s, t, h.token), h.(draw := |s.drawnBy|), KeyFor(s, t);
    if IsRequestType(t) {
      assert RequestFits(key, h1, s1.drawnBy) && PendingFits(key, h1, s1.drawnBy, s1.sessionUses);
    } else {
      assert PendingFits(key, h1, s1.drawnBy, s1.sessionUses);
    }
    EnlistNumbered(s1, key, h1, multi);
    hide Enlisted, HandlersFit, PendingFits, RequestFits, KeyFor;
  }

  lemma UseNumbered(s: Session, s1: Session, use: IdUse)
    requires Numbered(s) && s1.oneShot == s.oneShot && s1.multiShot == s.multiShot
    requires s1.lastId == s.lastId && s1.drawnBy == s.drawnBy && s1.sessionUses == s.sessionUses + [use]
    ensures Numbered(s1)
  {
    forall k | k in s1.oneShot ensures PendingFits(k, s1.oneShot[k], s1.drawnBy, s1.sessionUses) {
      assert PendingFits(k, s.oneShot[k], s.drawnBy, s.sessionUses);
    }
    hide RequestFits;
  }

  lemma JoinNumbered(s: Session, size: nat)
    requires Numbered(s) && TransportFits(s)
    ensures Numbered(Join(s, size))
  {
    hide HandlersFit, SendRequest;
    if s.state == Closed {
      UseNumbered(s, Opening(s), IdUse(HELLO, s.submitted));
      SendRequestNumbered(Opening(s), HELLO, size, NewHandler(s, false), false);
    } else {
      PrunedIsNumbered(s, Join(s, size));
    }
  }

  lemma LeaveNumbered(s: Session, size: nat)
    requires Numbered(s) && TransportFits(s)
    ensures Numbered(Leave(s, size))
  {
    hide HandlersFit, SendRequest;
    if s.state == Established {
      UseNumbered(s, Leaving(s), IdUse(GOODBYE, s.submitted));
      SendRequestNumbered(Leaving(s), GOODBYE, size, NewHandler(s, true), false);
    } else {
      PrunedIsNumbered(s, Leave(s, size));
    }
  }

  lemma RequestNumbered(s: Session, t: MsgType, size: nat, multi: bool)
    requires Numbered(s) && TransportFits(s) && IsRequestType(t)
    ensures Numbered(Request(s, t, size, multi))
  {
    hide HandlersFit, SendRequest, IsRequestType;
    var h := NewHandler(s, false);
    var s1 := if multi then HandedIn(s).(ongoing := s.ongoing + {h.token}) else HandedIn(s);
    PrunedIsNumbered(s, s1);
    if s.state == Established {
      SendRequestNumbered(s1, t, size, h, multi);
    } else {
      PrunedIsNumbered(s1, Request(s, t, size, multi));
    }
  }

  lemma SendNumbered(s: Session, t: MsgType, size: nat)
    requires Numbered(s) && s.hasTransport
    ensures Numbered(SendMessage(s, t, size))
  {
    WithIdNumbered(s, t, -1);
    PrunedIsNumbered(WithId(s, t, -1), SendMessage(s, t, size));
    hide HandlersFit, HasRequestId;
  }

  lemma ClosingNumbered(s: Session, ec: Errc)
    requires Numbered(s)
    ensures Numbered(Fail(s, ec)) && Numbered(Close(s)) && Numbered(Close(s.(terminating := true)))
  {
    hide HandlersFit, Fail, Close;
    PrunedIsNumbered(s, s.(terminating := true));
    ClosingPrunes(s, ec);
    ClosingPrunes(s.(terminating := true), ec);
    PrunedIsNumbered(s, Fail(s, ec));
    PrunedIsNumbered(s, Close(s));
    PrunedIsNumbered(s.(terminating := true), Close(s.(terminating := true)));
  }

  lemma RunTaskNumbered(s: Session)
    requires Numbered(s) && s.posted != []
    ensures Numbered(RunTask(s))
  {
    InvokePrunes(s.(posted := s.posted[1..]), s.posted[0].handler, s.posted[0].outcome);
    hide Invoke, HandlersFit;
    PrunedIsNumbered(s, RunTask(s));
  }

  lemma ConnectingNumbered(s: Session, maxTxLength: nat)
    requires Numbered(s)
    ensures Numbered(Connect(s)) && Numbered(s.(state := Failed)) && Numbered(Open(s, maxTxLength))
  {
    hide RequestFits;
  }

  lemma StepNumbered(s: Session, c: Command)
    requires Numbered(s) && Shaped(s) && Enabled(s, c)
    ensures Numbered(Step(s, c))
  {
    hide Numbered, Pruned, Connect, Open, Join, Leave, Close, Request, SendMessage, CancelCall, OnTransportRx, Fail,
      RunTask, PostedAreFailures;
    match c
    case CmdConnect => ConnectingNumbered(s, 0);
    case CmdConnectFailed => ConnectingNumbered(s, 0);
    case CmdOpen(maxTxLength) => ConnectingNumbered(s, maxTxLength);
    case CmdJoin(size) => JoinNumbered(s, size);
    case CmdLeave(size) => LeaveNumbered(s, size);
    case CmdDisconnect => ClosingNumbered(s, SessionEnded);
    case CmdTerminate => ClosingNumbered(s, SessionEnded);
    case CmdRequest(t, size) => RequestNumbered(s, t, size, false);
    case CmdOngoingCall(size) => RequestNumbered(s, CALL, size, true);
    case CmdSend(t, size) => if MaySend(s, t) { SendNumbered(s, t, size); }
    case CmdCancelCall(id, kill, size) =>
      if s.state == Established {
        CancelPrunes(s, id, kill, size);
        PrunedIsNumbered(s, CancelCall(s, id, kill, size));
      }
    case CmdReceive(input) => RxPrunes(s, input); PrunedIsNumbered(s, OnTransportRx(s, input));
    case CmdTransportError(ec) => ClosingNumbered(s, ec);
    case CmdRunTask => RunTaskNumbered(s);
  }

  lemma FreshIsNumbered(isRouter: bool)
    ensures Numbered(Fresh(isRouter))
  {
  }

  // ----- Keys tell requests apart ---------------------------------------------------------

  /** All pending requests were drawn within the last 2^53 draws. */
  predicate WithinWindow(m: RequestMap, draws: nat)
  {
    forall k :: k in m && IsRequestType(k.msgType) ==> draws - m[k].draw < MAX_REQUEST_ID
  }

  lemma TokensDiffer(s: Session, k: Key)
    requires Accounted(s) && k in s.oneShot && k in s.multiShot
    ensures s.oneShot[k].token != s.multiShot[k].token
  {
    var t := s.oneShot[k].token;
    MapTokensMember(s.oneShot, k);
    MapTokensMember(s.multiShot, k);
    AllTokensOnce(s.submitted, t);
    assert Places(Books(s)) + multiset{} == AllTokens(s.submitted);
    hide MapTokens, TaskTokens, FinalTokens, AllTokens;
    assert (Places(Books(s)) + multiset{})[t] <= 1;
  }

  lemma SameIdSameDraw(i: nat, j: nat)
    requires IdOfDraw(i) == IdOfDraw(j) && -MAX_REQUEST_ID < i - j < MAX_REQUEST_ID
    ensures i == j
  {
  }

  /** Then no key is in both maps, so a reply has one request to reach at most. */
  lemma ReplyIsUnambiguous(s: Session)
    requires Numbered(s) && Accounted(s)
    requires WithinWindow(s.oneShot, |s.drawnBy|) && WithinWindow(s.multiShot, |s.drawnBy|)
    ensures s.oneShot.Keys !! s.multiShot.Keys
  {
    if k :| k in s.oneShot.Keys && k in s.multiShot.Keys {
      var h1, h2 := s.oneShot[k], s.multiShot[k];
      assert RequestFits(k, h2, s.drawnBy);
      assert PendingFits(k, h1, s.drawnBy, s.sessionUses) && !IsSessionKey(k);
      SameIdSameDraw(h1.draw, h2.draw);
      TokensDiffer(s, k);
      assert false;
    }
  }

  /** And a new request displaces none that is pending. */
  lemma NewRequestDisplacesNone(s: Session, t: MsgType)
    requires Numbered(s) && IsRequestType(t)
    requires WithinWindow(s.oneShot, |s.drawnBy|) && WithinWindow(s.multiShot, |s.drawnBy|)
    ensures KeyFor(s, t) !in s.oneShot && KeyFor(s, t) !in s.multiShot
  {
    var k := KeyFor(s, t);
    WithIdNumbered(s, t, -1);
    if k in s.oneShot {
      assert PendingFits(k, s.oneShot[k], s.drawnBy, s.sessionUses);
      SameIdSameDraw(s.oneShot[k].draw, |s.drawnBy|);
    }
    if k in s.multiShot {
      assert RequestFits(k, s.multiShot[k], s.drawnBy);
      SameIdSameDraw(s.multiShot[k].draw, |s.drawnBy|);
    }
  }

  lemma UncallTakesOut(s: Session, key: Key)
    ensures var s1 := Uncall(s, key, false);
            && s1.hasTransport == s.hasTransport && s1.oneShot == s.oneShot - {key}
            && s1.multiShot == if key in s.oneShot then s.multiShot else s.multiShot - {key}
  {
    if key !in s.oneShot { assert s.oneShot - {key} == s.oneShot; }
    if key !in s.multiShot { assert s.multiShot - {key} == s.multiShot; }
  }

  /** A cancellation that does not wait takes the call out of the first map that has it. */
  lemma CancelTakesOut(s: Session, id: int, size: nat)
    requires s.hasTransport
    ensures var key, s1 := Key(CALL, id), CancelCall(s, id, false, size);
            && s1.oneShot == s.oneShot - {key}
            && s1.multiShot == if key in s.oneShot then s.multiShot else s.multiShot - {key}
  {
    var key := Key(CALL, id);
    UncallTakesOut(s, key);
    if IsPending(s, key) {
      hide Uncall;
    }
  }

  /** After a cancellation that did not wait, a late reply changes nothing, exactly when the
      call was not pending in both maps at once. */
  lemma LateReplyIgnoredIff(s: Session, id: int, size: nat, msg: Message)
    requires s.hasTransport && Numbered(s)
    ensures var key, s1 := Key(CALL, id), CancelCall(s, id, false, size);
            ProcessWampReply(s1, key, msg) == s1 <==> !(key in s.oneShot && key in s.multiShot)
  {
    var key, s1 := Key(CALL, id), CancelCall(s, id, false, size);
    CancelTakesOut(s, id, size);
    if key in s.oneShot && key in s.multiShot {
      assert RequestFits(key, s1.multiShot[key], s.drawnBy);
      hide CancelCall, HandlersFit, AbortPending;
      assert |ProcessWampReply(s1, key, msg).completions| == |s1.completions| + 1;
    }
    hide CancelCall, HandlersFit, Invoke, Log;
  }

  // ----- Replies go to the handlers they answer -------------------------------------------

  /** The key of the request that a message answers. */
  function AnsweredKey(msg: Message): Key
  {
    if RepliesTo(msg.msgType) != NONE then Key(RepliesTo(msg.msgType), RequestId(msg))
    else if msg.msgType == WELCOME || msg.msgType == ABORT then Key(HELLO, 0)
    else RequestKey(msg)
  }

  /** A call with a reply answers a request of that type, whose id was drawn for the handler
      called, or which came with it if it was a HELLO or a GOODBYE. */
  predicate AnswerFits(c: Completion, drawnBy: seq<IdUse>, sessionUses: seq<IdUse>)
  {
    c.outcome.Reply? ==>
      var k := AnsweredKey(c.outcome.msg);
      var use := IdUse(k.msgType, c.token);
      if IsSessionKey(k) then use in sessionUses
      else exists n :: 0 <= n < |drawnBy| && drawnBy[n] == use && k.id == IdOfDraw(n)
  }

  ghost predicate Truthful(s: Session)
  {
    forall i :: 0 <= i < |s.completions| ==> AnswerFits(s.completions[i], s.drawnBy, s.sessionUses)
  }

  /** Steps that call no handler. */
  predicate Quiet(s: Session, s1: Session)
  {
    s1.completions == s.completions && s.drawnBy <= s1.drawnBy && s.sessionUses <= s1.sessionUses
  }

  lemma QuietStaysTruthful(s: Session, s1: Session)
    requires Truthful(s) && Quiet(s, s1)
    ensures Truthful(s1)
  {
    forall i | 0 <= i < |s1.completions| ensures AnswerFits(s1.completions[i], s1.drawnBy, s1.sessionUses) {
      assert AnswerFits(s.completions[i], s.drawnBy, s.sessionUses);
    }
  }

  lemma LogStaysTruthful(s: Session, h: Handler, outcome: Outcome, final: bool)
    requires Truthful(s) && AnswerFits(Completion(h.token, outcome, final), s.drawnBy, s.sessionUses)
    ensures Truthful(Log(s, h, outcome, final))
  {
    hide AnswerFits;
  }

  lemma InvokeStaysTruthful(s: Session, h: Handler, outcome: Outcome)
    requires Truthful(s) && AnswerFits(Completion(h.token, outcome, true), s.drawnBy, s.sessionUses)
    ensures Truthful(Invoke(s, h, outcome))
  {
    var s1 := AbortPending(s.(state := Closed), SessionEnded);
    QuietStaysTruthful(s, s1);
    LogStaysTruthful(s, h, outcome, true);
    assert s1.drawnBy == s.drawnBy && s1.sessionUses == s.sessionUses;
    LogStaysTruthful(s1, h, outcome, true);
    hide AbortPending, AnswerFits, Truthful, Log;
  }

  lemma AnswerOfPending(key: Key, h: Handler, msg: Message, final: bool, drawnBy: seq<IdUse>, sessionUses: seq<IdUse>)
    requires AnsweredKey(msg) == key && PendingFits(key, h, drawnBy, sessionUses)
    ensures AnswerFits(Completion(h.token, Reply(msg), final), drawnBy, sessionUses)
  {
    hide AnsweredKey;
    if !IsSessionKey(key) {
      assert drawnBy[h.draw] == IdUse(key.msgType, h.token) && key.id == IdOfDraw(h.draw);
    }
  }

  lemma MultiPendingFits(key: Key, h: Handler, drawnBy: seq<IdUse>, sessionUses: seq<IdUse>)
    requires RequestFits(key, h, drawnBy)
    ensures PendingFits(key, h, drawnBy, sessionUses)
  {
  }

  lemma ReplyStaysTruthful(s: Session, key: Key, msg: Message)
    requires Truthful(s) && HandlersFit(s) && AnsweredKey(msg) == key
    ensures Truthful(ProcessWampReply(s, key, msg))
  {
    hide AnsweredKey, AnswerFits, Invoke, Log, PendingFits, RequestFits;
    if key in s.oneShot {
      AnswerOfPending(key, s.oneShot[key], msg, true, s.drawnBy, s.sessionUses);
      InvokeStaysTruthful(s.(oneShot := s.oneShot - {key}), s.oneShot[key], Reply(msg));
    } else if key in s.multiShot {
      MultiPendingFits(key, s.multiShot[key], s.drawnBy, s.sessionUses);
      AnswerOfPending(key, s.multiShot[key], msg, true, s.drawnBy, s.sessionUses);
      AnswerOfPending(key, s.multiShot[key], msg, false, s.drawnBy, s.sessionUses);
      if IsProgressive(msg) {
        LogStaysTruthful(s, s.multiShot[key], Reply(msg), false);
      } else {
        InvokeStaysTruthful(s.(multiShot := s.multiShot - {key}), s.multiShot[key], Reply(msg));
      }
    }
  }

  lemma AbortIsQuiet(s: Session, ec: Errc)
    ensures Quiet(s, AbortPending(s, ec)) && AbortPending(s, ec).hasTransport == s.hasTransport
  {
    hide Drain, Tasks, MapTokens;
  }

  lemma FailIsQuiet(s: Session, ec: Errc)
    ensures Quiet(s, Fail(s, ec)) && Quiet(s, Close(s))
  {
    AbortIsQuiet(s.(state := Failed), ec);
    AbortIsQuiet(s.(state := Disconnected), SessionEnded);
    hide AbortPending;
  }

  lemma SendIsQuiet(s: Session, t: MsgType, size: nat)
    requires s.hasTransport
    ensures Quiet(s, SendMessage(s, t, size)) && Quiet(s, SendMessage(s, t, size).(state := Closed))
  {
    hide HasRequestId;
  }

  lemma GoodbyeStaysTruthful(s: Session, msg: Message, ec: Errc)
    requires Truthful(s) && HandlersFit(s) && s.hasTransport && msg.msgType == GOODBYE
    ensures Truthful(ProcessGoodbye(s, msg, ec))
  {
    assert AnsweredKey(msg) == RequestKey(msg);
    if s.state == ShuttingDown {
      hide AnsweredKey, RequestKey, ProcessWampReply;
      ReplyStaysTruthful(s.(state := Closed), RequestKey(msg), msg);
    } else {
      hide AnsweredKey, RequestKey, ProcessWampReply, Truthful, HandlersFit, SendMessage, AbortPending;
      AbortIsQuiet(s, ec);
      var s1 := AbortPending(s, ec);
      QuietStaysTruthful(s, s1);
      SendIsQuiet(s1, GOODBYE, 0);
      QuietStaysTruthful(s1, SendMessage(s1, GOODBYE, 0).(state := Closed));
    }
  }

  lemma AbortMsgStaysTruthful(s: Session, msg: Message, ec: Errc)
    requires Truthful(s) && HandlersFit(s) && msg.msgType == ABORT
    ensures Truthful(ProcessAbort(s, msg, ec))
  {
    assert AnsweredKey(msg) == Key(HELLO, 0);
    hide AnsweredKey, ProcessWampReply, Fail;
    ReplyStaysTruthful(s.(state := Closed), Key(HELLO, 0), msg);
    FailIsQuiet(s, ec);
    QuietStaysTruthful(s, Fail(s, ec));
  }

  lemma MessageStaysTruthful(s: Session, msg: Message, ec: Errc)
    requires Truthful(s) && HandlersFit(s) && s.hasTransport
    ensures Truthful(ProcessMessage(s, msg, ec))
  {
    hide Truthful, HandlersFit, ProcessWampReply, ProcessAbort, ProcessGoodbye, RequestKey, RequestId;
    var t := msg.msgType;
    if RepliesTo(t) != NONE {
      ReplyStaysTruthful(s, Key(RepliesTo(t), RequestId(msg)), msg);
    } else if t == WELCOME {
      EstablishedHandlersFit(s);
      ReplyStaysTruthful(s.(state := Established), Key(HELLO, 0), msg);
    } else if t == ABORT {
      AbortMsgStaysTruthful(s, msg, ec);
    } else if t == GOODBYE {
      GoodbyeStaysTruthful(s, msg, ec);
    } else if t == ERROR {
      ReplyStaysTruthful(s, RequestKey(msg), msg);
    } else {
      QuietStaysTruthful(s, ProcessMessage(s, msg, ec));
    }
  }

  lemma EstablishedHandlersFit(s: Session)
    requires Truthful(s) && HandlersFit(s)
    ensures Truthful(s.(state := Established)) && HandlersFit(s.(state := Established))
  {
  }

  lemma RxStaysTruthful(s: Session, input: Input)
    requires Truthful(s) && HandlersFit(s) && (ReadyToReceive(s) ==> s.hasTransport)
    ensures Truthful(OnTransportRx(s, input))
  {
    hide Truthful, HandlersFit, Fail, ProcessMessage, IsValidRx;
    var ec := if input.Undecodable? then input.ec else ProtocolViolation;
    FailIsQuiet(s, ProtocolViolation);
    FailIsQuiet(s, ec);
    QuietStaysTruthful(s, Fail(s, ProtocolViolation));
    QuietStaysTruthful(s, Fail(s, ec));
    if ReadyToReceive(s) && input.Parsed? {
      MessageStaysTruthful(s, input.msg, input.reason);
    }
  }

  lemma RunTaskStaysTruthful(s: Session)
    requires Truthful(s) && s.posted != [] && PostedAreFailures(s.posted)
    ensures Truthful(RunTask(s))
  {
    InvokeStaysTruthful(s.(posted := s.posted[1..]), s.posted[0].handler, s.posted[0].outcome);
    hide Invoke;
  }

  lemma EnlistIsQuiet(s: Session, key: Key, h: Handler, multi: bool)
    ensures Quiet(s, Enlisted(s, key, h, multi))
  {
  }

  lemma SendRequestIsQuiet(s: Session, t: MsgType, size: nat, h: Handler, multi: bool)
    requires s.hasTransport
    ensures Quiet(s, SendRequest(s, t, size, h, multi))
  {
    EnlistIsQuiet(WithId(s, t, h.token), KeyFor(s, t), h.(draw := |s.drawnBy|), multi);
    hide HasRequestId, Enlisted, KeyFor;
  }

  lemma RequestsAreQuiet(s: Session, t: MsgType, size: nat, multi: bool)
    requires TransportFits(s)
    ensures Quiet(s, Join(s, size)) && Quiet(s, Leave(s, size)) && Quiet(s, Request(s, t, size, multi))
    ensures s.hasTransport ==> Quiet(s, SendMessage(s, t, size))
  {
    var s1 := HandedIn(s);
    if s.hasTransport {
      SendIsQuiet(s, t, size);
      SendRequestIsQuiet(Opening(s), HELLO, size, NewHandler(s, false), false);
      SendRequestIsQuiet(Leaving(s), GOODBYE, size, NewHandler(s, true), false);
      SendRequestIsQuiet(s1.(ongoing := s.ongoing + {s.submitted}), t, size, NewHandler(s, false), multi);
      SendRequestIsQuiet(s1, t, size, NewHandler(s, false), multi);
    }
    hide SendRequest, SendMessage;
  }

  lemma CancelIsQuiet(s: Session, id: int, kill: bool, size: nat)
    requires s.hasTransport
    ensures Quiet(s, CancelCall(s, id, kill, size))
  {
  }

  lemma StepStaysTruthful(s: Session, c: Command)
    requires Truthful(s) && Numbered(s) && Shaped(s) && Enabled(s, c)
    ensures Truthful(Step(s, c))
  {
    hide Truthful, HandlersFit, Join, Leave, Close, Request, SendMessage, CancelCall, OnTransportRx, Fail, RunTask;
    match c
    case CmdJoin(size) => RequestsAreQuiet(s, CALL, size, false); QuietStaysTruthful(s, Step(s, c));
    case CmdLeave(size) => RequestsAreQuiet(s, CALL, size, false); QuietStaysTruthful(s, Step(s, c));
    case CmdDisconnect => FailIsQuiet(s, SessionEnded); QuietStaysTruthful(s, Step(s, c));
    case CmdTerminate => FailIsQuiet(s.(terminating := true), SessionEnded); QuietStaysTruthful(s, Step(s, c));
    case CmdRequest(t, size) => RequestsAreQuiet(s, t, size, false); QuietStaysTruthful(s, Step(s, c));
    case CmdOngoingCall(size) => RequestsAreQuiet(s, CALL, size, true); QuietStaysTruthful(s, Step(s, c));
    case CmdSend(t, size) => RequestsAreQuiet(s, t, size, false); QuietStaysTruthful(s, Step(s, c));
    case CmdCancelCall(id, kill, size) =>
      if s.state == Established { CancelIsQuiet(s, id, kill, size); }
      QuietStaysTruthful(s, Step(s, c));
    case CmdReceive(input) => RxStaysTruthful(s, input);
    case CmdTransportError(ec) => FailIsQuiet(s, ec); QuietStaysTruthful(s, Step(s, c));
    case CmdRunTask => RunTaskStaysTruthful(s);
    case _ => QuietStaysTruthful(s, Step(s, c));
  }

  // ----- Runs -----------------------------------------------------------------------------

  lemma {:induction false} RunStaysTruthful(s: Session, commands: seq<Command>)
    requires Shaped(s) && CanRun(s, commands) && Numbered(s) && Truthful(s)
    ensures Numbered(Run(s, commands)) && Truthful(Run(s, commands))
    decreases |commands|
  {
    hide Shaped, Numbered, Truthful, Step, Enabled;
    if commands != [] {
      StepKeepsShape(s, commands[0]);
      StepNumbered(s, commands[0]);
      StepStaysTruthful(s, commands[0]);
      RunStaysTruthful(Step(s, commands[0]), commands[1..]);
    }
  }

  /** On every run a handler that is called with a reply, final or progressive, came with a
      request of the type that the reply answers: one for which the id in the reply was drawn, or
      the HELLO or GOODBYE itself. */
  lemma RepliesAreTruthful(isRouter: bool, commands: seq<Command>, i: nat)
    requires CanRun(Fresh(isRouter), commands) && i < |Run(Fresh(isRouter), commands).completions|
    ensures var s := Run(Fresh(isRouter), commands);
            var c := s.completions[i];
            c.outcome.Reply? ==>
              var k := AnsweredKey(c.outcome.msg);
              var use := IdUse(k.msgType, c.token);
              if k == Key(HELLO, 0) || k == Key(GOODBYE, 0) then use in s.sessionUses
              else exists n :: 0 <= n < |s.drawnBy| && s.drawnBy[n] == use && k.id == IdOfDraw(n)
  {
    FreshIsNumbered(isRouter);
    RunStaysTruthful(Fresh(isRouter), commands);
    var s := Run(Fresh(isRouter), commands);
    hide Run, CanRun, AnsweredKey;
    assert AnswerFits(s.completions[i], s.drawnBy, s.sessionUses);
  }

  /** On every run whose pending requests are less than 2^53 draws old, a pending request is the
      one its id was drawn for, no two share a key, and the next request displaces none. */
  lemma RepliesReachTheirOwn(isRouter: bool, commands: seq<Command>, t: MsgType)
    requires CanRun(Fresh(isRouter), commands) && IsRequestType(t)
    requires var s := Run(Fresh(isRouter), commands);
             WithinWindow(s.oneShot, |s.drawnBy|) && WithinWindow(s.multiShot, |s.drawnBy|)
    ensures var s := Run(Fresh(isRouter), commands);
            && s.oneShot.Keys !! s.multiShot.Keys
            && KeyFor(s, t) !in s.oneShot && KeyFor(s, t) !in s.multiShot
            && (forall k :: k in s.oneShot && k != Key(HELLO, 0) && k != Key(GOODBYE, 0) ==>
                  RequestFits(k, s.oneShot[k], s.drawnBy))
            && (forall k :: k in s.multiShot ==> RequestFits(k, s.multiShot[k], s.drawnBy))
  {
    var s := Run(Fresh(isRouter), commands);
    FreshIsAccounted(isRouter);
    FreshIsNumbered(isRouter);
    RunStaysTruthful(Fresh(isRouter), commands);
    RunBalances(Fresh(isRouter), commands);
    hide Run, CanRun, Accounted, RequestFits, WithinWindow;
    ReplyIsUnambiguous(s);
    NewRequestDisplacesNone(s, t);
    forall k | k in s.oneShot && k != Key(HELLO, 0) && k != Key(GOODBYE, 0)
      ensures RequestFits(k, s.oneShot[k], s.drawnBy) {
      assert PendingFits(k, s.oneShot[k], s.drawnBy, s.sessionUses);
    }
  }

  // ----- No handler has two requests ------------------------------------------------------

  predicate TokensOnce(uses: seq<IdUse>, submitted: nat)
  {
    && (forall i :: 0 <= i < |uses| ==> uses[i].token < submitted)
    && (forall i, j :: 0 <= i < j < |uses| && uses[i].token == uses[j].token ==> uses[i].token == -1)
  }

  /** A handler came with one request at most. */
  predicate OneRequestEach(s: Session)
  {
    && TokensOnce(s.drawnBy, s.submitted) && TokensOnce(s.sessionUses, s.submitted)
    && (forall i, j :: 0 <= i < |s.drawnBy| && 0 <= j < |s.sessionUses| ==>
          s.drawnBy[i].token == s.sessionUses[j].token ==> s.drawnBy[i].token == -1)
  }

  /** At most one use is added, for no handler or for the one just handed in. */
  predicate Grown(uses: seq<IdUse>, uses1: seq<IdUse>, s: Session, s1: Session)
  {
    || uses1 == uses
    || (&& |uses1| == |uses| + 1 && uses1[..|uses|] == uses
        && (uses1[|uses|].token == -1 || (uses1[|uses|].token == s.submitted && s.submitted < s1.submitted)))
  }

  predicate UsesGrow(s: Session, s1: Session)
  {
    && s.submitted <= s1.submitted
    && Grown(s.drawnBy, s1.drawnBy, s, s1) && Grown(s.sessionUses, s1.sessionUses, s, s1)
    && (s1.drawnBy == s.drawnBy || s1.sessionUses == s.sessionUses)
  }

  lemma GrownOnce(uses: seq<IdUse>, uses1: seq<IdUse>, s: Session, s1: Session)
    requires TokensOnce(uses, s.submitted) && Grown(uses, uses1, s, s1) && s.submitted <= s1.submitted
    ensures TokensOnce(uses1, s1.submitted)
  {
    assert forall i :: 0 <= i < |uses| ==> uses1[i] == uses1[..|uses|][i];
  }

  lemma GrowthKeepsOne(s: Session, s1: Session)
    requires OneRequestEach(s) && UsesGrow(s, s1)
    ensures OneRequestEach(s1)
  {
    GrownOnce(s.drawnBy, s1.drawnBy, s, s1);
    GrownOnce(s.sessionUses, s1.sessionUses, s, s1);
    assert forall i :: 0 <= i < |s.drawnBy| ==> s1.drawnBy[i] == s1.drawnBy[..|s.drawnBy|][i];
    assert forall i :: 0 <= i < |s.sessionUses| ==> s1.sessionUses[i] == s1.sessionUses[..|s.sessionUses|][i];
  }

  lemma PruningGrows(s: Session, s1: Session)
    requires Pruned(s, s1)
    ensures UsesGrow(s, s1)
  {
  }

  lemma SendRequestUses(s: Session, t: MsgType, size: nat, h: Handler, multi: bool)
    requires s.hasTransport
    ensures var s1 := SendRequest(s, t, size, h, multi);
            && s1.submitted == s.submitted && s1.sessionUses == s.sessionUses
            && s1.drawnBy == if HasRequestId(t) then s.drawnBy + [IdUse(t, h.token)] else s.drawnBy
  {
    var s1 := WithId(s, t, h.token);
    EnlistedUses(s1, KeyFor(s, t), h.(draw := |s.drawnBy|), multi);
    hide HasRequestId, Enlisted, KeyFor;
  }

  lemma EnlistedUses(s: Session, key: Key, h: Handler, multi: bool)
    ensures var s1 := Enlisted(s, key, h, multi);
            s1.submitted == s.submitted && s1.sessionUses == s.sessionUses && s1.drawnBy == s.drawnBy
  {
  }

  lemma JoinGrows(s: Session, size: nat)
    requires TransportFits(s)
    ensures UsesGrow(s, Join(s, size)) && UsesGrow(s, Leave(s, size))
  {
    if s.hasTransport {
      SendRequestUses(Opening(s), HELLO, size, NewHandler(s, false), false);
      SendRequestUses(Leaving(s), GOODBYE, size, NewHandler(s, true), false);
    }
    hide SendRequest;
  }

  lemma RequestGrows(s: Session, t: MsgType, size: nat, multi: bool)
    requires TransportFits(s)
    ensures UsesGrow(s, Request(s, t, size, multi))
  {
    var s1 := if multi then HandedIn(s).(ongoing := s.ongoing + {s.submitted}) else HandedIn(s);
    if s.hasTransport {
      SendRequestUses(s1, t, size, NewHandler(s, false), multi);
    }
    hide SendRequest, HasRequestId;
  }

  lemma SendGrows(s: Session, t: MsgType, size: nat)
    requires s.hasTransport
    ensures UsesGrow(s, SendMessage(s, t, size))
  {
    hide HasRequestId;
  }

  lemma StepGrows(s: Session, c: Command)
    requires Shaped(s) && Enabled(s, c)
    ensures UsesGrow(s, Step(s, c))
  {
    hide Pruned, UsesGrow, Connect, Open, Join, Leave, Close, Request, SendMessage, CancelCall, OnTransportRx, Fail,
      RunTask, PostedAreFailures;
    match c
    case CmdJoin(size) => JoinGrows(s, size);
    case CmdLeave(size) => JoinGrows(s, size);
    case CmdDisconnect => ClosingPrunes(s, SessionEnded); PruningGrows(s, Close(s));
    case CmdTerminate => TerminatingGrows(s);
    case CmdRequest(t, size) => RequestGrows(s, t, size, false);
    case CmdOngoingCall(size) => RequestGrows(s, CALL, size, true);
    case CmdSend(t, size) => ConnectingGrows(s, 0); if MaySend(s, t) { SendGrows(s, t, size); }
    case CmdCancelCall(id, kill, size) =>
      ConnectingGrows(s, 0);
      if s.state == Established {
        CancelPrunes(s, id, kill, size);
        PruningGrows(s, CancelCall(s, id, kill, size));
      }
    case CmdReceive(input) => RxPrunes(s, input); PruningGrows(s, OnTransportRx(s, input));
    case CmdTransportError(ec) => ConnectingGrows(s, 0); ClosingPrunes(s, ec); PruningGrows(s, Fail(s, ec));
    case CmdRunTask => RunTaskGrows(s);
    case CmdOpen(maxTxLength) => ConnectingGrows(s, maxTxLength);
    case _ => ConnectingGrows(s, 0);
  }

  lemma ConnectingGrows(s: Session, maxTxLength: nat)
    ensures UsesGrow(s, s) && UsesGrow(s, Connect(s)) && UsesGrow(s, s.(state := Failed))
    ensures UsesGrow(s, Open(s, maxTxLength))
  {
  }

  lemma TerminatingGrows(s: Session)
    ensures UsesGrow(s, Close(s.(terminating := true)))
  {
    ClosingPrunes(s.(terminating := true), SessionEnded);
    hide Close;
  }

  lemma RunTaskGrows(s: Session)
    requires s.posted != []
    ensures UsesGrow(s, RunTask(s))
  {
    InvokePrunes(s.(posted := s.posted[1..]), s.posted[0].handler, s.posted[0].outcome);
    hide Invoke;
  }

  lemma {:induction false} RunKeepsOne(s: Session, commands: seq<Command>)
    requires Shaped(s) && CanRun(s, commands) && OneRequestEach(s)
    ensures OneRequestEach(Run(s, commands))
    decreases |commands|
  {
    hide Shaped, OneRequestEach, UsesGrow, Step, Enabled;
    if commands != [] {
      StepKeepsShape(s, commands[0]);
      StepGrows(s, commands[0]);
      GrowthKeepsOne(s, Step(s, commands[0]));
      RunKeepsOne(Step(s, commands[0]), commands[1..]);
    }
  }

  /** On every run no handler came with two requests; so the request that a reply answers and the
      one that its handler came with are the same. */
  lemma HandlersHaveOneRequest(isRouter: bool, commands: seq<Command>, token: nat)
    requires CanRun(Fresh(isRouter), commands)
    ensures var s := Run(Fresh(isRouter), commands);
            var uses := s.drawnBy + s.sessionUses;
            forall i, j :: 0 <= i < |uses| && 0 <= j < |uses| && uses[i].token == uses[j].token == token ==> i == j
  {
    RunKeepsOne(Fresh(isRouter), commands);
  }
}

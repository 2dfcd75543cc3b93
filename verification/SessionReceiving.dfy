/** What a received message does, by its type: which handler it reaches and with what, and what
    becomes of the other requests, the state and the session's output. */
module SessionReceiving {
  import opened WampMessages
  import opened Handlers
  import opened Sessions
  import opened SessionReplies
  import opened Wrappers

  // ----- Pending requests that are aborted ------------------------------------------------

  lemma {:induction false} DrainMembers(m: RequestMap)
    ensures |Drain(m)| == |m|
    ensures forall k :: k in m ==> m[k] in Drain(m)
    decreases m.Keys
  {
    if m != map[] {
      var min := MinKey(m.Keys);
      DrainMembers(m - {min});
      assert m.Keys == (m - {min}).Keys + {min};
      forall k | k in m ensures m[k] in Drain(m) {
        if k != min { assert (m - {min})[k] in Drain(m - {min}); }
      }
    }
  }

  lemma TaskOfMember(hs: seq<Handler>, h: Handler, outcome: Outcome)
    requires h in hs
    ensures Task(h, outcome) in Tasks(hs, outcome)
  {
    var i :| 0 <= i < |hs| && hs[i] == h;
    assert Tasks(hs, outcome)[i] == Task(h, outcome);
  }

  /** As many calls as handlers, each with the error, and one for every handler of the map. */
  ghost predicate AllFailed(m: RequestMap, ts: seq<Task>, ec: Errc)
  {
    && |ts| == |m|
    && (forall i :: 0 <= i < |ts| ==> ts[i].outcome == Failure(ec))
    && (forall k :: k in m ==> Task(m[k], Failure(ec)) in ts)
  }

  lemma DrainedAllFailed(m: RequestMap, ec: Errc)
    ensures AllFailed(m, Tasks(Drain(m), Failure(ec)), ec)
  {
    DrainMembers(m);
    forall k | k in m ensures Task(m[k], Failure(ec)) in Tasks(Drain(m), Failure(ec)) {
      TaskOfMember(Drain(m), m[k], Failure(ec));
    }
  }

  /** All pending requests end with the error: first the one-shot ones, then the ongoing ones, are
      posted; while terminating they are let go. Nothing else differs. */
  ghost predicate AbortsAll(s: Session, s1: Session, ec: Errc)
  {
    && s1 == s.(oneShot := map[], multiShot := map[], posted := s1.posted, dropped := s1.dropped)
    && if s.terminating then
         s1.posted == s.posted && s1.dropped == s.dropped + MapTokens(s.oneShot) + MapTokens(s.multiShot)
       else
         && s1.dropped == s.dropped && |s1.posted| >= |s.posted| + |s.oneShot| && s1.posted[..|s.posted|] == s.posted
         && AllFailed(s.oneShot, s1.posted[|s.posted|..|s.posted| + |s.oneShot|], ec)
         && AllFailed(s.multiShot, s1.posted[|s.posted| + |s.oneShot|..], ec)
  }

  lemma Slices(a: seq<Task>, b: seq<Task>, c: seq<Task>)
    ensures (a + b + c)[..|a|] == a && (a + b + c)[|a|..|a| + |b|] == b && (a + b + c)[|a| + |b|..] == c
  {
  }

  lemma DroppingAbortsAll(s: Session, ec: Errc)
    requires s.terminating
    ensures AbortsAll(s, AbortPending(s, ec), ec)
  {
    hide AllFailed, MapTokens, Drain, Tasks;
  }

  lemma PostingAbortsAll(s: Session, ec: Errc)
    requires !s.terminating
    ensures AbortsAll(s, AbortPending(s, ec), ec)
  {
    DrainedAllFailed(s.oneShot, ec);
    DrainedAllFailed(s.multiShot, ec);
    var one, multi := Tasks(Drain(s.oneShot), Failure(ec)), Tasks(Drain(s.multiShot), Failure(ec));
    assert |one| == |s.oneShot|;
    Slices(s.posted, one, multi);
    assert AbortPending(s, ec).posted == s.posted + one + multi;
    hide AllFailed, MapTokens, Drain, Tasks;
  }

  lemma AbortingAbortsAll(s: Session, ec: Errc)
    ensures AbortsAll(s, AbortPending(s, ec), ec)
  {
    hide AbortsAll, AbortPending;
    if s.terminating {
      DroppingAbortsAll(s, ec);
    } else {
      PostingAbortsAll(s, ec);
    }
  }

  /** The session fails: its requests are aborted with the error and the transport is given up;
      a session that has failed stays as it is. */
  ghost predicate Fails(s: Session, s1: Session, ec: Errc)
  {
    if s.state == Failed then s1 == s
    else AbortsAll(s.(state := Failed, hasTransport := false), s1, ec)
  }

  lemma FailingFails(s: Session, ec: Errc)
    ensures Fails(s, Fail(s, ec), ec)
  {
    AbortingAbortsAll(s.(state := Failed), ec);
    TransportAside(s.(state := Failed), AbortPending(s.(state := Failed), ec), ec);
    hide AbortPending, AbortsAll;
  }

  lemma TransportAside(s: Session, s1: Session, ec: Errc)
    requires AbortsAll(s, s1, ec)
    ensures AbortsAll(s.(hasTransport := false), s1.(hasTransport := false), ec)
  {
    hide AllFailed, MapTokens;
  }

  // ----- Answers --------------------------------------------------------------------------

  /** The request that a received message answers, if it is an answer. */
  function AnswerTo(state: State, msg: Message): Option<Key>
  {
    if msg.msgType == PUBLISHED then Some(Key(PUBLISH, msg.field1))
    else if msg.msgType == SUBSCRIBED then Some(Key(SUBSCRIBE, msg.field1))
    else if msg.msgType == UNSUBSCRIBED then Some(Key(UNSUBSCRIBE, msg.field1))
    else if msg.msgType == RESULT then Some(Key(CALL, msg.field1))
    else if msg.msgType == REGISTERED then Some(Key(ENROLL, msg.field1))
    else if msg.msgType == UNREGISTERED then Some(Key(UNREGISTER, msg.field1))
    else if msg.msgType == ERROR then Some(Key(msg.field1 % 256, msg.field2))
    else if msg.msgType == WELCOME then Some(Key(HELLO, 0))
    else if msg.msgType == ABORT && state in {Establishing, Authenticating} then Some(Key(HELLO, 0))
    else if msg.msgType == GOODBYE && state == ShuttingDown then Some(Key(GOODBYE, 0))
    else if msg.msgType == AUTHENTICATE then Some(Key(CHALLENGE, 0))
    else if msg.msgType == YIELD then Some(Key(INVOCATION, 0))
    else None
  }

  /** The state that a message of the session's own protocol leads to. */
  function StateAfter(state: State, t: MsgType): State
  {
    if t == WELCOME || t == HELLO then Established
    else if t == CHALLENGE then Authenticating
    else if t == GOODBYE then Closed
    else if t == ABORT && state in {Establishing, Authenticating} then Closed
    else state
  }

  /** The message is well-formed and the traits table admits it. */
  predicate Admitted(s: Session, msg: Message)
  {
    s.state in {Establishing, Authenticating, Established, ShuttingDown} && IsValidRx(msg.msgType, s.state, s.isRouter)
  }

  ghost function Received(s: Session, msg: Message, reason: Errc): Session
    requires Shaped(s)
  {
    Step(s, CmdReceive(Parsed(msg, reason)))
  }

  lemma AnswerIsProcessed(s: Session, msg: Message, reason: Errc)
    requires Shaped(s) && Admitted(s, msg) && AnswerTo(s.state, msg).Some?
    ensures Received(s, msg, reason)
         == ProcessWampReply(s.(state := StateAfter(s.state, msg.msgType)), AnswerTo(s.state, msg).value, msg)
  {
    hide ProcessWampReply, Fail;
    assert s.(state := s.state) == s;
  }

  /** An answer to a one-shot request reaches its handler, as its final call, and the request is
      no longer pending; nothing else happens. */
  lemma OneShotAnswered(s: Session, msg: Message, reason: Errc)
    requires Shaped(s) && Admitted(s, msg) && AnswerTo(s.state, msg).Some?
    requires var key := AnswerTo(s.state, msg).value; key in s.oneShot && !s.oneShot[key].adjourning
    ensures var key := AnswerTo(s.state, msg).value;
            Received(s, msg, reason)
            == s.(state := StateAfter(s.state, msg.msgType),
                  oneShot := s.oneShot - {key},
                  completions := s.completions + [Completion(s.oneShot[key].token, Reply(msg), true)])
  {
    AnswerIsProcessed(s, msg, reason);
    hide Step, AnswerTo, StateAfter, Admitted, Shaped;
  }

  /** The answer to a GOODBYE closes the session and aborts what is pending before it reaches the
      handler. */
  lemma LeavingAnswered(s: Session, msg: Message, reason: Errc)
    requires Shaped(s) && Admitted(s, msg) && AnswerTo(s.state, msg).Some?
    requires var key := AnswerTo(s.state, msg).value; key in s.oneShot && s.oneShot[key].adjourning
    ensures var key, s1 := AnswerTo(s.state, msg).value, Received(s, msg, reason);
            && s1.completions == s.completions + [Completion(s.oneShot[key].token, Reply(msg), true)]
            && AbortsAll(s.(state := Closed, oneShot := s.oneShot - {key}), s1.(completions := s.completions),
                         SessionEnded)
  {
    var key := AnswerTo(s.state, msg).value;
    AnswerIsProcessed(s, msg, reason);
    hide Step, AnswerTo, StateAfter, Admitted, Shaped, AbortsAll;
    var s0 := s.(state := Closed, oneShot := s.oneShot - {key});
    AbortingAbortsAll(s0, SessionEnded);
    CompletionsKept(s0, SessionEnded);
    hide AbortPending;
    assert AbortPending(s0, SessionEnded).(completions := s.completions) == AbortPending(s0, SessionEnded);
  }

  lemma CompletionsKept(s: Session, ec: Errc)
    ensures AbortPending(s, ec).completions == s.completions
  {
  }

  /** An answer to an ongoing call reaches its handler; progress leaves the call pending, anything
      else is its final answer. */
  lemma OngoingAnswered(s: Session, msg: Message, reason: Errc)
    requires Shaped(s) && Admitted(s, msg) && AnswerTo(s.state, msg).Some?
    requires var key := AnswerTo(s.state, msg).value;
             key !in s.oneShot && key in s.multiShot && !s.multiShot[key].adjourning
    ensures var key, progress := AnswerTo(s.state, msg).value, msg.msgType == RESULT && msg.progress;
            Received(s, msg, reason)
            == s.(state := StateAfter(s.state, msg.msgType),
                  multiShot := if progress then s.multiShot else s.multiShot - {key},
                  completions := s.completions + [Completion(s.multiShot[key].token, Reply(msg), !progress)])
  {
    AnswerIsProcessed(s, msg, reason);
    hide Step, AnswerTo, StateAfter, Admitted, Shaped;
  }

  /** An answer to nothing calls no handler and touches no request. */
  lemma NothingAnswered(s: Session, msg: Message, reason: Errc)
    requires Shaped(s) && Admitted(s, msg) && AnswerTo(s.state, msg).Some?
    requires var key := AnswerTo(s.state, msg).value; key !in s.oneShot && key !in s.multiShot
    ensures Received(s, msg, reason) == s.(state := StateAfter(s.state, msg.msgType))
  {
    AnswerIsProcessed(s, msg, reason);
    hide Step, AnswerTo, StateAfter, Admitted, Shaped;
  }

  // ----- Other messages -------------------------------------------------------------------

  /** HELLO and CHALLENGE change the state and are passed on. */
  lemma OpeningReceived(s: Session, msg: Message, reason: Errc)
    requires Shaped(s) && Admitted(s, msg) && msg.msgType in {HELLO, CHALLENGE}
    ensures Received(s, msg, reason) == s.(state := StateAfter(s.state, msg.msgType), inbound := s.inbound + [msg])
  {
    hide Fail;
  }

  /** An ABORT of an established session fails it with the error that its reason names; while
      shutting down it is discarded. */
  lemma AbortReceived(s: Session, msg: Message, reason: Errc)
    requires Shaped(s) && Admitted(s, msg) && msg.msgType == ABORT && s.state in {Established, ShuttingDown}
    ensures s.state == Established ==> Fails(s, Received(s, msg, reason), reason)
    ensures s.state == ShuttingDown ==> Received(s, msg, reason) == s
  {
    FailingFails(s, reason);
    hide Fail, ProcessWampReply, Fails;
  }

  /** A GOODBYE that comes first aborts what is pending with the error that its reason names, is
      answered by one, and closes the session. */
  lemma GoodbyeReceived(s: Session, msg: Message, reason: Errc)
    requires Shaped(s) && Admitted(s, msg) && msg.msgType == GOODBYE && s.state == Established
    ensures var s1 := Received(s, msg, reason);
            && s1.sent == s.sent + [Key(GOODBYE, 0)]
            && AbortsAll(s.(state := Closed), s1.(sent := s.sent), reason)
  {
    AbortingAbortsAll(s.(state := Closed), reason);
    assert Received(s, msg, reason) == ProcessGoodbye(s, msg, reason) by { hide Fail, ProcessWampReply, AbortPending; }
    AbortFrame(s, reason);
    hide AbortPending, AbortsAll, ProcessWampReply, Step;
  }

  lemma AbortFrame(s: Session, ec: Errc)
    ensures var a := AbortPending(s, ec);
            && a.sent == s.sent && a.hasTransport == s.hasTransport && a.maxTxLength == s.maxTxLength
            && a.lastId == s.lastId && a.drawnBy == s.drawnBy
            && AbortPending(s.(state := Closed), ec) == a.(state := Closed)
  {
    hide Drain, Tasks, MapTokens;
  }

  /** Everything else is passed on to the client or router, unless the session is shutting down. */
  lemma UnsolicitedReceived(s: Session, msg: Message, reason: Errc)
    requires Shaped(s) && Admitted(s, msg) && AnswerTo(s.state, msg).None?
    requires msg.msgType !in {HELLO, CHALLENGE, ABORT, GOODBYE}
    ensures Received(s, msg, reason) == if s.state == ShuttingDown then s else s.(inbound := s.inbound + [msg])
  {
    hide Fail, ProcessWampReply;
  }

  /** What cannot be decoded, is no message, is not admitted, or comes too early or too late, fails
      the session. */
  lemma BadInputReceived(s: Session, input: Input)
    requires Shaped(s) && (input.Parsed? ==> !Admitted(s, input.msg))
    ensures var ec := if input.Undecodable? && s.state in {Establishing, Authenticating, Established, ShuttingDown}
                      then input.ec else ProtocolViolation;
            Fails(s, Step(s, CmdReceive(input)), ec)
  {
    var ec := if input.Undecodable? && s.state in {Establishing, Authenticating, Established, ShuttingDown}
              then input.ec else ProtocolViolation;
    FailingFails(s, ec);
    hide Fail, ProcessMessage, Fails, IsValidRx;
  }

  // ----- Runs -----------------------------------------------------------------------------

  lemma {:induction false} RunThen(s: Session, commands: seq<Command>, c: Command)
    requires Shaped(s)
    ensures CanRun(s, commands + [c]) ==>
              && CanRun(s, commands) && Shaped(Run(s, commands)) && Enabled(Run(s, commands), c)
              && Run(s, commands + [c]) == Step(Run(s, commands), c)
    decreases |commands|
  {
    hide Shaped, Step, Enabled;
    if commands == [] {
      assert commands + [c] == [c] && [c][1..] == [];
    } else if CanRun(s, commands + [c]) {
      assert (commands + [c])[0] == commands[0] && (commands + [c])[1..] == commands[1..] + [c];
      StepKeepsShape(s, commands[0]);
      RunThen(Step(s, commands[0]), commands[1..], c);
    }
  }

  /** The calls that an answer makes. */
  function CallsOf(s: Session, msg: Message): seq<Completion>
  {
    match AnswerTo(s.state, msg)
    case None => []
    case Some(key) =>
      if key in s.oneShot then [Completion(s.oneShot[key].token, Reply(msg), true)]
      else if key in s.multiShot then
        [Completion(s.multiShot[key].token, Reply(msg), !(msg.msgType == RESULT && msg.progress))]
      else []
  }

  lemma AnswerCalls(s: Session, msg: Message, reason: Errc)
    requires Shaped(s) && Admitted(s, msg) && AnswerTo(s.state, msg).Some?
    requires forall k :: k in s.multiShot ==> !s.multiShot[k].adjourning
    ensures var s1, key := Received(s, msg, reason), AnswerTo(s.state, msg).value;
            && s1.completions == s.completions + CallsOf(s, msg)
            && (CallsOf(s, msg) != [] && CallsOf(s, msg)[0].final ==>
                  key !in if key in s.oneShot then s1.oneShot else s1.multiShot)
  {
    var key := AnswerTo(s.state, msg).value;
    assert s.completions + [] == s.completions;
    if key in s.oneShot && !s.oneShot[key].adjourning {
      OneShotAnswered(s, msg, reason);
    } else if key in s.oneShot {
      LeavingAnswered(s, msg, reason);
    } else if key in s.multiShot {
      OngoingAnswered(s, msg, reason);
    } else {
      NothingAnswered(s, msg, reason);
    }
    hide Received, AnswerTo, Shaped, Admitted, AllFailed, StateAfter;
  }

  lemma OthersCall(s: Session, msg: Message, reason: Errc)
    requires Shaped(s) && Admitted(s, msg) && AnswerTo(s.state, msg).None?
    ensures Received(s, msg, reason).completions == s.completions
  {
    if msg.msgType in {HELLO, CHALLENGE} {
      OpeningReceived(s, msg, reason);
    } else if msg.msgType == ABORT {
      AbortReceived(s, msg, reason);
    } else if msg.msgType == GOODBYE {
      GoodbyeReceived(s, msg, reason);
    } else {
      UnsolicitedReceived(s, msg, reason);
    }
    hide Received, Shaped, AllFailed, StateAfter, IsValidRx;
  }

  lemma ReceivedCalls(s: Session, msg: Message, reason: Errc)
    requires Shaped(s) && Admitted(s, msg) && forall k :: k in s.multiShot ==> !s.multiShot[k].adjourning
    ensures var s1 := Received(s, msg, reason);
            && s1.completions == s.completions + CallsOf(s, msg)
            && (CallsOf(s, msg) != [] && CallsOf(s, msg)[0].final ==>
                  var key := AnswerTo(s.state, msg).value;
                  key !in if key in s.oneShot then s1.oneShot else s1.multiShot)
  {
    if AnswerTo(s.state, msg).Some? {
      AnswerCalls(s, msg, reason);
    } else {
      OthersCall(s, msg, reason);
      assert s.completions + [] == s.completions;
    }
    hide Received, AnswerTo, Shaped, Admitted;
  }

  /** On every run, a message that is admitted calls the handler of the request it answers, if that
      is pending, with that message and nothing else, and calls no other; the call is final, and the
      request is no longer pending, unless it is progress of an ongoing call. */
  lemma AnswersAreDelivered(isRouter: bool, commands: seq<Command>, msg: Message, reason: Errc)
    requires CanRun(Fresh(isRouter), commands + [CmdReceive(Parsed(msg, reason))])
    ensures CanRun(Fresh(isRouter), commands)
    ensures var s := Run(Fresh(isRouter), commands);
            var s1 := Run(Fresh(isRouter), commands + [CmdReceive(Parsed(msg, reason))]);
            Admitted(s, msg) ==>
              match AnswerTo(s.state, msg)
              case None => s1.completions == s.completions
              case Some(key) =>
                if key in s.oneShot then
                  && s1.completions == s.completions + [Completion(s.oneShot[key].token, Reply(msg), true)]
                  && key !in s1.oneShot
                else if key in s.multiShot && msg.msgType == RESULT && msg.progress then
                  && s1.completions == s.completions + [Completion(s.multiShot[key].token, Reply(msg), false)]
                  && key in s1.multiShot
                else if key in s.multiShot then
                  && s1.completions == s.completions + [Completion(s.multiShot[key].token, Reply(msg), true)]
                  && key !in s1.multiShot
                else s1.completions == s.completions
  {
    var s0 := Fresh(isRouter);
    RunThen(s0, commands, CmdReceive(Parsed(msg, reason)));
    FreshIsNumbered(isRouter);
    RunIsNumbered(s0, commands);
    var s := Run(s0, commands);
    MultiHandlersPlain(s);
    hide Run, CanRun, Step, AnswerTo, Shaped, Admitted, Numbered;
    if Admitted(s, msg) {
      ReceivedCalls(s, msg, reason);
      if AnswerTo(s.state, msg).Some? && AnswerTo(s.state, msg).value !in s.oneShot
         && AnswerTo(s.state, msg).value in s.multiShot {
        OngoingAnswered(s, msg, reason);
      }
    }
  }

  lemma {:induction false} RunIsNumbered(s: Session, commands: seq<Command>)
    requires Shaped(s) && CanRun(s, commands) && Numbered(s)
    ensures Shaped(Run(s, commands)) && Numbered(Run(s, commands))
    decreases |commands|
  {
    hide Shaped, Numbered, Step, Enabled;
    if commands != [] {
      StepKeepsShape(s, commands[0]);
      StepNumbered(s, commands[0]);
      RunIsNumbered(Step(s, commands[0]), commands[1..]);
    }
  }

  lemma MultiHandlersPlain(s: Session)
    requires Numbered(s)
    ensures forall k :: k in s.multiShot ==> !s.multiShot[k].adjourning
  {
  }
}

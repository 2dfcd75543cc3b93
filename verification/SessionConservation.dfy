/** Every handler handed to a session is called exactly once, or let go while terminating. */
module SessionConservation {
  import opened WampMessages
  import opened Handlers
  import opened Sessions

  // ----- Conservation of handlers ---------------------------------------------------------

  /** The parts of a session in which a handler can be. */
  datatype Ledger = Ledger(
    oneShot: RequestMap,
    multiShot: RequestMap,
    posted: seq<Task>,
    completions: seq<Completion>,
    dropped: multiset<nat>,
    submitted: nat,
    ongoing: set<nat>)

  function Books(s: Session): Ledger
  {
    Ledger(s.oneShot, s.multiShot, s.posted, s.completions, s.dropped, s.submitted, s.ongoing)
  }

  ghost function Places(l: Ledger): multiset<nat>
  {
    MapTokens(l.oneShot) + MapTokens(l.multiShot) + TaskTokens(l.posted) + FinalTokens(l.completions) + l.dropped
  }

  /** Nothing follows the final call of a handler, and only handlers handed in for progressive
      results get calls that are not final. */
  ghost predicate Ordered(l: Ledger)
  {
    && (forall i, j :: 0 <= i < j < |l.completions| && l.completions[i].token == l.completions[j].token ==>
          !l.completions[i].final)
    && (forall i :: 0 <= i < |l.completions| && !l.completions[i].final ==> l.completions[i].token in l.ongoing)
    && (forall k :: k in l.multiShot ==> l.multiShot[k].token in l.ongoing)
  }

  /** Each handler handed in is in exactly one place: pending in one of the maps, posted, spent
      by its final call, or dropped. One handler may be in the hand of the step under way. */
  ghost predicate Balanced(l: Ledger, inHand: multiset<nat>)
  {
    Places(l) + inHand == AllTokens(l.submitted) && Ordered(l)
  }

  ghost predicate Accounted(s: Session)
  {
    Balanced(Books(s), multiset{})
  }

  lemma PostBalances(s: Session, h: Handler, outcome: Outcome)
    requires Balanced(Books(s), multiset{h.token})
    ensures Accounted(Post(s, h, outcome))
  {
    TaskTokensConcat(s.posted, [Task(h, outcome)]);
    TaskTokensOfOne(Task(h, outcome));
    hide MapTokens, TaskTokens, FinalTokens, AllTokens;
  }

  lemma DrainedMapTokens(m: RequestMap, posted: seq<Task>, ec: Errc)
    ensures TaskTokens(posted + Tasks(Drain(m), Failure(ec))) == TaskTokens(posted) + MapTokens(m)
  {
    TaskTokensConcat(posted, Tasks(Drain(m), Failure(ec)));
    TaskTokensOfTasks(Drain(m), Failure(ec));
  }

  lemma AbortBalances(s: Session, ec: Errc, inHand: multiset<nat>)
    requires Balanced(Books(s), inHand)
    ensures Balanced(Books(AbortPending(s, ec)), inHand)
  {
    DrainedMapTokens(s.oneShot, s.posted, ec);
    DrainedMapTokens(s.multiShot, s.posted + Tasks(Drain(s.oneShot), Failure(ec)), ec);
    EmptyMapTokens();
    hide MapTokens, TaskTokens, FinalTokens, AllTokens, Drain, Tasks;
  }

  lemma EmptyMapTokens()
    ensures MapTokens(map[]) == multiset{}
  {
  }

  lemma TakeOneShot(s: Session, key: Key)
    requires Accounted(s) && key in s.oneShot
    ensures Balanced(Books(s.(oneShot := s.oneShot - {key})), multiset{s.oneShot[key].token})
  {
    MapTokensRemove(s.oneShot, key);
    hide MapTokens, TaskTokens, FinalTokens, AllTokens;
  }

  lemma TakeMultiShot(s: Session, key: Key)
    requires Accounted(s) && key in s.multiShot
    ensures Balanced(Books(s.(multiShot := s.multiShot - {key})), multiset{s.multiShot[key].token})
  {
    MapTokensRemove(s.multiShot, key);
    hide MapTokens, TaskTokens, FinalTokens, AllTokens;
  }

  lemma TakeTaskPlaces(s: Session)
    requires s.posted != []
    ensures TaskTokens(s.posted) == multiset{s.posted[0].handler.token} + TaskTokens(s.posted[1..])
  {
    assert s.posted == [s.posted[0]] + s.posted[1..];
    TaskTokensConcat([s.posted[0]], s.posted[1..]);
    TaskTokensOfOne(s.posted[0]);
  }

  lemma TakeTask(s: Session)
    requires Accounted(s) && s.posted != []
    ensures Balanced(Books(s.(posted := s.posted[1..])), multiset{s.posted[0].handler.token})
  {
    TakeTaskPlaces(s);
    hide MapTokens, TaskTokens, FinalTokens, AllTokens;
    assert Ordered(Books(s.(posted := s.posted[1..])));
    hide Ordered;
  }

  lemma InHandNotFinal(l: Ledger, h: Handler)
    requires Balanced(l, multiset{h.token})
    ensures forall i :: 0 <= i < |l.completions| && l.completions[i].token == h.token ==> !l.completions[i].final
  {
    AllTokensOnce(l.submitted, h.token);
    NoFinalYet(l.completions, h.token);
    hide MapTokens, TaskTokens, FinalTokens, AllTokens;
    assert (Places(l) + multiset{h.token})[h.token] <= 1;
  }

  /** A call may be logged while its handler has no final call yet. */
  lemma CallKeepsOrder(s: Session, token: nat, outcome: Outcome, final: bool)
    requires Ordered(Books(s)) && (!final ==> token in s.ongoing)
    requires forall i :: 0 <= i < |s.completions| && s.completions[i].token == token ==> !s.completions[i].final
    ensures Ordered(Books(s.(completions := s.completions + [Completion(token, outcome, final)])))
  {
  }

  lemma CallBalances(s: Session, h: Handler, outcome: Outcome)
    requires Balanced(Books(s), multiset{h.token})
    ensures Accounted(Log(s, h, outcome, true))
  {
    InHandNotFinal(Books(s), h);
    CallKeepsOrder(s, h.token, outcome, true);
    FinalTokensAppend(s.completions, Completion(h.token, outcome, true));
    hide MapTokens, TaskTokens, FinalTokens, AllTokens, Ordered;
  }

  lemma InvokeBalances(s: Session, h: Handler, outcome: Outcome)
    requires Balanced(Books(s), multiset{h.token})
    ensures Accounted(Invoke(s, h, outcome))
  {
    AbortBalances(s.(state := Closed), SessionEnded, multiset{h.token});
    var s1 := if h.adjourning && outcome.Reply? then AbortPending(s.(state := Closed), SessionEnded) else s;
    hide AbortPending, Balanced;
    CallBalances(s1, h, outcome);
    hide Log;
  }

  /** A progressive call leaves the handler where it is. */
  lemma ProgressBalances(s: Session, key: Key, outcome: Outcome)
    requires Accounted(s) && key in s.multiShot
    ensures Accounted(Log(s, s.multiShot[key], outcome, false))
  {
    var h := s.multiShot[key];
    TakeMultiShot(s, key);
    InHandNotFinal(Books(s.(multiShot := s.multiShot - {key})), h);
    CallKeepsOrder(s, h.token, outcome, false);
    FinalTokensAppend(s.completions, Completion(h.token, outcome, false));
    hide MapTokens, TaskTokens, FinalTokens, AllTokens, Ordered;
  }

  lemma EnlistPlaces(posted: seq<Task>, pending: RequestMap, key: Key, h: Handler)
    ensures var posted' := if key in pending then posted + [Task(pending[key], Failure(Cancelled))] else posted;
            TaskTokens(posted') + MapTokens(pending[key := h])
            == TaskTokens(posted) + MapTokens(pending) + multiset{h.token}
  {
    if key in pending {
      MapTokensRemove(pending, key);
      TaskTokensConcat(posted, [Task(pending[key], Failure(Cancelled))]);
      TaskTokensOfOne(Task(pending[key], Failure(Cancelled)));
      MapTokensRemove(pending[key := h], key);
      assert pending[key := h] - {key} == pending - {key};
    } else {
      MapTokensAdd(pending, key, h);
    }
    hide MapTokens, TaskTokens;
  }

  lemma EnlistKeepsOrder(s: Session, key: Key, h: Handler, multi: bool)
    requires Ordered(Books(s)) && (multi ==> h.token in s.ongoing)
    ensures Ordered(Books(Enlisted(s, key, h, multi)))
  {
  }

  lemma EnlistBalances(s: Session, key: Key, h: Handler, multi: bool)
    requires Balanced(Books(s), multiset{h.token}) && (multi ==> h.token in s.ongoing)
    ensures Accounted(Enlisted(s, key, h, multi))
  {
    EnlistKeepsOrder(s, key, h, multi);
    var pending := if multi then s.multiShot else s.oneShot;
    EnlistPlaces(s.posted, pending, key, h);
    hide MapTokens, TaskTokens, FinalTokens, AllTokens, Ordered;
    var s1 := Enlisted(s, key, h, multi);
    Rebalance(TaskTokens(s.posted), MapTokens(pending), TaskTokens(s1.posted), MapTokens(pending[key := h]),
              multiset{h.token}, MapTokens(if multi then s.oneShot else s.multiShot),
              FinalTokens(s.completions), s.dropped);
    assert Places(Books(s1)) == Places(Books(s)) + multiset{h.token};
  }

  lemma Rebalance(t: multiset<nat>, p: multiset<nat>, t1: multiset<nat>, p1: multiset<nat>, h: multiset<nat>,
                  q: multiset<nat>, f: multiset<nat>, d: multiset<nat>)
    requires t1 + p1 == t + p + h
    ensures p1 + q + t1 + f + d == p + q + t + f + d + h
    ensures q + p1 + t1 + f + d == q + p + t + f + d + h
  {
    assert p1 + q + t1 + f + d == (t1 + p1) + (q + f + d);
    assert p + q + t + f + d + h == (t + p + h) + (q + f + d);
    assert q + p1 + t1 + f + d == (t1 + p1) + (q + f + d);
    assert q + p + t + f + d + h == (t + p + h) + (q + f + d);
  }

  lemma ReplyBalances(s: Session, key: Key, msg: Message)
    requires Accounted(s)
    ensures Accounted(ProcessWampReply(s, key, msg))
  {
    hide Balanced, Invoke, Log;
    if key in s.oneShot {
      TakeOneShot(s, key);
      InvokeBalances(s.(oneShot := s.oneShot - {key}), s.oneShot[key], Reply(msg));
    } else if key in s.multiShot {
      if IsProgressive(msg) {
        ProgressBalances(s, key, Reply(msg));
      } else {
        TakeMultiShot(s, key);
        InvokeBalances(s.(multiShot := s.multiShot - {key}), s.multiShot[key], Reply(msg));
      }
    }
  }

  lemma FailBalances(s: Session, ec: Errc)
    requires Accounted(s)
    ensures Accounted(Fail(s, ec))
  {
    AbortBalances(s.(state := Failed), ec, multiset{});
    hide Balanced, AbortPending;
  }

  lemma CloseBalances(s: Session)
    requires Accounted(s)
    ensures Accounted(Close(s))
  {
    AbortBalances(s.(state := Disconnected), SessionEnded, multiset{});
    hide Balanced, AbortPending;
  }

  lemma AbortMsgBalances(s: Session, msg: Message, ec: Errc)
    requires Accounted(s)
    ensures Accounted(ProcessAbort(s, msg, ec))
  {
    ReplyBalances(s.(state := Closed), Key(HELLO, 0), msg);
    FailBalances(s, ec);
    hide Balanced, ProcessWampReply, Fail;
  }

  lemma GoodbyeBalances(s: Session, msg: Message, ec: Errc)
    requires Accounted(s) && s.hasTransport
    ensures Accounted(ProcessGoodbye(s, msg, ec))
  {
    hide Balanced, ProcessWampReply, RequestKey, SendMessage;
    if s.state == ShuttingDown {
      ReplyBalances(s.(state := Closed), RequestKey(msg), msg);
    } else {
      AbortBalances(s, ec, multiset{});
      assert AbortPending(s, ec).hasTransport;
      hide AbortPending;
      SendingIsNeutral(AbortPending(s, ec), GOODBYE, 0);
    }
  }

  lemma SendingIsNeutral(s: Session, t: MsgType, size: nat)
    requires s.hasTransport
    ensures Books(SendMessage(s, t, size)) == Books(s)
  {
  }

  lemma MessageBalances(s: Session, msg: Message, ec: Errc)
    requires Accounted(s) && s.hasTransport
    ensures Accounted(ProcessMessage(s, msg, ec))
  {
    hide Balanced, ProcessWampReply, RequestKey, RepliesTo, RequestId, ProcessAbort, ProcessGoodbye;
    if RepliesTo(msg.msgType) != NONE {
      ReplyBalances(s, Key(RepliesTo(msg.msgType), RequestId(msg)), msg);
    } else {
      ReplyBalances(s, RequestKey(msg), msg);
      ReplyBalances(s.(state := Established), Key(HELLO, 0), msg);
      AbortMsgBalances(s, msg, ec);
      GoodbyeBalances(s, msg, ec);
    }
  }

  lemma RxBalances(s: Session, input: Input)
    requires Accounted(s) && (ReadyToReceive(s) ==> s.hasTransport)
    ensures Accounted(OnTransportRx(s, input))
  {
    FailBalances(s, ProtocolViolation);
    if ReadyToReceive(s) && input.Undecodable? {
      FailBalances(s, input.ec);
    }
    if ReadyToReceive(s) && input.Parsed? {
      MessageBalances(s, input.msg, input.reason);
    }
    hide Fail, ProcessMessage, Balanced, IsValidRx;
  }

  lemma CancelBalances(s: Session, id: int, kill: bool, size: nat)
    requires Accounted(s) && s.hasTransport
    ensures Accounted(CancelCall(s, id, kill, size))
  {
    var key := Key(CALL, id);
    hide Balanced;
    if key in s.oneShot {
      TakeOneShot(s, key);
      PostBalances(s.(oneShot := s.oneShot - {key}), s.oneShot[key], Failure(Cancelled));
    } else if key in s.multiShot {
      TakeMultiShot(s, key);
      PostBalances(s.(multiShot := s.multiShot - {key}), s.multiShot[key], Failure(Cancelled));
    }
  }

  lemma RunTaskBalances(s: Session)
    requires Accounted(s) && s.posted != []
    ensures Accounted(RunTask(s))
  {
    TakeTask(s);
    InvokeBalances(s.(posted := s.posted[1..]), s.posted[0].handler, s.posted[0].outcome);
    hide Balanced, Invoke;
  }

  lemma PlusNothing(a: multiset<nat>)
    ensures a + multiset{} == a
  {
  }

  lemma HandedInPlaces(s: Session)
    requires Ordered(Books(s))
    ensures var l := Books(HandedIn(s)); Places(l) == Places(Books(s)) && Ordered(l)
    ensures var l := Books(HandedIn(s).(ongoing := s.ongoing + {s.submitted}));
            Places(l) == Places(Books(s)) && Ordered(l)
  {
    hide MapTokens, TaskTokens, FinalTokens;
  }

  /** Handing in a handler puts it in the hand of the step. */
  lemma HandingIn(s: Session)
    requires Accounted(s)
    ensures var s1 := HandedIn(s); Balanced(Books(s1), multiset{s.submitted})
    ensures var s1 := HandedIn(s).(ongoing := s.ongoing + {s.submitted}); Balanced(Books(s1), multiset{s.submitted})
  {
    HandedInPlaces(s);
    PlusNothing(Places(Books(s)));
    assert AllTokens(s.submitted + 1) == AllTokens(s.submitted) + multiset{s.submitted};
    hide Places, Ordered, AllTokens;
  }

  lemma SumAssociates(a: multiset<nat>, b: multiset<nat>, c: multiset<nat>)
    ensures a + (b + c) == a + b + c
  {
  }

  lemma DropPlaces(s: Session, t: nat)
    ensures Places(Books(s.(dropped := s.dropped + multiset{t}))) == Places(Books(s)) + multiset{t}
  {
    SumAssociates(MapTokens(s.oneShot) + MapTokens(s.multiShot) + TaskTokens(s.posted) + FinalTokens(s.completions),
                  s.dropped, multiset{t});
    hide MapTokens, TaskTokens, FinalTokens;
  }

  lemma DropKeepsOrder(s: Session, t: nat)
    requires Ordered(Books(s))
    ensures Ordered(Books(s.(dropped := s.dropped + multiset{t})))
  {
  }

  lemma RefuseBalances(s: Session, h: Handler)
    requires Balanced(Books(s), multiset{h.token})
    ensures Accounted(Refuse(s, h))
  {
    if s.terminating {
      DropPlaces(s, h.token);
      DropKeepsOrder(s, h.token);
      PlusNothing(Places(Books(Refuse(s, h))));
      hide Places, AllTokens, Ordered;
    } else {
      PostBalances(s, h, Failure(InvalidState));
      hide Balanced;
    }
  }

  lemma SendRequestBalances(s: Session, t: MsgType, size: nat, h: Handler, multi: bool)
    requires Balanced(Books(s), multiset{h.token}) && (multi ==> h.token in s.ongoing) && s.hasTransport
    ensures Accounted(SendRequest(s, t, size, h, multi))
  {
    hide Balanced, Enlisted, KeyFor;
    var h1, s1 := h.(draw := |s.drawnBy|), WithId(s, t, h.token);
    assert Books(s1) == Books(s) && s1.ongoing == s.ongoing;
    PostBalances(s1, h1, Failure(PayloadSizeExceeded));
    EnlistBalances(s1, KeyFor(s, t), h1, multi);
  }

  lemma JoinBalances(s: Session, size: nat)
    requires Accounted(s) && TransportFits(s)
    ensures Accounted(Join(s, size))
  {
    hide Balanced, SendRequest, Refuse;
    HandingIn(s);
    if s.state != Closed {
      RefuseBalances(HandedIn(s), NewHandler(s, false));
    } else {
      SendRequestBalances(Opening(s), HELLO, size, NewHandler(s, false), false);
    }
  }

  lemma LeaveBalances(s: Session, size: nat)
    requires Accounted(s) && TransportFits(s)
    ensures Accounted(Leave(s, size))
  {
    hide Balanced, SendRequest, Refuse;
    HandingIn(s);
    if s.state != Established {
      RefuseBalances(HandedIn(s), NewHandler(s, true));
    } else {
      SendRequestBalances(Leaving(s), GOODBYE, size, NewHandler(s, true), false);
    }
  }

  lemma RequestBalances(s: Session, t: MsgType, size: nat, multi: bool)
    requires Accounted(s) && TransportFits(s)
    ensures Accounted(Request(s, t, size, multi))
  {
    hide Balanced, SendRequest, Refuse;
    HandingIn(s);
    var h := NewHandler(s, false);
    var s1 := if multi then HandedIn(s).(ongoing := s.ongoing + {h.token}) else HandedIn(s);
    if s.state != Established {
      RefuseBalances(s1, h);
    } else {
      SendRequestBalances(s1, t, size, h, multi);
    }
  }

  lemma StepBalances(s: Session, c: Command)
    requires Accounted(s) && Shaped(s) && Enabled(s, c)
    ensures Accounted(Step(s, c))
  {
    hide Balanced, Join, Leave, Close, Request, CancelCall, OnTransportRx, Fail, RunTask, PostedAreFailures;
    match c
    case CmdJoin(size) => JoinBalances(s, size);
    case CmdLeave(size) => LeaveBalances(s, size);
    case CmdDisconnect => CloseBalances(s);
    case CmdTerminate => CloseBalances(s.(terminating := true));
    case CmdRequest(t, size) => RequestBalances(s, t, size, false);
    case CmdOngoingCall(size) => RequestBalances(s, CALL, size, true);
    case CmdCancelCall(id, kill, size) => if s.state == Established { CancelBalances(s, id, kill, size); }
    case CmdReceive(input) => RxBalances(s, input);
    case CmdTransportError(ec) => FailBalances(s, ec);
    case CmdRunTask => RunTaskBalances(s);
    case _ =>
  }

  lemma {:induction false} RunBalances(s: Session, commands: seq<Command>)
    requires Shaped(s) && CanRun(s, commands) && Accounted(s)
    ensures Shaped(Run(s, commands)) && Accounted(Run(s, commands))
    decreases |commands|
  {
    hide Shaped, Accounted, Step, Enabled;
    if commands != [] {
      StepKeepsShape(s, commands[0]);
      StepBalances(s, commands[0]);
      RunBalances(Step(s, commands[0]), commands[1..]);
    }
  }

  lemma {:induction false} RunDropsNothing(s: Session, commands: seq<Command>)
    requires Shaped(s) && CanRun(s, commands) && !s.terminating && CmdTerminate !in commands
    ensures !Run(s, commands).terminating && Run(s, commands).dropped == s.dropped
    decreases |commands|
  {
    hide Shaped, Step, Enabled;
    if commands != [] {
      StepKeepsShape(s, commands[0]);
      RunDropsNothing(Step(s, commands[0]), commands[1..]);
    }
  }

  /** Over every run of commands, replies, errors and posted calls: each handler handed in is
      in exactly one place (pending in the one-shot or the multi-shot map, posted to the strand,
      spent by its one final call, or dropped), no call of a handler follows its final one, only
      handlers handed in for progressive results get calls that are not final, and without
      terminate nothing is dropped. */
  lemma HandlersAreConserved(isRouter: bool, commands: seq<Command>)
    requires CanRun(Fresh(isRouter), commands)
    ensures var s := Run(Fresh(isRouter), commands);
            && (forall t: nat ::
                  MapTokens(s.oneShot)[t] + MapTokens(s.multiShot)[t] + TaskTokens(s.posted)[t]
                  + FinalTokens(s.completions)[t] + s.dropped[t] == if t < s.submitted then 1 else 0)
            && Ordered(Books(s))
            && (CmdTerminate !in commands ==> s.dropped == multiset{})
  {
    var s0 := Fresh(isRouter);
    FreshIsAccounted(isRouter);
    hide Run, CanRun, MapTokens, TaskTokens, FinalTokens, AllTokens, Ordered, Shaped, Accounted, Fresh;
    RunBalances(s0, commands);
    var s := Run(s0, commands);
    if CmdTerminate !in commands {
      RunDropsNothing(s0, commands);
    }
    AccountedOnce(s);
  }

  lemma FreshIsAccounted(isRouter: bool)
    ensures var s := Fresh(isRouter); Accounted(s) && Shaped(s) && !s.terminating && s.dropped == multiset{}
  {
    EmptyMapTokens();
  }

  lemma AccountedOnce(s: Session)
    requires Accounted(s)
    ensures Ordered(Books(s))
    ensures forall t: nat ::
              MapTokens(s.oneShot)[t] + MapTokens(s.multiShot)[t] + TaskTokens(s.posted)[t]
              + FinalTokens(s.completions)[t] + s.dropped[t] == if t < s.submitted then 1 else 0
  {
    hide MapTokens, TaskTokens, FinalTokens, AllTokens, Ordered;
    forall t: nat ensures MapTokens(s.oneShot)[t] + MapTokens(s.multiShot)[t] + TaskTokens(s.posted)[t]
                          + FinalTokens(s.completions)[t] + s.dropped[t] == if t < s.submitted then 1 else 0 {
      AllTokensOnce(s.submitted, t);
      assert (Places(Books(s)) + multiset{})[t] == AllTokens(s.submitted)[t];
    }
  }
}

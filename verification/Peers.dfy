/** The object that both ends of a session build on. */
module Peers {
  import opened WampMessages
  import opened Handlers
  import opened Sessions

  class Peer {
    const isRouter: bool
    var state: State
    var hasTransport: bool
    var maxTxLength: nat
    var oneShotRequestMap: RequestMap
    var multiShotRequestMap: RequestMap
    var lastRequestId: int
    var isTerminating: bool
    var strand: seq<Task>              // posted and not run yet
    var drawnBy: seq<IdUse>            // history of the ids drawn
    ghost var sessionUses: seq<IdUse>
    ghost var completions: seq<Completion>
    ghost var submitted: nat
    ghost var ongoing: set<nat>
    ghost var dropped: multiset<nat>
    ghost var sent: seq<Key>
    ghost var inbound: seq<Message>

    ghost function View(): Session
      reads this
    {
      Session(isRouter, state, hasTransport, maxTxLength, oneShotRequestMap, multiShotRequestMap,
                      lastRequestId, drawnBy, sessionUses, isTerminating, strand,
              completions, submitted, ongoing, dropped, sent, inbound)
    }

    constructor (isRouter: bool)
      ensures View() == Fresh(isRouter)
    {
      this.isRouter := isRouter;
      state, hasTransport, maxTxLength := Disconnected, false, 0;
      oneShotRequestMap, multiShotRequestMap, lastRequestId := map[], map[], 0;
      isTerminating, strand := false, [];
      drawnBy, sessionUses, completions, submitted, ongoing := [], [], [], 0, {};
      dropped, sent, inbound := multiset{}, [], [];
    }

    method OpenTransport(maxTxLength: nat)
      requires state == Connecting
      modifies this
      ensures View() == Open(old(View()), maxTxLength)
    {
      hasTransport := true;
      state := Closed;
      this.maxTxLength := maxTxLength;
    }

    method PostHandler(h: Handler, outcome: Outcome)
      modifies this`strand
      ensures View() == Post(old(View()), h, outcome)
    {
      strand := strand + [Task(h, outcome)];
    }

    /** Posts every handler of a map with an error, in key order. */
    method PostAll(m: RequestMap, ec: Errc)
      modifies this`strand
      ensures View() == old(View()).(posted := old(strand) + Tasks(Drain(m), Failure(ec)))
    {
      var left := m;
      assert old(strand) + [] == old(strand);
      while left != map[]
        invariant strand + Tasks(Drain(left), Failure(ec)) == old(strand) + Tasks(Drain(m), Failure(ec))
        decreases left.Keys
      {
        MinKeyExists(left.Keys);
        var k :| k in left.Keys && forall k' :: k' in left.Keys ==> KeyLeq(k, k');
        assert KeyLeq(k, MinKey(left.Keys)) && KeyLeq(MinKey(left.Keys), k);
        DrainTasks(strand, left, ec);
        strand := strand + [Task(left[k], Failure(ec))];
        left := left - {k};
      }
      assert Tasks(Drain(left), Failure(ec)) == [];
    }

    method AbortAll(ec: Errc)
      modifies this
      ensures View() == AbortPending(old(View()), ec)
    {
      if isTerminating {
        dropped := dropped + MapTokens(oneShotRequestMap) + MapTokens(multiShotRequestMap);
      } else {
        PostAll(oneShotRequestMap, ec);
        PostAll(multiShotRequestMap, ec);
      }
      oneShotRequestMap := map[];
      multiShotRequestMap := map[];
    }

    method FailWith(ec: Errc)
      modifies this
      ensures View() == Fail(old(View()), ec)
    {
      var oldState := state;
      state := Failed;
      if oldState != Failed {
        AbortAll(ec);
        hasTransport := false;
      }
    }

    method CloseTransport()
      modifies this
      ensures View() == Close(old(View()))
    {
      state := Disconnected;
      AbortAll(SessionEnded);
      hasTransport := false;
    }

    method DrawRequestId(t: MsgType, owner: int) returns (id: int)
      modifies this
      ensures View() == WithId(old(View()), t, owner)
      ensures Key(t, id) == KeyFor(old(View()), t)
    {
      id := 0;
      if HasRequestId(t) {
        if lastRequestId >= MAX_REQUEST_ID {
          lastRequestId := 0;
        }
        lastRequestId := lastRequestId + 1;
        id := lastRequestId;
        drawnBy := drawnBy + [IdUse(t, owner)];
      }
    }

    /** The size is that of the encoded message. */
    method Send(t: MsgType, size: nat) returns (ok: bool)
      requires hasTransport
      modifies this
      ensures View() == SendMessage(old(View()), t, size) && ok == (size <= maxTxLength)
    {
      var id := DrawRequestId(t, -1);
      ok := size <= maxTxLength;
      if ok {
        sent := sent + [Key(t, id)];
      }
    }

    method SendCancellation(id: int, size: nat) returns (ok: bool)
      requires hasTransport
      modifies this`sent
      ensures View() == SendCancel(old(View()), id, size) && ok == (size <= maxTxLength)
    {
      ok := size <= maxTxLength;
      if ok {
        sent := sent + [Key(CANCEL, id)];
      }
    }

    method RequestOneShot(t: MsgType, size: nat, h: Handler) returns (id: int)
      requires hasTransport
      modifies this
      ensures View() == SendRequest(old(View()), t, size, h, false)
      ensures Key(t, id) == KeyFor(old(View()), t)
    {
      var h1 := h.(draw := |drawnBy|);
      id := DrawRequestId(t, h.token);
      hide HasRequestId;
      if size > maxTxLength {
        PostHandler(h1, Failure(PayloadSizeExceeded));
        return;
      }
      var key := Key(t, id);
      if key in oneShotRequestMap {
        PostHandler(oneShotRequestMap[key], Failure(Cancelled));
      }
      oneShotRequestMap := oneShotRequestMap[key := h1];
      sent := sent + [key];
    }

    method OngoingRequest(t: MsgType, size: nat, h: Handler) returns (id: int)
      requires hasTransport
      modifies this
      ensures View() == SendRequest(old(View()), t, size, h, true)
      ensures Key(t, id) == KeyFor(old(View()), t)
    {
      var h1 := h.(draw := |drawnBy|);
      id := DrawRequestId(t, h.token);
      hide HasRequestId;
      if size > maxTxLength {
        PostHandler(h1, Failure(PayloadSizeExceeded));
        return;
      }
      var key := Key(t, id);
      if key in multiShotRequestMap {
        PostHandler(multiShotRequestMap[key], Failure(Cancelled));
      }
      multiShotRequestMap := multiShotRequestMap[key := h1];
      sent := sent + [key];
    }

    /** Starts shutting the session down; the caller's handler is wrapped. */
    method Adjourn(size: nat, token: nat) returns (id: int)
      requires state == Established && hasTransport
      modifies this
      ensures View()
           == SendRequest(old(View()).(state := ShuttingDown), GOODBYE, size, Handler(token, true, 0), false)
    {
      state := ShuttingDown;
      id := RequestOneShot(GOODBYE, size, Handler(token, true, 0));
    }

    method Cancel(id: int, kill: bool, size: nat) returns (found: bool)
      requires hasTransport
      modifies this
      ensures View() == CancelCall(old(View()), id, kill, size)
      ensures found <==> IsPending(old(View()), Key(CALL, id))
    {
      var key := Key(CALL, id);
      found := false;
      if key in oneShotRequestMap {
        found := true;
        if !kill {
          var handler := oneShotRequestMap[key];
          oneShotRequestMap := oneShotRequestMap - {key};
          PostHandler(handler, Failure(Cancelled));
        }
      } else if key in multiShotRequestMap {
        found := true;
        if !kill {
          var handler := multiShotRequestMap[key];
          multiShotRequestMap := multiShotRequestMap - {key};
          PostHandler(handler, Failure(Cancelled));
        }
      }
      if found {
        var _ := SendCancellation(id, size);
      }
    }

    method CallHandler(h: Handler, outcome: Outcome)
      modifies this
      ensures View() == Invoke(old(View()), h, outcome)
    {
      if h.adjourning && outcome.Reply? {
        state := Closed;
        AbortAll(SessionEnded);
        hide AbortPending;
      }
      completions := completions + [Completion(h.token, outcome, true)];
    }

    method HandleReply(key: Key, msg: Message)
      modifies this
      ensures View() == ProcessWampReply(old(View()), key, msg)
    {
      hide Invoke;
      if key in oneShotRequestMap {
        var handler := oneShotRequestMap[key];
        oneShotRequestMap := oneShotRequestMap - {key};
        CallHandler(handler, Reply(msg));
      } else if key in multiShotRequestMap {
        if IsProgressive(msg) {
          completions := completions + [Completion(multiShotRequestMap[key].token, Reply(msg), false)];
        } else {
          var handler := multiShotRequestMap[key];
          multiShotRequestMap := multiShotRequestMap - {key};
          CallHandler(handler, Reply(msg));
        }
      }
    }

    method HandleAbort(msg: Message, ec: Errc)
      modifies this
      ensures View() == ProcessAbort(old(View()), msg, ec)
    {
      hide ProcessWampReply, Fail;
      if state == Establishing || state == Authenticating {
        state := Closed;
        HandleReply(Key(HELLO, 0), msg);
      } else if state != ShuttingDown {
        FailWith(ec);
      }
    }

    method HandleGoodbye(msg: Message, ec: Errc)
      requires hasTransport
      modifies this
      ensures View() == ProcessGoodbye(old(View()), msg, ec)
    {
      hide ProcessWampReply, RequestKey;
      if state == ShuttingDown {
        state := Closed;
        HandleReply(RequestKey(msg), msg);
      } else {
        AbortAll(ec);
        var _ := Send(GOODBYE, 0);
        state := Closed;
        hide AbortPending, SendMessage;
      }
    }

    method HandleMessage(msg: Message, ec: Errc)
      requires hasTransport
      modifies this
      ensures View() == ProcessMessage(old(View()), msg, ec)
    {
      hide ProcessWampReply, ProcessAbort, ProcessGoodbye, RequestKey, RequestId, RepliesTo;
      var t := msg.msgType;
      if RepliesTo(t) != NONE {
        HandleReply(Key(RepliesTo(t), RequestId(msg)), msg);
      } else if t == HELLO {
        state := Established;
        inbound := inbound + [msg];
      } else if t == CHALLENGE {
        state := Authenticating;
        inbound := inbound + [msg];
      } else if t == WELCOME {
        state := Established;
        HandleReply(Key(HELLO, 0), msg);
      } else if t == ABORT {
        HandleAbort(msg, ec);
      } else if t == GOODBYE {
        HandleGoodbye(msg, ec);
      } else if t == ERROR {
        HandleReply(RequestKey(msg), msg);
      } else if state != ShuttingDown {
        inbound := inbound + [msg];
      }
    }

    method Receive(input: Input)
      requires ReadyToReceive(View()) ==> hasTransport
      modifies this
      ensures View() == OnTransportRx(old(View()), input)
    {
      if state !in {Establishing, Authenticating, Established, ShuttingDown} {
        FailWith(ProtocolViolation);
        return;
      }
      hide Fail, ProcessMessage;
      match input {
        case Undecodable(ec) => FailWith(ec);
        case NotAMessage => FailWith(ProtocolViolation);
        case Parsed(msg, reason) =>
          if IsValidRx(msg.msgType, state, isRouter) {
            hide IsValidRx;
            HandleMessage(msg, reason);
          } else {
            hide IsValidRx;
            FailWith(ProtocolViolation);
          }
      }
    }

    /** The strand runs the oldest posted call. */
    method RunPosted()
      requires strand != []
      modifies this
      ensures View() == RunTask(old(View()))
    {
      var task := strand[0];
      strand := strand[1..];
      hide Invoke;
      CallHandler(task.handler, task.outcome);
    }
  }

  lemma DrainTasks(before: seq<Task>, m: RequestMap, ec: Errc)
    requires m != map[]
    ensures var k := MinKey(m.Keys);
            before + Tasks(Drain(m), Failure(ec))
            == before + [Task(m[k], Failure(ec))] + Tasks(Drain(m - {k}), Failure(ec))
  {
    var k := MinKey(m.Keys);
    assert Tasks(Drain(m), Failure(ec)) == [Task(m[k], Failure(ec))] + Tasks(Drain(m - {k}), Failure(ec));
  }
}

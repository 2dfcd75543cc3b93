/** Giving up event slots: when UNSUBSCRIBE goes out, and what becomes of the handlers of
    acknowledged unsubscribes. */
module Unsubscribing {
  import opened Subscriptions

  // ----- Giving up slots ------------------------------------------------------------------

  /** The slot that an event gives up, if it is one that does. */
  predicate GivesUp(e: Event)
  {
    e.EvUnsubscribe? || e.EvUnsubscribeAcknowledged?
  }

  lemma DismissedWithLastSlot(s: Tables, e: Event, router: Uri -> SubscriptionId)
    requires OneToOne(router) && Agree(s, router) && Enabled(s, e, router)
    ensures var s1 := Step(s, e, router);
            && (s1.dismissed != s.dismissed <==> GivesUp(e) && s.established && IsLast(s, e.id, e.slotId))
            && (GivesUp(e) ==> !Known(s1, e.id, e.slotId))
            && (GivesUp(e) && IsLast(s, e.id, e.slotId) ==>
                  e.id !in s1.readership && forall t :: t in s1.topics ==> s1.topics[t] != e.id)
            && (forall id :: id in s.readership && id !in s1.readership ==>
                  e.EvEnd? || e.EvTerminate? || (GivesUp(e) && e.id == id && IsLast(s, id, e.slotId)))
  {
    if GivesUp(e) {
      UnsubscribeAgrees(s, e.id, e.slotId, router);
      assert |s.dismissed + [e.id]| > |s.dismissed|;
    }
  }

  /** On every run UNSUBSCRIBE goes out exactly when an established session gives up the last
      slot of a subscription; then neither table holds anything of it any more; and only so, or
      at the end of the session, does a subscription leave the table. */
  lemma DismissedOnRuns(events: seq<Event>, e: Event, router: Uri -> SubscriptionId)
    requires OneToOne(router) && CanRun(EMPTY, events + [e], router)
    ensures CanRun(EMPTY, events, router)
    ensures var s, s1 := Run(EMPTY, events, router), Run(EMPTY, events + [e], router);
            && (s1.dismissed != s.dismissed <==> GivesUp(e) && s.established && IsLast(s, e.id, e.slotId))
            && (GivesUp(e) ==> !Known(s1, e.id, e.slotId))
            && (GivesUp(e) && IsLast(s, e.id, e.slotId) ==>
                  e.id !in s1.readership && forall t :: t in s1.topics ==> s1.topics[t] != e.id)
            && (forall id :: id in s.readership && id !in s1.readership ==>
                  e.EvEnd? || e.EvTerminate? || (GivesUp(e) && e.id == id && IsLast(s, id, e.slotId)))
  {
    RunConcat(EMPTY, events, [e], router);
    RunAgrees(EMPTY, events, router);
    var s := Run(EMPTY, events, router);
    assert Run(s, [e], router) == Step(s, e, router) by {
      assert [e][1..] == [];
    }
    hide Run, CanRun, Step, Agree;
    DismissedWithLastSlot(s, e, router);
  }

  lemma {:induction false} RunConcat(s: Tables, first: seq<Event>, second: seq<Event>, router: Uri -> SubscriptionId)
    ensures CanRun(s, first + second, router) <==>
              CanRun(s, first, router) && CanRun(Run(s, first, router), second, router)
    ensures CanRun(s, first + second, router) ==>
              Run(s, first + second, router) == Run(Run(s, first, router), second, router)
    decreases |first|
  {
    if first == [] {
      assert first + second == second;
    } else {
      assert (first + second)[0] == first[0] && (first + second)[1..] == first[1..] + second;
      if Enabled(s, first[0], router) {
        RunConcat(Step(s, first[0], router), first[1..], second, router);
      }
    }
  }

  // ----- Handlers of acknowledged unsubscribes --------------------------------------------

  function TokensOf(told: seq<Told>): seq<nat>
  {
    seq(|told|, i requires 0 <= i < |told| => told[i].token)
  }

  function TokensTold(told: seq<Told>): multiset<nat>
  {
    multiset(TokensOf(told))
  }

  /** Where the handlers of acknowledged unsubscribes are: waiting, called, or let go. */
  function Places(h: Handlers): multiset<nat>
  {
    multiset(h.waiting) + TokensTold(h.told) + h.dropped
  }

  /** What decides whether the handler is kept at all. */
  predicate UnknownOrLast(s: Tables, id: SubscriptionId, slotId: SlotId)
  {
    id !in s.readership || IsLast(s, id, slotId)
  }

  lemma ToldAppend(told: seq<Told>, more: seq<Told>)
    ensures TokensTold(told + more) == TokensTold(told) + TokensTold(more)
  {
    assert TokensOf(told + more) == TokensOf(told) + TokensOf(more);
  }

  lemma TellPlaces(h: Handlers, token: nat, answer: Answer)
    ensures Places(Tell(h, token, answer)) == Places(h) + multiset{token}
  {
    ToldAppend(h.told, [Told(token, answer)]);
    assert TokensOf([Told(token, answer)]) == [token];
    hide TokensOf;
  }

  lemma AbortPlaces(h: Handlers)
    ensures Places(AbortWaiting(h)) == Places(h)
  {
    ToldAppend(h.told, Aborts(h.waiting));
    assert TokensOf(Aborts(h.waiting)) == h.waiting;
    assert multiset(AbortWaiting(h).waiting) == multiset{};
    hide TokensOf, Aborts;
  }

  lemma AnsweredPlaces(h: Handlers, i: nat, accepted: bool)
    requires i < |h.waiting|
    ensures Places(Answered(h, i, accepted)) == Places(h)
  {
    assert h.waiting == h.waiting[..i] + [h.waiting[i]] + h.waiting[i + 1..];
    TellPlaces(h.(waiting := h.waiting[..i] + h.waiting[i + 1..]), h.waiting[i],
               if accepted then Accepted else Refused);
    hide Tell, TokensTold;
  }

  lemma HandInPlaces(h: Handlers, known: bool, last: bool, established: bool)
    ensures Places(HandIn(h, known, last, established))
         == Places(h) + if !known || last then multiset{h.handedIn} else multiset{}
  {
    var h1 := h.(handedIn := h.handedIn + 1);
    assert Places(h1) == Places(h) && Places(h) + multiset{} == Places(h);
    TellPlaces(h1, h.handedIn, NoSuchSubscription);
    TellPlaces(h1, h.handedIn, NotEstablished);
    hide TokensTold, Tell;
  }

  /** What an event means for the handlers. */
  function NextHandlers(s: Tables, e: Event): Handlers
    requires e.EvUnsubscribed? ==> e.position < |s.handlers.waiting|
  {
    match e
    case EvEstablish => s.handlers.(terminating := false)
    case EvUnsubscribeAcknowledged(id, slotId) =>
      HandIn(s.handlers, id in s.readership, IsLast(s, id, slotId), s.established)
    case EvUnsubscribed(position, accepted) => Answered(s.handlers, position, accepted)
    case EvLost => AbortWaiting(s.handlers)
    case EvEnd => AbortWaiting(s.handlers)
    case EvTerminate => AbortWaiting(s.handlers.(terminating := true))
    case _ => s.handlers
  }

  lemma StepHandlers(s: Tables, e: Event, router: Uri -> SubscriptionId)
    requires Enabled(s, e, router)
    ensures Step(s, e, router).handlers == NextHandlers(s, e)
  {
    hide HandIn, Answered, AbortWaiting, IsLast;
  }

  /** Every step leaves the handlers in place but for the one that comes with it, which is kept
      exactly if the subscription is unknown or gives up its last slot. */
  lemma StepPlaces(s: Tables, e: Event, router: Uri -> SubscriptionId)
    requires Enabled(s, e, router)
    ensures var h, h1 := s.handlers, Step(s, e, router).handlers;
            if e.EvUnsubscribeAcknowledged? then
              && h1.handedIn == h.handedIn + 1
              && Places(h1) == Places(h) + if UnknownOrLast(s, e.id, e.slotId) then multiset{h.handedIn} else multiset{}
            else h1.handedIn == h.handedIn && Places(h1) == Places(h)
  {
    var h := s.handlers;
    StepHandlers(s, e, router);
    hide Step, IsLast, TokensTold, Aborts;
    match e
    case EvUnsubscribeAcknowledged(id, slotId) =>
      HandInPlaces(h, id in s.readership, IsLast(s, id, slotId), s.established);
    case EvUnsubscribed(position, accepted) => AnsweredPlaces(h, position, accepted);
    case EvLost => AbortPlaces(h);
    case EvEnd => AbortPlaces(h);
    case EvTerminate => AbortPlaces(h.(terminating := true));
    case _ =>
  }

  lemma {:induction false} RunKeepsPlace(s: Tables, events: seq<Event>, router: Uri -> SubscriptionId, token: nat)
    requires CanRun(s, events, router) && token < s.handlers.handedIn
    ensures Places(Run(s, events, router).handlers)[token] == Places(s.handlers)[token]
    decreases |events|
  {
    if events != [] {
      StepPlaces(s, events[0], router);
      hide Step, Places, Enabled;
      RunKeepsPlace(Step(s, events[0], router), events[1..], router, token);
    }
  }

  predicate TokensKnown(h: Handlers)
  {
    forall t :: t in Places(h) ==> t < h.handedIn
  }

  lemma StepTokensKnown(s: Tables, e: Event, router: Uri -> SubscriptionId)
    requires Enabled(s, e, router) && TokensKnown(s.handlers)
    ensures TokensKnown(Step(s, e, router).handlers)
  {
    StepPlaces(s, e, router);
    hide Step, Places;
    var h, h1 := s.handlers, Step(s, e, router).handlers;
    forall t | t in Places(h1) ensures t < h1.handedIn {
      assert t in Places(h) || t == h.handedIn;
    }
  }

  lemma {:induction false} RunTokensKnown(s: Tables, events: seq<Event>, router: Uri -> SubscriptionId)
    requires CanRun(s, events, router) && TokensKnown(s.handlers)
    ensures TokensKnown(Run(s, events, router).handlers)
    decreases |events|
  {
    if events != [] {
      StepTokensKnown(s, events[0], router);
      hide Step, TokensKnown, Enabled;
      RunTokensKnown(Step(s, events[0], router), events[1..], router);
    }
  }

  lemma StepDropsNothing(s: Tables, e: Event, router: Uri -> SubscriptionId)
    requires Enabled(s, e, router) && e != EvTerminate && !s.handlers.terminating
    ensures var h1 := Step(s, e, router).handlers; !h1.terminating && h1.dropped == s.handlers.dropped
  {
    StepHandlers(s, e, router);
    hide Step;
  }

  lemma {:induction false} NothingDropped(s: Tables, events: seq<Event>, router: Uri -> SubscriptionId)
    requires CanRun(s, events, router) && EvTerminate !in events && !s.handlers.terminating
    ensures Run(s, events, router).handlers.dropped == s.handlers.dropped
    decreases |events|
  {
    if events != [] {
      StepDropsNothing(s, events[0], router);
      hide Step, Enabled;
      NothingDropped(Step(s, events[0], router), events[1..], router);
    }
  }

  /** At the end of every run, the handler of each acknowledged unsubscribe has been called once
      or still waits for the router, if at its call the subscription was unknown or the slot its
      last one; otherwise it was never called and never will be. Only terminate lets one go. */
  lemma UnsubscribeAnsweredIff(before: seq<Event>, e: Event, after: seq<Event>, router: Uri -> SubscriptionId)
    requires CanRun(EMPTY, before + [e] + after, router) && e.EvUnsubscribeAcknowledged?
    ensures CanRun(EMPTY, before, router)
    ensures var s0, h := Run(EMPTY, before, router), Run(EMPTY, before + [e] + after, router).handlers;
            var token := s0.handlers.handedIn;
            && multiset(h.waiting)[token] + TokensTold(h.told)[token] + h.dropped[token]
               == (if e.id !in s0.readership || IsLast(s0, e.id, e.slotId) then 1 else 0)
            && (EvTerminate !in before + [e] + after ==> h.dropped == multiset{})
  {
    RunConcat(EMPTY, before + [e], after, router);
    RunConcat(EMPTY, before, [e], router);
    assert TokensTold([]) == multiset{};
    RunTokensKnown(EMPTY, before, router);
    var s0 := Run(EMPTY, before, router);
    assert Run(s0, [e], router) == Step(s0, e, router) by {
      assert [e][1..] == [];
    }
    if EvTerminate !in before + [e] + after {
      NothingDropped(EMPTY, before + [e] + after, router);
    }
    hide Run, CanRun, Step, TokensTold;
    StepPlaces(s0, e, router);
    RunKeepsPlace(Step(s0, e, router), after, router, s0.handlers.handedIn);
  }

  /** A client that subscribes twice and gives up one of the two slots. */
  function ForgettingRun(router: Uri -> SubscriptionId): seq<Event>
  {
    [EvEstablish, EvSubscribe(Record("topic", 0)), EvSubscribed(0, router("topic")),
     EvSubscribe(Record("topic", 1)), EvUnsubscribeAcknowledged(router("topic"), 0)]
  }

  /** It never hears of it, whatever happens afterwards. */
  lemma UnsubscribeForgotten(after: seq<Event>, router: Uri -> SubscriptionId)
    ensures CanRun(EMPTY, ForgettingRun(router), router)
    ensures CanRun(EMPTY, ForgettingRun(router) + after, router) ==>
              var h := Run(EMPTY, ForgettingRun(router) + after, router).handlers;
              0 !in h.waiting && (forall i :: 0 <= i < |h.told| ==> h.told[i].token != 0) && 0 !in h.dropped
  {
    var events, id := ForgettingRun(router), router("topic");
    var e := events[4];
    TwoSlots(router);
    assert events == events[..4] + [e];
    RunConcat(EMPTY, events[..4], [e], router);
    if CanRun(EMPTY, events + after, router) {
      UnsubscribeAnsweredIff(events[..4], e, after, router);
      var h := Run(EMPTY, events + after, router).handlers;
      hide Run, CanRun;
      assert 0 !in TokensTold(h.told);
      forall i | 0 <= i < |h.told| ensures h.told[i].token != 0 {
        assert TokensOf(h.told)[i] in TokensTold(h.told);
      }
    }
  }

  lemma TwoSlots(router: Uri -> SubscriptionId)
    ensures var events, id := ForgettingRun(router)[..4], router("topic");
            && CanRun(EMPTY, events, router)
            && var s := Run(EMPTY, events, router);
            && s.handlers.handedIn == 0 && id in s.readership && s.readership[id].Keys == {0, 1}
  {
    var id := router("topic");
    var r0, r1 := Record("topic", 0), Record("topic", 1);
    var s1 := EMPTY.(established := true);
    var s2 := s1.(asked := map[0 := r0], requests := 1);
    var s3 := Subscribed(s2, 0, id);
    assert s3.readership == map[id := map[0 := r0]] && s3.topics == map["topic" := id];
    var s4 := Subscribe(s3, r1);
    assert s4.readership[id] == map[0 := r0, 1 := r1];
    assert ForgettingRun(router)[..4]
        == [EvEstablish] + ([EvSubscribe(r0)] + ([EvSubscribed(0, id)] + ([EvSubscribe(r1)] + [])));
    assert Subscribe(s1, r0) == s2;
    hide Subscribe, Subscribed;
    StepThenRest(s3, EvSubscribe(r1), [], router);
    StepThenRest(s2, EvSubscribed(0, id), [EvSubscribe(r1)] + [], router);
    StepThenRest(s1, EvSubscribe(r0), [EvSubscribed(0, id)] + ([EvSubscribe(r1)] + []), router);
    StepThenRest(EMPTY, EvEstablish, [EvSubscribe(r0)] + ([EvSubscribed(0, id)] + ([EvSubscribe(r1)] + [])), router);
  }

  lemma StepThenRest(s: Tables, e: Event, rest: seq<Event>, router: Uri -> SubscriptionId)
    requires Enabled(s, e, router) && CanRun(Step(s, e, router), rest, router)
    ensures CanRun(s, [e] + rest, router) && Run(s, [e] + rest, router) == Run(Step(s, e, router), rest, router)
  {
    assert ([e] + rest)[1..] == rest;
  }
}

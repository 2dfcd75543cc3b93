/** What each event does to the client's tables, told entry by entry: which slots are live, which
    topics are known, what the handlers are told; and, over whole runs, that a subscriber hears
    every event as often as it comes. */
module SubscriptionEffects {
  import opened Subscriptions
  import opened Wrappers

  // ----- One event ------------------------------------------------------------------------

  /** The record under a slot of a subscription. */
  function SlotAt(s: Tables, id: SubscriptionId, slotId: SlotId): Option<Record>
  {
    if id in s.readership && slotId in s.readership[id] then Some(s.readership[id][slotId]) else None
  }

  function TopicAt(s: Tables, t: Uri): Option<SubscriptionId>
  {
    if t in s.topics then Some(s.topics[t]) else None
  }

  function AskedAt(s: Tables, request: nat): Option<Record>
  {
    if request in s.asked then Some(s.asked[request]) else None
  }

  /** The subscription that gets a slot, and the record in it. */
  function AddedBy(s: Tables, e: Event): Option<(SubscriptionId, Record)>
  {
    match e
    case EvSubscribe(rec) =>
      if s.established && TopicAt(s, rec.topicUri).Some? then Some((TopicAt(s, rec.topicUri).value, rec)) else None
    case EvSubscribed(request, id) =>
      if AskedAt(s, request).Some? then Some((id, AskedAt(s, request).value)) else None
    case _ => None
  }

  predicate Drops(e: Event, id: SubscriptionId, slotId: SlotId)
  {
    e == EvUnsubscribe(id, slotId) || e == EvUnsubscribeAcknowledged(id, slotId) || e.EvEnd? || e.EvTerminate?
  }

  /** The last slot of a subscription is given up. */
  predicate Ends(s: Tables, id: SubscriptionId, slotId: SlotId)
  {
    id in s.readership && s.readership[id].Keys == {slotId}
  }

  ghost predicate SlotsFollow(s: Tables, e: Event, s1: Tables)
  {
    var added := AddedBy(s, e);
    && s1.nextSlotId == s.nextSlotId + (if added.Some? then 1 else 0)
    && forall id, slotId ::
         SlotAt(s1, id, slotId) ==
         if added.Some? && id == added.value.0 && slotId == s.nextSlotId then Some(added.value.1)
         else if Drops(e, id, slotId) then None
         else SlotAt(s, id, slotId)
  }

  /** A topic becomes known when the router accepts the first request for it, and stops being
      known with the last slot, or when everything is cleared. */
  ghost predicate TopicsFollow(s: Tables, e: Event, s1: Tables)
  {
    forall t ::
      TopicAt(s1, t) ==
      match e
      case EvSubscribed(request, id) =>
        if AskedAt(s, request).Some? && AskedAt(s, request).value.topicUri == t && TopicAt(s, t).None?
        then Some(id) else TopicAt(s, t)
      case EvUnsubscribe(id, slotId) =>
        if Ends(s, id, slotId) && SlotAt(s, id, slotId).value.topicUri == t then None else TopicAt(s, t)
      case EvUnsubscribeAcknowledged(id, slotId) =>
        if Ends(s, id, slotId) && SlotAt(s, id, slotId).value.topicUri == t then None else TopicAt(s, t)
      case EvEnd => None
      case EvTerminate => None
      case _ => TopicAt(s, t)
  }

  /** A request is made for a topic that is not known; it is over when it is answered or the
      session ends. */
  ghost predicate RequestsFollow(s: Tables, e: Event, s1: Tables)
  {
    && s1.requests ==
       s.requests + (if e.EvSubscribe? && s.established && TopicAt(s, e.rec.topicUri).None? then 1 else 0)
    && forall request: nat ::
         AskedAt(s1, request) ==
         match e
         case EvSubscribe(rec) => if s.requests == request < s1.requests then Some(rec) else AskedAt(s, request)
         case EvSubscribed(r, _) => if r == request then None else AskedAt(s, request)
         case EvRefused(r) => if r == request then None else AskedAt(s, request)
         case EvLost => None
         case EvEnd => None
         case EvTerminate => None
         case _ => AskedAt(s, request)
  }

  /** The answers handed to the handlers of acknowledged unsubscribes. */
  function ToldBy(s: Tables, e: Event): seq<Told>
  {
    var h := s.handlers;
    if h.terminating then []
    else
      match e
      case EvUnsubscribeAcknowledged(id, slotId) =>
        if id !in s.readership then [Told(h.handedIn, NoSuchSubscription)]
        else if Ends(s, id, slotId) && !s.established then [Told(h.handedIn, NotEstablished)]
        else []
      case EvUnsubscribed(i, accepted) =>
        if i < |h.waiting| then [Told(h.waiting[i], if accepted then Accepted else Refused)] else []
      case EvLost => seq(|h.waiting|, i requires 0 <= i < |h.waiting| => Told(h.waiting[i], Aborted))
      case EvEnd => seq(|h.waiting|, i requires 0 <= i < |h.waiting| => Told(h.waiting[i], Aborted))
      case _ => []
  }

  function WaitingAfter(s: Tables, e: Event): seq<nat>
  {
    var h := s.handlers;
    match e
    case EvUnsubscribeAcknowledged(id, slotId) =>
      if Ends(s, id, slotId) && s.established then h.waiting + [h.handedIn] else h.waiting
    case EvUnsubscribed(i, _) => if i < |h.waiting| then h.waiting[..i] + h.waiting[i + 1..] else h.waiting
    case EvLost => []
    case EvEnd => []
    case EvTerminate => []
    case _ => h.waiting
  }

  ghost predicate HandlersFollow(s: Tables, e: Event, s1: Tables)
  {
    && s1.handlers.told == s.handlers.told + ToldBy(s, e)
    && s1.handlers.waiting == WaitingAfter(s, e)
    && s1.handlers.handedIn == s.handlers.handedIn + (if e.EvUnsubscribeAcknowledged? then 1 else 0)
    && s1.handlers.terminating == (e.EvTerminate? || (s.handlers.terminating && !e.EvEstablish?))
  }

  /** An event comes once to each slot of its subscription. */
  ghost predicate DeliveriesFollow(s: Tables, e: Event, s1: Tables)
  {
    forall d :: s1.posted[d] ==
                s.posted[d] + if e.EvEvent? && d.publication == e.publication && SlotAt(s, e.id, d.slotId).Some?
                              then 1 else 0
  }

  ghost predicate Follows(s: Tables, e: Event, s1: Tables)
  {
    && SlotsFollow(s, e, s1) && TopicsFollow(s, e, s1) && RequestsFollow(s, e, s1)
    && HandlersFollow(s, e, s1) && DeliveriesFollow(s, e, s1)
    && s1.established ==
       (e.EvEstablish? || (s.established && !e.EvLeaving? && !e.EvLost? && !e.EvEnd? && !e.EvTerminate?))
  }

  lemma EndsIff(s: Tables, id: SubscriptionId, slotId: SlotId)
    ensures Ends(s, id, slotId) <==> IsLast(s, id, slotId)
  {
    if id in s.readership && slotId in s.readership[id] {
      var subs := s.readership[id];
      OneLeft(subs, slotId);
      if subs.Keys == {slotId} {
        assert |subs| == |subs.Keys| == 1;
      }
    } else if id in s.readership {
      assert slotId in {slotId};
    }
  }

  lemma AttachDoes(s: Tables, id: SubscriptionId, rec: Record)
    ensures forall i, k :: SlotAt(Attach(s, id, rec), i, k) ==
                           if i == id && k == s.nextSlotId then Some(rec) else SlotAt(s, i, k)
  {
  }

  lemma UnsubscribeDoes(s: Tables, id: SubscriptionId, slotId: SlotId)
    ensures forall i, k :: SlotAt(Unsubscribe(s, id, slotId), i, k) ==
                           if i == id && k == slotId then None else SlotAt(s, i, k)
  {
    EndsIff(s, id, slotId);
  }

  lemma SubscribeSlots(s: Tables, e: Event)
    requires e.EvSubscribe?
    ensures SlotsFollow(s, e, Subscribe(s, e.rec))
  {
    if s.established && e.rec.topicUri in s.topics {
      AttachDoes(s, s.topics[e.rec.topicUri], e.rec);
    }
    hide SlotAt;
  }

  lemma SubscribedSlots(s: Tables, e: Event)
    requires e.EvSubscribed? && e.request in s.asked
    ensures SlotsFollow(s, e, Subscribed(s, e.request, e.id))
  {
    var rec := s.asked[e.request];
    var topics := if rec.topicUri in s.topics then s.topics else s.topics[rec.topicUri := e.id];
    var s1 := s.(asked := s.asked - {e.request}, topics := topics);
    AttachDoes(s1, e.id, rec);
    assert forall i, k :: SlotAt(s1, i, k) == SlotAt(s, i, k);
    hide SlotAt;
  }

  lemma UnsubscribeSlots(s: Tables, e: Event)
    requires e.EvUnsubscribe? || e.EvUnsubscribeAcknowledged?
    ensures SlotsFollow(s, e, Unsubscribe(s, e.id, e.slotId))
  {
    UnsubscribeDoes(s, e.id, e.slotId);
    hide SlotAt;
  }

  lemma SameSlots(s: Tables, s1: Tables, e: Event)
    requires AddedBy(s, e).None? && s1.nextSlotId == s.nextSlotId
    requires s1.readership == if e.EvEnd? || e.EvTerminate? then map[] else s.readership
    requires !e.EvUnsubscribe? && !e.EvUnsubscribeAcknowledged?
    ensures SlotsFollow(s, e, s1)
  {
  }

  lemma SlotsDo(s: Tables, e: Event, router: Uri -> SubscriptionId)
    requires Enabled(s, e, router)
    ensures SlotsFollow(s, e, Step(s, e, router))
  {
    hide Unsubscribe, Subscribe, Subscribed, Deliveries, HandIn, Answered, AbortWaiting, SlotAt;
    if e.EvSubscribe? {
      SubscribeSlots(s, e);
    } else if e.EvSubscribed? {
      SubscribedSlots(s, e);
    } else if e.EvUnsubscribe? || e.EvUnsubscribeAcknowledged? {
      UnsubscribeSlots(s, e);
      if e.EvUnsubscribeAcknowledged? {
        AcknowledgedSlots(s, e);
      }
    } else {
      SameSlots(s, Step(s, e, router), e);
    }
  }

  lemma AcknowledgedSlots(s: Tables, e: Event)
    requires e.EvUnsubscribeAcknowledged? && SlotsFollow(s, e, Unsubscribe(s, e.id, e.slotId))
    ensures SlotsFollow(s, e, UnsubscribeAcknowledged(s, e.id, e.slotId))
  {
    hide Unsubscribe, HandIn, IsLast;
  }

  lemma TopicsDo(s: Tables, e: Event, router: Uri -> SubscriptionId)
    requires Enabled(s, e, router)
    ensures TopicsFollow(s, e, Step(s, e, router))
  {
    if e.EvUnsubscribe? || e.EvUnsubscribeAcknowledged? {
      EndsIff(s, e.id, e.slotId);
    }
  }

  lemma RequestsDo(s: Tables, e: Event, router: Uri -> SubscriptionId)
    requires Enabled(s, e, router)
    ensures RequestsFollow(s, e, Step(s, e, router))
  {
  }

  lemma AcknowledgedDoes(s: Tables, e: Event)
    requires e.EvUnsubscribeAcknowledged?
    ensures HandlersFollow(s, e, UnsubscribeAcknowledged(s, e.id, e.slotId))
  {
    EndsIff(s, e.id, e.slotId);
    hide Ends, IsLast, Unsubscribe;
  }

  lemma AnsweredDoes(s: Tables, e: Event)
    requires e.EvUnsubscribed? && e.position < |s.handlers.waiting|
    ensures HandlersFollow(s, e, s.(handlers := Answered(s.handlers, e.position, e.accepted)))
  {
    assert s.handlers.told + [] == s.handlers.told;
  }

  lemma AbortDoes(s: Tables, e: Event)
    requires e.EvLost? || e.EvEnd?
    ensures HandlersFollow(s, e, s.(handlers := AbortWaiting(s.handlers)))
  {
    assert s.handlers.told + [] == s.handlers.told;
  }

  lemma HandlersElsewhere(s: Tables, e: Event, router: Uri -> SubscriptionId)
    requires Enabled(s, e, router)
    ensures e.EvSubscribe? || e.EvSubscribed? || e.EvUnsubscribe? || e.EvRefused? || e.EvEvent? || e.EvLeaving? ==>
              Step(s, e, router).handlers == s.handlers
    ensures e.EvLost? || e.EvEnd? ==> Step(s, e, router).handlers == AbortWaiting(s.handlers)
  {
    hide AbortWaiting, UnsubscribeAcknowledged, Answered, Deliveries;
  }

  lemma HandlersDo(s: Tables, e: Event, router: Uri -> SubscriptionId)
    requires Enabled(s, e, router)
    ensures HandlersFollow(s, e, Step(s, e, router))
  {
    match e {
      case EvUnsubscribeAcknowledged(_, _) => AcknowledgedDoes(s, e);
      case EvUnsubscribed(_, _) => AnsweredDoes(s, e);
      case EvLost => AbortDoes(s, e);
      case EvEnd => AbortDoes(s, e);
      case _ =>
    }
    HandlersElsewhere(s, e, router);
    assert s.handlers.told + [] == s.handlers.told;
    hide UnsubscribeAcknowledged, Unsubscribe, Ends, Deliveries, Subscribe, Subscribed, IsLast, Answered;
  }

  lemma DeliveriesDo(s: Tables, e: Event, router: Uri -> SubscriptionId)
    requires Enabled(s, e, router)
    ensures DeliveriesFollow(s, e, Step(s, e, router))
  {
  }

  /** Every step does exactly this. */
  lemma StepFollows(s: Tables, e: Event, router: Uri -> SubscriptionId)
    requires Enabled(s, e, router)
    ensures Follows(s, e, Step(s, e, router))
  {
    SlotsDo(s, e, router);
    TopicsDo(s, e, router);
    RequestsDo(s, e, router);
    HandlersDo(s, e, router);
    DeliveriesDo(s, e, router);
    hide SlotsFollow, TopicsFollow, RequestsFollow, HandlersFollow, DeliveriesFollow, Deliveries, HandIn, Answered,
      AbortWaiting, Attach;
  }

  // ----- What a subscriber hears ----------------------------------------------------------

  /** How often an event comes in a run. */
  function Occurrences(events: seq<Event>, id: SubscriptionId, publication: int): nat
  {
    if events == [] then 0
    else (if events[0] == EvEvent(id, publication) then 1 else 0) + Occurrences(events[1..], id, publication)
  }

  /** Nothing in a run drops the slot. */
  predicate Keeps(events: seq<Event>, id: SubscriptionId, slotId: SlotId)
  {
    forall i :: 0 <= i < |events| ==> !Drops(events[i], id, slotId)
  }

  lemma LiveSlotStep(s: Tables, e: Event, router: Uri -> SubscriptionId, id: SubscriptionId, slotId: SlotId,
                     publication: int)
    requires OneToOne(router) && Agree(s, router) && Enabled(s, e, router)
    requires SlotAt(s, id, slotId).Some? && !Drops(e, id, slotId)
    ensures var s1 := Step(s, e, router);
            && SlotAt(s1, id, slotId) == SlotAt(s, id, slotId)
            && s1.posted[Delivery(slotId, publication)] == s.posted[Delivery(slotId, publication)]
               + if e == EvEvent(id, publication) then 1 else 0
  {
    StepFollows(s, e, router);
    assert SubsFit(s, id, router);
    hide Step, TopicsFollow, RequestsFollow, HandlersFollow;
  }

  /** From any agreement of the tables, a slot that is live stays with its record over any run
      that does not drop it, and every event of its subscription is posted to it as often as it
      comes, and no other. */
  lemma {:induction false} LiveSlotHearsAll(s: Tables, events: seq<Event>, router: Uri -> SubscriptionId,
                                            id: SubscriptionId, slotId: SlotId, publication: int)
    requires OneToOne(router) && Agree(s, router) && CanRun(s, events, router)
    requires SlotAt(s, id, slotId).Some? && Keeps(events, id, slotId)
    ensures var s1 := Run(s, events, router);
            && SlotAt(s1, id, slotId) == SlotAt(s, id, slotId)
            && s1.posted[Delivery(slotId, publication)] == s.posted[Delivery(slotId, publication)]
               + Occurrences(events, id, publication)
    decreases |events|
  {
    if events != [] {
      LiveSlotStep(s, events[0], router, id, slotId, publication);
      StepAgrees(s, events[0], router);
      hide Step, Enabled, Agree, SlotAt, Drops;
      LiveSlotHearsAll(Step(s, events[0], router), events[1..], router, id, slotId, publication);
    }
  }

  /** On every run from the start: a subscription that the router accepts gives its record a slot
      of its own, which then hears every event of the subscription until it is dropped. */
  lemma SubscriberHearsAll(before: seq<Event>, request: nat, id: SubscriptionId, after: seq<Event>,
                           router: Uri -> SubscriptionId, publication: int)
    requires OneToOne(router) && CanRun(EMPTY, before, router)
    requires var s := Run(EMPTY, before, router);
             && Enabled(s, EvSubscribed(request, id), router)
             && CanRun(Step(s, EvSubscribed(request, id), router), after, router)
             && Keeps(after, id, s.nextSlotId)
    ensures var s := Run(EMPTY, before, router);
            var s1 := Run(Step(s, EvSubscribed(request, id), router), after, router);
            && SlotAt(s1, id, s.nextSlotId) == Some(s.asked[request])
            && s1.posted[Delivery(s.nextSlotId, publication)] == s.posted[Delivery(s.nextSlotId, publication)]
               + Occurrences(after, id, publication)
  {
    RunAgrees(EMPTY, before, router);
    var s := Run(EMPTY, before, router);
    hide Run, CanRun;
    var e := EvSubscribed(request, id);
    StepFollows(s, e, router);
    StepAgrees(s, e, router);
    hide Step, Agree;
    LiveSlotHearsAll(Step(s, e, router), after, router, id, s.nextSlotId, publication);
  }
}

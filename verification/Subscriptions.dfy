/** The client's tables of topics and event slots. */
module Subscriptions {

  type Uri = string
  type SubscriptionId = int
  type SlotId = nat

  datatype Record = Record(topicUri: Uri, slot: nat)

  type LocalSubs = map<SlotId, Record>

  /** What the handler of an acknowledged unsubscribe is called with. */
  datatype Answer =
    | Accepted
    | NoSuchSubscription
    | NotEstablished
    | Refused            // by the router
    | Aborted            // the session ended before the router answered

  datatype Told = Told(token: nat, answer: Answer)

  /** The handlers of acknowledged unsubscribes, numbered as they come. */
  datatype Handlers = Handlers(
    terminating: bool,
    handedIn: nat,                          // handlers so far
    waiting: seq<nat>,                      // those whose UNSUBSCRIBE awaits its answer
    told: seq<Told>,                        // every call so far
    dropped: multiset<nat>)                 // let go while terminating

  datatype Delivery = Delivery(slotId: SlotId, publication: int)

  datatype Tables = Tables(
    established: bool,
    topics: map<Uri, SubscriptionId>,
    readership: map<SubscriptionId, LocalSubs>,
    nextSlotId: SlotId,
    asked: map<nat, Record>,                // SUBSCRIBE requests awaiting their answer
    requests: nat,                          // SUBSCRIBE requests issued so far
    dismissed: seq<SubscriptionId>,         // UNSUBSCRIBE requests issued so far
    handlers: Handlers,
    posted: multiset<Delivery>)             // event slots posted so far

  const EMPTY: Tables :=
    Tables(false, map[], map[], 0, map[], 0, [], Handlers(false, 0, [], [], multiset{}), multiset{})

  // ----- Operations -----------------------------------------------------------------------

  /** Puts a record into a new slot of a subscription. */
  function Attach(s: Tables, id: SubscriptionId, rec: Record): Tables
  {
    var subs := if id in s.readership then s.readership[id] else map[];
    s.(readership := s.readership[id := subs[s.nextSlotId := rec]], nextSlotId := s.nextSlotId + 1)
  }

  function Subscribe(s: Tables, rec: Record): Tables
  {
    if !s.established then s
    else if rec.topicUri in s.topics then Attach(s, s.topics[rec.topicUri], rec)
    else s.(asked := s.asked[s.requests := rec], requests := s.requests + 1)
  }

  /** The router accepted a request; an entry that is already there is not overwritten. */
  function Subscribed(s: Tables, request: nat, id: SubscriptionId): Tables
    requires request in s.asked
  {
    var rec := s.asked[request];
    var topics := if rec.topicUri in s.topics then s.topics else s.topics[rec.topicUri := id];
    Attach(s.(asked := s.asked - {request}, topics := topics), id, rec)
  }

  predicate Known(s: Tables, id: SubscriptionId, slotId: SlotId)
  {
    id in s.readership && slotId in s.readership[id]
  }

  predicate IsLast(s: Tables, id: SubscriptionId, slotId: SlotId)
  {
    Known(s, id, slotId) && |s.readership[id]| == 1
  }

  function Unsubscribe(s: Tables, id: SubscriptionId, slotId: SlotId): Tables
  {
    if !Known(s, id, slotId) then s
    else
      var subs := s.readership[id];
      if |subs| == 1 then
        s.(topics := s.topics - {subs[slotId].topicUri},
           readership := s.readership - {id},
           dismissed := if s.established then s.dismissed + [id] else s.dismissed)
      else s.(readership := s.readership[id := subs - {slotId}])
  }

  /** A handler is called, unless the client is terminating. */
  function Tell(h: Handlers, token: nat, answer: Answer): Handlers
  {
    if h.terminating then h.(dropped := h.dropped + multiset{token})
    else h.(told := h.told + [Told(token, answer)])
  }

  /** A handler is handed in to give up a slot. */
  function HandIn(h: Handlers, known: bool, last: bool, established: bool): Handlers
  {
    var h1 := h.(handedIn := h.handedIn + 1);
    if !known then Tell(h1, h.handedIn, NoSuchSubscription)
    else if !last then h1
    else if established then h1.(waiting := h1.waiting + [h.handedIn])
    else Tell(h1, h.handedIn, NotEstablished)
  }

  /** The router answers one of the UNSUBSCRIBE requests that wait for it. */
  function Answered(h: Handlers, i: nat, accepted: bool): Handlers
    requires i < |h.waiting|
  {
    Tell(h.(waiting := h.waiting[..i] + h.waiting[i + 1..]), h.waiting[i], if accepted then Accepted else Refused)
  }

  function Aborts(waiting: seq<nat>): (ts: seq<Told>)
    ensures |ts| == |waiting|
  {
    seq(|waiting|, i requires 0 <= i < |waiting| => Told(waiting[i], Aborted))
  }

  /** Requests that still wait are aborted, or let go while terminating. */
  function AbortWaiting(h: Handlers): Handlers
  {
    if h.terminating then h.(waiting := [], dropped := h.dropped + multiset(h.waiting))
    else h.(waiting := [], told := h.told + Aborts(h.waiting))
  }

  /** The form of unsubscribe that takes a handler. */
  function UnsubscribeAcknowledged(s: Tables, id: SubscriptionId, slotId: SlotId): Tables
  {
    Unsubscribe(s, id, slotId).(
      handlers := HandIn(s.handlers, id in s.readership, IsLast(s, id, slotId), s.established))
  }

  function Disconnected(s: Tables): Tables
  {
    s.(established := false, topics := map[], readership := map[], asked := map[], handlers := AbortWaiting(s.handlers))
  }

  function Deliveries(s: Tables, id: SubscriptionId, publication: int): set<Delivery>
  {
    if id in s.readership then set slotId | slotId in s.readership[id] :: Delivery(slotId, publication) else {}
  }

  datatype Event =
    | EvEstablish
    | EvSubscribe(rec: Record)
    | EvSubscribed(request: nat, id: SubscriptionId)
    | EvRefused(request: nat)
    | EvUnsubscribe(id: SubscriptionId, slotId: SlotId)
    | EvUnsubscribeAcknowledged(id: SubscriptionId, slotId: SlotId)
    | EvUnsubscribed(position: nat, accepted: bool)
    | EvEvent(id: SubscriptionId, publication: int)
    | EvLeaving                   // GOODBYE sent; answers to earlier requests still arrive
    | EvLost                      // the router or a failure ended the session: the tables stay
    | EvEnd                       // left or disconnected: the tables are cleared
    | EvTerminate                 // the same, and no handler is called

  /** The router's map from topics to subscription ids stays the same and is one-to-one. */
  ghost predicate OneToOne(router: Uri -> SubscriptionId)
  {
    forall t, u :: router(t) == router(u) ==> t == u
  }

  predicate Enabled(s: Tables, e: Event, router: Uri -> SubscriptionId)
  {
    match e
    case EvSubscribed(request, id) => request in s.asked && id == router(s.asked[request].topicUri)
    case EvRefused(request) => request in s.asked
    case EvUnsubscribed(position, _) => position < |s.handlers.waiting|
    case _ => true
  }

  function Step(s: Tables, e: Event, router: Uri -> SubscriptionId): Tables
    requires Enabled(s, e, router)
  {
    match e
    case EvEstablish => s.(established := true, handlers := s.handlers.(terminating := false))
    case EvSubscribe(rec) => Subscribe(s, rec)
    case EvSubscribed(request, id) => Subscribed(s, request, id)
    case EvRefused(request) => s.(asked := s.asked - {request})
    case EvUnsubscribe(id, slotId) => Unsubscribe(s, id, slotId)
    case EvUnsubscribeAcknowledged(id, slotId) => UnsubscribeAcknowledged(s, id, slotId)
    case EvUnsubscribed(position, accepted) => s.(handlers := Answered(s.handlers, position, accepted))
    case EvEvent(id, publication) => s.(posted := s.posted + multiset(Deliveries(s, id, publication)))
    case EvLeaving => s.(established := false)
    case EvLost => s.(established := false, asked := map[], handlers := AbortWaiting(s.handlers))
    case EvEnd => Disconnected(s)
    case EvTerminate => Disconnected(s.(handlers := s.handlers.(terminating := true)))
  }

  // ----- Agreement of the tables ----------------------------------------------------------

  /** A subscription has slots, all for one topic that the topic table knows, all numbered
      below the next slot. */
  predicate SubsFit(s: Tables, id: SubscriptionId, router: Uri -> SubscriptionId)
    requires id in s.readership
  {
    && s.readership[id] != map[]
    && forall slotId :: slotId in s.readership[id] ==>
         && slotId < s.nextSlotId
         && s.readership[id][slotId].topicUri in s.topics
         && router(s.readership[id][slotId].topicUri) == id
  }

  ghost predicate SlotsDistinct(readership: map<SubscriptionId, LocalSubs>)
  {
    forall i, j :: i in readership && j in readership && i != j ==> readership[i].Keys !! readership[j].Keys
  }

  ghost predicate Agree(s: Tables, router: Uri -> SubscriptionId)
  {
    && (forall t :: t in s.topics ==> s.topics[t] == router(t) && router(t) in s.readership)
    && (forall id :: id in s.readership ==> SubsFit(s, id, router))
    && SlotsDistinct(s.readership)
  }

  lemma AttachAgrees(s: Tables, rec: Record, router: Uri -> SubscriptionId)
    requires OneToOne(router)
    requires forall t :: t in s.topics && t != rec.topicUri ==> s.topics[t] == router(t) && router(t) in s.readership
    requires rec.topicUri in s.topics && s.topics[rec.topicUri] == router(rec.topicUri)
    requires forall id :: id in s.readership ==> SubsFit(s, id, router)
    requires SlotsDistinct(s.readership)
    ensures Agree(Attach(s, router(rec.topicUri), rec), router)
  {
    var id := router(rec.topicUri);
    var s1 := Attach(s, id, rec);
    forall i | i in s1.readership ensures SubsFit(s1, i, router) {
      if i in s.readership { assert SubsFit(s, i, router); }
      assert i == id ==> s.nextSlotId in s1.readership[i];
    }
    forall i, j | i in s1.readership && j in s1.readership && i != j
      ensures s1.readership[i].Keys !! s1.readership[j].Keys {
      if i in s.readership { assert SubsFit(s, i, router); }
      if j in s.readership { assert SubsFit(s, j, router); }
    }
  }

  lemma OneLeft(subs: LocalSubs, slotId: SlotId)
    requires slotId in subs
    ensures |subs| == 1 <==> subs - {slotId} == map[]
    ensures |subs| == 1 ==> subs.Keys == {slotId}
  {
    assert subs.Keys == {slotId} + (subs - {slotId}).Keys;
    assert |subs.Keys| == 1 + |(subs - {slotId}).Keys|;
  }

  lemma UnsubscribeAgrees(s: Tables, id: SubscriptionId, slotId: SlotId, router: Uri -> SubscriptionId)
    requires OneToOne(router) && Agree(s, router)
    ensures Agree(Unsubscribe(s, id, slotId), router)
  {
    if Known(s, id, slotId) {
      var s1 := Unsubscribe(s, id, slotId);
      var uri := s.readership[id][slotId].topicUri;
      assert SubsFit(s, id, router);
      OneLeft(s.readership[id], slotId);
      forall i | i in s1.readership ensures SubsFit(s1, i, router) {
        assert SubsFit(s, i, router);
      }
      forall t | t in s1.topics ensures s1.topics[t] == router(t) && router(t) in s1.readership {
        assert t in s.topics;
      }
    }
  }

  lemma SubscribedAgrees(s: Tables, request: nat, id: SubscriptionId, router: Uri -> SubscriptionId)
    requires OneToOne(router) && Agree(s, router) && request in s.asked && id == router(s.asked[request].topicUri)
    ensures Agree(Subscribed(s, request, id), router)
  {
    var rec := s.asked[request];
    var topics := if rec.topicUri in s.topics then s.topics else s.topics[rec.topicUri := id];
    var s1 := s.(asked := s.asked - {request}, topics := topics);
    forall i | i in s1.readership ensures SubsFit(s1, i, router) {
      assert SubsFit(s, i, router);
    }
    AttachAgrees(s1, rec, router);
  }

  lemma SubscribeAgrees(s: Tables, rec: Record, router: Uri -> SubscriptionId)
    requires OneToOne(router) && Agree(s, router)
    ensures Agree(Subscribe(s, rec), router)
  {
    if s.established && rec.topicUri in s.topics {
      AttachAgrees(s, rec, router);
    } else {
      SameTables(s, Subscribe(s, rec), router);
    }
    hide Agree, Attach;
  }

  lemma AcknowledgedAgrees(s: Tables, id: SubscriptionId, slotId: SlotId, router: Uri -> SubscriptionId)
    requires OneToOne(router) && Agree(s, router)
    ensures Agree(UnsubscribeAcknowledged(s, id, slotId), router)
  {
    UnsubscribeAgrees(s, id, slotId, router);
    hide Agree, Unsubscribe, IsLast, HandIn;
    SameTables(Unsubscribe(s, id, slotId), UnsubscribeAcknowledged(s, id, slotId), router);
  }

  lemma StepAgrees(s: Tables, e: Event, router: Uri -> SubscriptionId)
    requires OneToOne(router) && Agree(s, router) && Enabled(s, e, router)
    ensures Agree(Step(s, e, router), router)
  {
    hide Agree, Subscribe, Subscribed, Unsubscribe, UnsubscribeAcknowledged, Deliveries, Answered, AbortWaiting;
    match e
    case EvSubscribe(rec) => SubscribeAgrees(s, rec, router);
    case EvSubscribed(request, id) => SubscribedAgrees(s, request, id, router);
    case EvUnsubscribe(id, slotId) => UnsubscribeAgrees(s, id, slotId, router);
    case EvUnsubscribeAcknowledged(id, slotId) => AcknowledgedAgrees(s, id, slotId, router);
    case _ => SameTables(s, Step(s, e, router), router);
  }

  lemma SameTables(s: Tables, s1: Tables, router: Uri -> SubscriptionId)
    requires Agree(s, router) && s1.nextSlotId == s.nextSlotId
    requires (s1.topics == s.topics && s1.readership == s.readership) || (s1.topics == map[] && s1.readership == map[])
    ensures Agree(s1, router)
  {
    forall i | i in s1.readership ensures SubsFit(s1, i, router) {
      assert SubsFit(s, i, router);
    }
  }

  ghost predicate CanRun(s: Tables, events: seq<Event>, router: Uri -> SubscriptionId)
    decreases |events|
  {
    events == [] || (Enabled(s, events[0], router) && CanRun(Step(s, events[0], router), events[1..], router))
  }

  ghost function Run(s: Tables, events: seq<Event>, router: Uri -> SubscriptionId): Tables
    requires CanRun(s, events, router)
    decreases |events|
  {
    if events == [] then s else Run(Step(s, events[0], router), events[1..], router)
  }

  lemma {:induction false} RunAgrees(s: Tables, events: seq<Event>, router: Uri -> SubscriptionId)
    requires OneToOne(router) && Agree(s, router) && CanRun(s, events, router)
    ensures Agree(Run(s, events, router), router)
    decreases |events|
  {
    if events != [] {
      StepAgrees(s, events[0], router);
      hide Agree, Step, Enabled;
      RunAgrees(Step(s, events[0], router), events[1..], router);
    }
  }

  /** On every run: a topic is in the topic table with some id exactly when that id has slots,
      which are all for that topic; no subscription is without slots; slots are never shared. */
  lemma TablesAgree(events: seq<Event>, router: Uri -> SubscriptionId)
    requires OneToOne(router) && CanRun(EMPTY, events, router)
    ensures var s := Run(EMPTY, events, router);
            && (forall t, id :: t in s.topics && s.topics[t] == id <==>
                  id in s.readership && id == router(t)
                  && forall slotId :: slotId in s.readership[id] ==> s.readership[id][slotId].topicUri == t)
            && (forall id :: id in s.readership ==> s.readership[id] != map[])
            && (forall id, slotId :: id in s.readership && slotId in s.readership[id] ==> slotId < s.nextSlotId)
            && SlotsDistinct(s.readership)
  {
    RunAgrees(EMPTY, events, router);
    var s := Run(EMPTY, events, router);
    hide Run, CanRun;
    forall t, id ensures t in s.topics && s.topics[t] == id <==>
                           id in s.readership && id == router(t)
                           && forall slotId :: slotId in s.readership[id] ==> s.readership[id][slotId].topicUri == t {
      if id in s.readership {
        assert SubsFit(s, id, router);
        var slotId :| slotId in s.readership[id];
        assert router(s.readership[id][slotId].topicUri) == id;
      }
    }
    forall id, slotId | id in s.readership && slotId in s.readership[id] ensures slotId < s.nextSlotId {
      assert SubsFit(s, id, router);
    }
  }

  /** An event is posted once for every live slot of its subscription. */
  lemma EventReachesEverySlot(s: Tables, id: SubscriptionId, publication: int, slotId: SlotId)
    ensures multiset(Deliveries(s, id, publication))[Delivery(slotId, publication)]
      == if Known(s, id, slotId) then 1 else 0
  {
  }

  // ----- The client object ----------------------------------------------------------------

  /** The handlers of acknowledged unsubscribes, whether pending with the peer or posted. */
  class HandlerList {
    var terminating: bool
    var handedIn: nat
    var waiting: seq<nat>
    ghost var told: seq<Told>
    ghost var dropped: multiset<nat>

    ghost function State(): Handlers
      reads this
    {
      Handlers(terminating, handedIn, waiting, told, dropped)
    }

    constructor ()
      ensures State() == EMPTY.handlers
    {
      terminating, handedIn, waiting, told, dropped := false, 0, [], [], multiset{};
    }

    method Call(token: nat, answer: Answer)
      modifies this`told, this`dropped
      ensures State() == Tell(old(State()), token, answer)
    {
      if terminating {
        dropped := dropped + multiset{token};
      } else {
        told := told + [Told(token, answer)];
      }
    }

    /** A handler comes; with the last slot of a subscription it waits for the router, if there
        is one to answer. */
    method Add(known: bool, last: bool, established: bool)
      modifies this
      ensures State() == HandIn(old(State()), known, last, established)
    {
      var token := handedIn;
      handedIn := handedIn + 1;
      if !known {
        Call(token, NoSuchSubscription);
      } else if last {
        if established {
          waiting := waiting + [token];
        } else {
          Call(token, NotEstablished);
        }
      }
    }

    method OnUnsubscribed(i: nat, accepted: bool)
      requires i < |waiting|
      modifies this
      ensures State() == Answered(old(State()), i, accepted)
    {
      var token := waiting[i];
      waiting := waiting[..i] + waiting[i + 1..];
      Call(token, if accepted then Accepted else Refused);
    }

    /** The requests that wait are aborted one by one. */
    method AbortAll()
      modifies this
      ensures State() == AbortWaiting(old(State()))
    {
      if terminating {
        dropped := dropped + multiset(waiting);
      } else {
        for i := 0 to |waiting|
          invariant State() == old(State()).(told := old(told) + Aborts(waiting[..i]))
        {
          assert Aborts(waiting[..i + 1]) == Aborts(waiting[..i]) + [Told(waiting[i], Aborted)];
          told := told + [Told(waiting[i], Aborted)];
        }
        assert waiting[..|waiting|] == waiting;
      }
      waiting := [];
    }
  }

  class Client {
    const handlers: HandlerList
    var established: bool
    var topics: map<Uri, SubscriptionId>
    var readership: map<SubscriptionId, LocalSubs>
    var nextSlotId: SlotId
    var asked: map<nat, Record>
    var requests: nat
    var dismissed: seq<SubscriptionId>
    ghost var posted: multiset<Delivery>

    ghost function State(): Tables
      reads this, handlers
    {
      Tables(established, topics, readership, nextSlotId, asked, requests, dismissed, handlers.State(), posted)
    }

    constructor ()
      ensures fresh(handlers) && State() == EMPTY
    {
      handlers := new HandlerList();
      established, topics, readership, nextSlotId := false, map[], map[], 0;
      asked, requests, dismissed, posted := map[], 0, [], multiset{};
    }

    method AddSlot(id: SubscriptionId, rec: Record)
      modifies this
      ensures State() == Attach(old(State()), id, rec)
    {
      var subs: LocalSubs := if id in readership then readership[id] else map[];
      subs := subs[nextSlotId := rec];
      readership := readership[id := subs];
      nextSlotId := nextSlotId + 1;
    }

    method RequestTopic(rec: Record)
      modifies this
      ensures State() == Subscribe(old(State()), rec)
    {
      if !established {
        return;
      }
      if rec.topicUri in topics {
        AddSlot(topics[rec.topicUri], rec);
      } else {
        asked := asked[requests := rec];
        requests := requests + 1;
      }
    }

    method OnSubscribed(request: nat, id: SubscriptionId)
      requires request in asked
      modifies this
      ensures State() == Subscribed(old(State()), request, id)
    {
      var rec := asked[request];
      asked := asked - {request};
      if rec.topicUri !in topics {
        topics := topics[rec.topicUri := id];
      }
      AddSlot(id, rec);
    }

    /** Drops a slot, with the last one both entries. */
    method DropSlot(id: SubscriptionId, slotId: SlotId) returns (last: bool)
      modifies this
      ensures State() == Unsubscribe(old(State()), id, slotId) && last == IsLast(old(State()), id, slotId)
    {
      last := false;
      if id in readership {
        var localSubs := readership[id];
        if slotId in localSubs {
          OneLeft(localSubs, slotId);
          if |localSubs| == 1 {
            topics := topics - {localSubs[slotId].topicUri};
          }
          localSubs := localSubs - {slotId};
          if localSubs == map[] {
            last := true;
            readership := readership - {id};
            if established {
              dismissed := dismissed + [id];
            }
          } else {
            readership := readership[id := localSubs];
          }
        }
      }
    }

    method DropSlotAcknowledged(id: SubscriptionId, slotId: SlotId)
      modifies this, handlers
      ensures State() == UnsubscribeAcknowledged(old(State()), id, slotId)
    {
      var known, last := id in readership, false;
      if known {
        last := DropSlot(id, slotId);
      }
      hide HandIn;
      handlers.Add(known, last, established);
    }

    method Disconnect()
      modifies this, handlers
      ensures State() == Disconnected(old(State()))
    {
      topics, readership, asked := map[], map[], map[];
      established := false;
      hide AbortWaiting;
      handlers.AbortAll();
    }

    /** Posts an event to each slot in turn. */
    method OnEvent(id: SubscriptionId, publication: int)
      modifies this`posted
      ensures State() == old(State()).(posted := old(posted) + multiset(Deliveries(old(State()), id, publication)))
    {
      if id in readership {
        var left := readership[id].Keys;
        ghost var done: set<Delivery> := {};
        while left != {}
          invariant left <= readership[id].Keys
          invariant done == set slotId | slotId in readership[id] && slotId !in left :: Delivery(slotId, publication)
          invariant posted == old(posted) + multiset(done)
          decreases left
        {
          var slotId :| slotId in left;
          posted := posted + multiset{Delivery(slotId, publication)};
          done := done + {Delivery(slotId, publication)};
          left := left - {slotId};
        }
        assert done == Deliveries(State(), id, publication);
      }
    }
  }
}

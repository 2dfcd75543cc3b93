/** What becomes of each call timeout: its fate after every event, and over whole runs. */
module TimeoutEffects {
  import opened CallerTimeout

  /** Where the record of a request is. */
  datatype Fate = Unknown | Pending(deadline: Time) | Fired | TakenOut | Lost

  ghost function FateOf(s: Scheduler, rid: RequestId): Fate
    requires Sound(s)
  {
    if rid in Rids(s.deadlines) then
      RidsAreMembers(s.deadlines);
      Pending(s.known[rid])
    else if rid in FiredIds(s.fired) then Fired
    else if rid in s.removed then TakenOut
    else if rid in s.lost then Lost
    else Unknown
  }

  // ----- One event ------------------------------------------------------------------------

  /** A completion for the earliest record is delivered. */
  ghost predicate Reaches(s: Scheduler, e: Event, rid: RequestId)
    requires Enabled(s, e)
  {
    e.EvDeliver? && s.deadlines != [] && s.deadlines[0].rid == rid && s.timer.ready[e.index].rid == rid
  }

  /** The completion was not aborted and somebody listens. */
  ghost predicate Fires(s: Scheduler, e: Event)
    requires Enabled(s, e)
  {
    e.EvDeliver? && !s.timer.ready[e.index].aborted && s.listening
  }

  /** A new timeout is due after its time, unless some other one is pending for the very same
      moment, when it is lost at once; a pending one ends when it is taken out, or when a
      completion for it is delivered while it is the earliest. */
  ghost function FateAfter(s: Scheduler, e: Event, rid: RequestId): Fate
    requires Sound(s) && Enabled(s, e)
  {
    if e.EvAdd? && e.rid == rid then
      if exists other :: FateOf(s, other) == Pending(s.now + e.timeout) then Lost else Pending(s.now + e.timeout)
    else if FateOf(s, rid).Pending? && (e.EvClear? || e == EvRemove(rid)) then TakenOut
    else if Reaches(s, e, rid) then if Fires(s, e) then Fired else Lost
    else FateOf(s, rid)
  }

  lemma PendingRecord(s: Scheduler, rid: RequestId, deadline: Time)
    requires Sound(s)
    ensures FateOf(s, rid) == Pending(deadline) <==> Record(deadline, rid) in s.deadlines
  {
    RidsAreMembers(s.deadlines);
  }

  lemma PendingDeadlines(s: Scheduler, deadline: Time)
    requires Sound(s)
    ensures (exists other :: FateOf(s, other) == Pending(deadline)) <==> HasDeadline(s.deadlines, deadline)
  {
    if HasDeadline(s.deadlines, deadline) {
      var i :| 0 <= i < |s.deadlines| && s.deadlines[i].deadline == deadline;
      PendingRecord(s, s.deadlines[i].rid, deadline);
      assert s.deadlines[i] == Record(deadline, s.deadlines[i].rid);
    }
    if other :| FateOf(s, other) == Pending(deadline) {
      PendingRecord(s, other, deadline);
      var i :| 0 <= i < |s.deadlines| && s.deadlines[i] == Record(deadline, other);
    }
  }

  lemma AddedTables(s: Scheduler, timeout: Time, rid: RequestId)
    ensures var s1, rec := Add(s, timeout, rid), Record(s.now + timeout, rid);
            && s1.deadlines == Insert(s.deadlines, rec) && s1.known == s.known[rid := rec.deadline]
            && s1.fired == s.fired && s1.removed == s.removed
            && s1.lost == if HasDeadline(s.deadlines, rec.deadline) then s.lost + {rid} else s.lost
  {
    hide Insert, HasDeadline;
  }

  lemma AddedRids(s: Scheduler, rec: Record, rid: RequestId)
    requires Ascending(s.deadlines)
    ensures rid in Rids(Insert(s.deadlines, rec)) <==>
            rid in Rids(s.deadlines) || (rid == rec.rid && !HasDeadline(s.deadlines, rec.deadline))
  {
    InsertInOrder(s.deadlines, rec);
    RidsAreMembers(s.deadlines);
    RidsAreMembers(Insert(s.deadlines, rec));
    hide Insert, HasDeadline, Ascending, Rids;
    assert rec in Insert(s.deadlines, rec) <==> rec in s.deadlines || !HasDeadline(s.deadlines, rec.deadline);
  }

  lemma NewIsNowhere(s: Scheduler, rid: RequestId)
    requires Sound(s) && rid !in s.known
    ensures rid !in Rids(s.deadlines) && rid !in FiredIds(s.fired) && rid !in s.removed && rid !in s.lost
  {
    assert rid !in s.known.Keys;
  }

  lemma AddFollows(s: Scheduler, e: Event, rid: RequestId)
    requires Sound(s) && Enabled(s, e) && e.EvAdd? && Sound(Add(s, e.timeout, e.rid))
    ensures FateOf(Add(s, e.timeout, e.rid), rid) == FateAfter(s, e, rid)
  {
    var rec := Record(s.now + e.timeout, e.rid);
    AddedTables(s, e.timeout, e.rid);
    PendingDeadlines(s, rec.deadline);
    assert Ascending(s.deadlines);
    AddedRids(s, rec, rid);
    NewIsNowhere(s, e.rid);
    KnownOrUnknown(s, rid);
    hide Insert, HasDeadline, Ascending, Sound, Add, Rids, FiredIds;
    assert !Reaches(s, e, rid);
  }

  lemma KnownOrUnknown(s: Scheduler, rid: RequestId)
    requires Sound(s)
    ensures rid in Rids(s.deadlines) ==> rid in s.known
  {
    RidsAreMembers(s.deadlines);
  }

  lemma RemoveFollows(s: Scheduler, e: Event, rid: RequestId)
    requires Sound(s) && Enabled(s, e) && e.EvRemove? && Sound(Step(s, e))
    ensures FateOf(Step(s, e), rid) == FateAfter(s, e, rid)
  {
    RidsDistinct(s);
    EraseInOrder(s.deadlines, e.rid);
    RidsAreMembers(s.deadlines);
    RidsAreMembers(Erase(s.deadlines, e.rid));
    hide Erase, Ascending, TimerTruthful, FiringsTimely, NotStalled;
  }

  lemma ClearFollows(s: Scheduler, e: Event, rid: RequestId)
    requires Sound(s) && e.EvClear? && Sound(Step(s, e))
    ensures FateOf(Step(s, e), rid) == FateAfter(s, e, rid)
  {
    RidsAreMembers(s.deadlines);
    hide Ascending, TimerTruthful, FiringsTimely, NotStalled;
  }

  lemma DeliveredTables(s: Scheduler, e: Event)
    requires Enabled(s, e) && e.EvDeliver?
    ensures var s1, reached := Step(s, e), s.deadlines != [] && Reaches(s, e, s.deadlines[0].rid);
            && s1.deadlines == (if reached then s.deadlines[1..] else s.deadlines)
            && s1.known == s.known && s1.removed == s.removed
            && s1.fired == (if reached && Fires(s, e) then s.fired + [Firing(s.deadlines[0].rid, s.now)] else s.fired)
            && s1.lost == if reached && !Fires(s, e) then s.lost + {s.deadlines[0].rid} else s.lost
  {
  }

  /** The earliest record has fired, or else it is lost. */
  lemma ReachedFate(s: Scheduler, s1: Scheduler, fires: bool, rid: RequestId)
    requires Sound(s) && Sound(s1) && s.deadlines != [] && s1.deadlines == s.deadlines[1..]
    requires s1.known == s.known && s1.removed == s.removed
    requires s1.fired == if fires then s.fired + [Firing(s.deadlines[0].rid, s.now)] else s.fired
    requires s1.lost == if fires then s.lost else s.lost + {s.deadlines[0].rid}
    ensures FateOf(s1, rid) ==
            if rid == s.deadlines[0].rid then if fires then Fired else Lost else FateOf(s, rid)
  {
    TopErased(s);
    FiredAppend(s.fired, Firing(s.deadlines[0].rid, s.now));
    EarliestIsPending(s);
    hide Sound, Rids, FiredIds;
  }

  lemma DeliverFollows(s: Scheduler, e: Event, rid: RequestId)
    requires Sound(s) && Enabled(s, e) && e.EvDeliver? && Sound(Step(s, e))
    ensures FateOf(Step(s, e), rid) == FateAfter(s, e, rid)
  {
    DeliveredTables(s, e);
    hide Step, Rids, FiredIds, Fires, Enabled;
    if s.deadlines != [] && Reaches(s, e, s.deadlines[0].rid) {
      ReachedFate(s, Step(s, e), Fires(s, e), rid);
    }
    hide Sound;
  }

  lemma EarliestIsPending(s: Scheduler)
    requires Sound(s) && s.deadlines != []
    ensures var rid := s.deadlines[0].rid;
            rid in Rids(s.deadlines) && rid !in FiredIds(s.fired) && rid !in s.removed && rid !in s.lost
  {
    TopErased(s);
  }

  /** After every event each request has exactly the fate that the event calls for. */
  lemma FateFollows(s: Scheduler, e: Event, rid: RequestId)
    requires Sound(s) && Enabled(s, e)
    ensures Sound(Step(s, e)) && FateOf(Step(s, e), rid) == FateAfter(s, e, rid)
  {
    StepKeepsSound(s, e);
    match e
    case EvAdd(_, _) => AddFollows(s, e, rid);
    case EvRemove(_) => RemoveFollows(s, e, rid);
    case EvClear => ClearFollows(s, e, rid);
    case EvDeliver(_) => DeliverFollows(s, e, rid);
    case _ =>
  }

  /** The handler is called exactly when a completion reaches its record, was not aborted and
      somebody listens; the call bears the id of the record and the time on the clock. */
  lemma FiringsFollow(s: Scheduler, e: Event)
    requires Enabled(s, e)
    ensures var s1 := Step(s, e);
            && s1.fired == s.fired
               + (if s.deadlines != [] && Reaches(s, e, s.deadlines[0].rid) && Fires(s, e)
                  then [Firing(s.deadlines[0].rid, s.now)] else [])
            && s1.now == s.now + (if e.EvAdvance? then e.elapsed else 0)
            && s1.listening == (e.EvListen? || (s.listening && !e.EvClear?))
  {
    assert s.fired + [] == s.fired;
    hide Insert, Erase, HasDeadline, Rids;
  }

  // ----- Whole runs -----------------------------------------------------------------------

  predicate TakesOut(events: seq<Event>, rid: RequestId)
  {
    EvClear in events || EvRemove(rid) in events
  }

  lemma KnownStays(s: Scheduler, e: Event, rid: RequestId)
    requires Enabled(s, e) && rid in s.known
    ensures rid in Step(s, e).known && Step(s, e).known[rid] == s.known[rid]
  {
  }

  lemma {:induction false} PendingFate(s: Scheduler, events: seq<Event>, rid: RequestId, deadline: Time)
    requires Sound(s) && CanRun(s, events) && rid in s.known && s.known[rid] == deadline
    ensures Sound(Run(s, events))
    ensures rid in Run(s, events).known && Run(s, events).known[rid] == deadline
    ensures var fate := FateOf(Run(s, events), rid);
            && (FateOf(s, rid) == Pending(deadline) ==> fate != Unknown)
            && (fate.Pending? ==> FateOf(s, rid) == fate && !TakesOut(events, rid))
            && (fate.TakenOut? ==> FateOf(s, rid).TakenOut? || TakesOut(events, rid))
            && (!FateOf(s, rid).Pending? && FateOf(s, rid) != Unknown ==> fate == FateOf(s, rid))
    decreases |events|
  {
    if events != [] {
      var e := events[0];
      FateFollows(s, e, rid);
      KnownStays(s, e, rid);
      PendingFate(Step(s, e), events[1..], rid, deadline);
      assert events == [e] + events[1..];
      KnownRid(s, rid);
      hide Step, Enabled, Sound, FateOf;
    }
  }

  lemma KnownRid(s: Scheduler, rid: RequestId)
    requires Sound(s) && rid in s.known
    ensures FateOf(s, rid) != Unknown
    ensures FateOf(s, rid).Pending? ==> FateOf(s, rid) == Pending(s.known[rid])
    ensures s.deadlines != [] && s.deadlines[0].rid == rid ==> FateOf(s, rid).Pending?
  {
    assert rid in s.known.Keys;
  }

  /** On every run: a timeout is set, and anything happens after. If another one is pending for
      the same moment it is lost at once. If not, then as long as it is neither removed nor
      cleared it stays pending for the time it was set until it fires, no earlier than that, or
      is lost; and it is taken out only if it was removed or cleared. */
  lemma TimeoutSet(start: Time, before: seq<Event>, timeout: Time, rid: RequestId, after: seq<Event>)
    requires CanRun(Idle(start), before)
    requires var s := Run(Idle(start), before);
             Enabled(s, EvAdd(timeout, rid)) && CanRun(Step(s, EvAdd(timeout, rid)), after)
    ensures Sound(Run(Idle(start), before))
    ensures var s := Run(Idle(start), before);
            var s1 := Run(Step(s, EvAdd(timeout, rid)), after);
            && Sound(s1)
            && var deadline, fate := s.now + timeout, FateOf(s1, rid);
            if exists other :: FateOf(s, other) == Pending(deadline) then fate == Lost
            else match fate
                 case Unknown => false
                 case Pending(d) => d == deadline && !TakesOut(after, rid)
                 case Fired => forall f :: f in s1.fired && f.rid == rid ==> deadline <= f.at <= s1.now
                 case TakenOut => TakesOut(after, rid)
                 case Lost => true
  {
    RunKeepsSound(Idle(start), before);
    var s := Run(Idle(start), before);
    var e := EvAdd(timeout, rid);
    FateFollows(s, e, rid);
    var s0 := Step(s, e);
    assert rid in s0.known && s0.known[rid] == s.now + timeout;
    PendingFate(s0, after, rid, s.now + timeout);
    assert FiringsTimely(Run(s0, after));
    hide Run, CanRun, Step, Enabled, FateOf;
  }

  /** Once cleared, the handler is not called until it is installed again. */
  lemma {:induction false} ClearedIsSilent(s: Scheduler, events: seq<Event>)
    requires !s.listening && CanRun(s, events) && EvListen !in events
    ensures Run(s, events).fired == s.fired && !Run(s, events).listening
    decreases |events|
  {
    if events != [] {
      FiringsFollow(s, events[0]);
      hide Step, Enabled;
      ClearedIsSilent(Step(s, events[0]), events[1..]);
    }
  }
}

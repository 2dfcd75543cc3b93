/** The scheduler of call timeouts: an ordered set of deadlines, one timer, and completions
    that arrive late and perhaps aborted. */
module CallerTimeout {

  type RequestId = int
  type Time = int

  datatype Record = Record(deadline: Time, rid: RequestId)

  /** A completion of the timer that is queued but not delivered yet. */
  datatype Completion = Completion(aborted: bool, rid: RequestId)

  /** A call of the timeout handler. */
  datatype Firing = Firing(rid: RequestId, at: Time)

  /** One steady timer: its expiry, the waits that are pending on it and their queued
      completions. */
  datatype Timer = Timer(expiry: Time, waiting: seq<RequestId>, ready: seq<Completion>)

  /** The scheduler, its clock, and what became of every record so far. */
  datatype Scheduler = Scheduler(
    now: Time,
    deadlines: seq<Record>,               // an ordered set: ascending by deadline
    timer: Timer,
    listening: bool,                      // a timeout handler is installed
    known: map<RequestId, Time>,          // the deadline of every record ever added
    fired: seq<Firing>,
    removed: set<RequestId>,              // taken out by remove or clear
    lost: set<RequestId>)                 // neither pending, nor fired, nor taken out

  function Idle(now: Time): Scheduler
  {
    Scheduler(now, [], Timer(now, [], []), false, map[], [], {}, {})
  }

  // ----- The timer ------------------------------------------------------------------------

  function Completions(rids: seq<RequestId>, aborted: bool): (cs: seq<Completion>)
    ensures |cs| == |rids| && forall i :: 0 <= i < |cs| ==> cs[i] == Completion(aborted, rids[i])
  {
    seq(|rids|, i requires 0 <= i < |rids| => Completion(aborted, rids[i]))
  }

  function Cancel(t: Timer): Timer
  {
    t.(waiting := [], ready := t.ready + Completions(t.waiting, true))
  }

  function ExpiresAt(t: Timer, expiry: Time): Timer
  {
    Cancel(t).(expiry := expiry)
  }

  function AsyncWait(t: Timer, rid: RequestId): Timer
  {
    t.(waiting := t.waiting + [rid])
  }

  function Expire(t: Timer): Timer
  {
    t.(waiting := [], ready := t.ready + Completions(t.waiting, false))
  }

  predicate Outstanding(t: Timer)
  {
    t.waiting != [] || t.ready != []
  }

  // ----- The ordered set ------------------------------------------------------------------

  ghost predicate Ascending(d: seq<Record>)
  {
    forall i, j :: 0 <= i < j < |d| ==> d[i].deadline < d[j].deadline
  }

  predicate HasDeadline(d: seq<Record>, deadline: Time)
  {
    exists i :: 0 <= i < |d| && d[i].deadline == deadline
  }

  /** Insertion by deadline; a record whose deadline is already there is not inserted. */
  function Insert(d: seq<Record>, rec: Record): seq<Record>
  {
    if d == [] || rec.deadline < d[0].deadline then [rec] + d
    else if rec.deadline == d[0].deadline then d
    else [d[0]] + Insert(d[1..], rec)
  }

  /** Erasure of the first record with an id. */
  function Erase(d: seq<Record>, rid: RequestId): seq<Record>
  {
    if d == [] then [] else if d[0].rid == rid then d[1..] else [d[0]] + Erase(d[1..], rid)
  }

  ghost function Rids(d: seq<Record>): set<RequestId>
  {
    set i | 0 <= i < |d| :: d[i].rid
  }

  // ----- Operations -----------------------------------------------------------------------

  function ProcessNextDeadline(s: Scheduler): Scheduler
    requires s.deadlines != []
  {
    var top := s.deadlines[0];
    s.(timer := AsyncWait(ExpiresAt(s.timer, top.deadline), top.rid))
  }

  /** Addition before the timer is touched. */
  ghost function Inserted(s: Scheduler, rec: Record): Scheduler
  {
    s.(deadlines := Insert(s.deadlines, rec),
       known := s.known[rec.rid := rec.deadline],
       lost := if HasDeadline(s.deadlines, rec.deadline) then s.lost + {rec.rid} else s.lost)
  }

  ghost function Add(s: Scheduler, timeout: Time, rid: RequestId): Scheduler
  {
    var rec := Record(s.now + timeout, rid);
    var s1 := Inserted(s, rec);
    if s.deadlines == [] then ProcessNextDeadline(s1)
    else if rec.deadline < s.deadlines[0].deadline then s1.(timer := Cancel(s1.timer))
    else s1
  }

  ghost function Remove(s: Scheduler, rid: RequestId): Scheduler
  {
    if s.deadlines == [] then s
    else
      var s1 := s.(deadlines := Erase(s.deadlines, rid),
                   removed := s.removed + (Rids(s.deadlines) - Rids(Erase(s.deadlines, rid))));
      if s.deadlines[0].rid == rid then s1.(timer := Cancel(s1.timer)) else s1
  }

  ghost function Clear(s: Scheduler): Scheduler
  {
    s.(listening := false, deadlines := [], timer := Cancel(s.timer), removed := s.removed + Rids(s.deadlines))
  }

  function OnTimer(s: Scheduler, aborted: bool, rid: RequestId): Scheduler
  {
    if s.deadlines == [] then s
    else
      var top := s.deadlines[0];
      var s1 :=
        if top.rid != rid then s
        else if !aborted && s.listening
        then s.(deadlines := s.deadlines[1..], fired := s.fired + [Firing(rid, s.now)])
        else s.(deadlines := s.deadlines[1..], lost := s.lost + {rid});
      if s1.deadlines != [] then ProcessNextDeadline(s1) else s1
  }

  datatype Event =
    | EvListen
    | EvAdd(timeout: Time, rid: RequestId)
    | EvRemove(rid: RequestId)
    | EvClear
    | EvAdvance(elapsed: nat)     // the clock moves on
    | EvExpire                    // the timer expires
    | EvDeliver(index: nat)       // some queued completion is delivered

  /** Request ids are never used twice, the timer never expires early; otherwise anything goes. */
  predicate Enabled(s: Scheduler, e: Event)
  {
    match e
    case EvAdd(_, rid) => rid !in s.known
    case EvExpire => s.timer.waiting != [] && s.timer.expiry <= s.now
    case EvDeliver(i) => i < |s.timer.ready|
    case _ => true
  }

  function Deliver(s: Scheduler, i: nat): Scheduler
    requires i < |s.timer.ready|
  {
    var c := s.timer.ready[i];
    OnTimer(s.(timer := s.timer.(ready := s.timer.ready[..i] + s.timer.ready[i + 1..])), c.aborted, c.rid)
  }

  ghost function Step(s: Scheduler, e: Event): Scheduler
    requires Enabled(s, e)
  {
    match e
    case EvListen => s.(listening := true)
    case EvAdd(timeout, rid) => Add(s, timeout, rid)
    case EvRemove(rid) => Remove(s, rid)
    case EvClear => Clear(s)
    case EvAdvance(elapsed) => s.(now := s.now + elapsed)
    case EvExpire => s.(timer := Expire(s.timer))
    case EvDeliver(i) => Deliver(s, i)
  }

  ghost predicate CanRun(s: Scheduler, events: seq<Event>)
    decreases |events|
  {
    events == [] || (Enabled(s, events[0]) && CanRun(Step(s, events[0]), events[1..]))
  }

  ghost function Run(s: Scheduler, events: seq<Event>): Scheduler
    requires CanRun(s, events)
    decreases |events|
  {
    if events == [] then s else Run(Step(s, events[0]), events[1..])
  }

  // ----- Lemmas about the ordered set -----------------------------------------------------

  lemma TailMembers(d: seq<Record>)
    requires d != []
    ensures forall r :: r in d <==> r == d[0] || r in d[1..]
    ensures Ascending(d) <==> Ascending(d[1..]) && forall r :: r in d[1..] ==> d[0].deadline < r.deadline
  {
    assert d == [d[0]] + d[1..];
    if Ascending(d) {
      forall r | r in d[1..] ensures d[0].deadline < r.deadline {
        var i :| 0 <= i < |d[1..]| && d[1..][i] == r;
        assert d[i + 1] == r;
      }
    }
    if Ascending(d[1..]) && forall r :: r in d[1..] ==> d[0].deadline < r.deadline {
      forall i, j | 0 <= i < j < |d| ensures d[i].deadline < d[j].deadline {
        assert d[j] == d[1..][j - 1];
        if i > 0 { assert d[i] == d[1..][i - 1]; }
      }
    }
  }

  lemma {:induction false} InsertInOrder(d: seq<Record>, rec: Record)
    requires Ascending(d)
    ensures Ascending(Insert(d, rec))
    ensures forall r :: r in Insert(d, rec) <==> r in d || (r == rec && !HasDeadline(d, rec.deadline))
    ensures Insert(d, rec) != []
    ensures Insert(d, rec)[0] == if d == [] || rec.deadline < d[0].deadline then rec else d[0]
  {
    var e := Insert(d, rec);
    TailMembers(e);
    if d == [] {
      assert e[1..] == [];
    } else {
      TailMembers(d);
      if rec.deadline < d[0].deadline {
        assert e[1..] == d;
        assert !HasDeadline(d, rec.deadline);
      } else if rec.deadline > d[0].deadline {
        assert e[1..] == Insert(d[1..], rec);
        InsertInOrder(d[1..], rec);
        TailDeadline(d, rec.deadline);
        hide Ascending, HasDeadline;
      }
    }
  }

  lemma TailDeadline(d: seq<Record>, deadline: Time)
    requires d != [] && d[0].deadline != deadline
    ensures HasDeadline(d, deadline) <==> HasDeadline(d[1..], deadline)
  {
    if HasDeadline(d, deadline) {
      var i :| 0 <= i < |d| && d[i].deadline == deadline;
      assert d[1..][i - 1] == d[i];
    }
    if HasDeadline(d[1..], deadline) {
      var i :| 0 <= i < |d[1..]| && d[1..][i].deadline == deadline;
      assert d[i + 1] == d[1..][i];
    }
  }

  lemma {:induction false} EraseInOrder(d: seq<Record>, rid: RequestId)
    requires Ascending(d)
    requires forall i, j :: 0 <= i < j < |d| ==> d[i].rid != d[j].rid
    ensures Ascending(Erase(d, rid))
    ensures forall r :: r in Erase(d, rid) <==> r in d && r.rid != rid
  {
    if d != [] {
      TailMembers(d);
      if d[0].rid == rid {
        forall r | r in d[1..] ensures r.rid != rid {
          var i :| 0 <= i < |d[1..]| && d[1..][i] == r;
          assert d[i + 1] == r;
        }
      } else {
        EraseInOrder(d[1..], rid);
        var e := Erase(d, rid);
        assert e[1..] == Erase(d[1..], rid);
        TailMembers(e);
        hide Ascending;
      }
    }
  }

  lemma {:induction false} EraseFound(d: seq<Record>, i: nat, rid: RequestId)
    requires i < |d| && d[i].rid == rid && forall j :: 0 <= j < i ==> d[j].rid != rid
    ensures Erase(d, rid) == d[..i] + d[i + 1..]
  {
    if i > 0 {
      EraseFound(d[1..], i - 1, rid);
    }
  }

  lemma {:induction false} EraseAbsent(d: seq<Record>, rid: RequestId)
    requires forall j :: 0 <= j < |d| ==> d[j].rid != rid
    ensures Erase(d, rid) == d
  {
    if d != [] {
      EraseAbsent(d[1..], rid);
    }
  }

  lemma RidsAreMembers(d: seq<Record>)
    ensures forall rid :: rid in Rids(d) <==> exists r :: r in d && r.rid == rid
  {
    forall r | r in d ensures r.rid in Rids(d) {
      var i :| 0 <= i < |d| && d[i] == r;
    }
  }

  // ----- What every run keeps -------------------------------------------------------------

  ghost predicate RecordsKnown(s: Scheduler)
  {
    Ascending(s.deadlines) &&
    forall r :: r in s.deadlines ==> r.rid in s.known && s.known[r.rid] == r.deadline
  }

  /** A pending wait is for its record's deadline; a completion that was not aborted comes no
      earlier than that. */
  ghost predicate TimerTruthful(s: Scheduler)
  {
    && (forall rid :: rid in s.timer.waiting ==> rid in s.known && s.known[rid] == s.timer.expiry)
    && (forall c :: c in s.timer.ready ==> c.rid in s.known && (c.aborted || s.known[c.rid] <= s.now))
  }

  ghost function FiredIds(fired: seq<Firing>): set<RequestId>
  {
    set i | 0 <= i < |fired| :: fired[i].rid
  }

  ghost predicate FiringsTimely(s: Scheduler)
  {
    && (forall f :: f in s.fired ==> f.rid in s.known && s.known[f.rid] <= f.at <= s.now)
    && (forall i, j :: 0 <= i < j < |s.fired| ==> s.fired[i].rid != s.fired[j].rid)
  }

  /** Every record ever added is in exactly one place: pending, fired, taken out or lost. */
  ghost predicate Accounted(s: Scheduler)
  {
    && s.known.Keys == Rids(s.deadlines) + FiredIds(s.fired) + s.removed + s.lost
    && Rids(s.deadlines) !! FiredIds(s.fired) !! s.removed !! s.lost
  }

  /** A pending record has a wait or a queued completion that will get to it. */
  ghost predicate NotStalled(s: Scheduler)
  {
    s.deadlines != [] ==> Outstanding(s.timer)
  }

  ghost predicate Sound(s: Scheduler)
  {
    RecordsKnown(s) && TimerTruthful(s) && FiringsTimely(s) && Accounted(s) && NotStalled(s)
  }

  lemma RidsDistinct(s: Scheduler)
    requires RecordsKnown(s)
    ensures forall i, j :: 0 <= i < j < |s.deadlines| ==> s.deadlines[i].rid != s.deadlines[j].rid
  {
    forall i, j | 0 <= i < j < |s.deadlines| ensures s.deadlines[i].rid != s.deadlines[j].rid {
      assert s.deadlines[i] in s.deadlines && s.deadlines[j] in s.deadlines;
    }
  }

  lemma TopErased(s: Scheduler)
    requires RecordsKnown(s) && s.deadlines != []
    ensures Rids(s.deadlines[1..]) == Rids(s.deadlines) - {s.deadlines[0].rid}
    ensures s.deadlines[0].rid in Rids(s.deadlines)
    ensures RecordsKnown(s.(deadlines := s.deadlines[1..]))
  {
    RidsDistinct(s);
    RidsAreMembers(s.deadlines);
    RidsAreMembers(s.deadlines[1..]);
    assert s.deadlines == [s.deadlines[0]] + s.deadlines[1..];
    forall r | r in s.deadlines[1..] ensures r.rid != s.deadlines[0].rid {
      var i :| 0 <= i < |s.deadlines[1..]| && s.deadlines[1..][i] == r;
      assert s.deadlines[i + 1] == r;
    }
  }

  lemma CancelKeeps(s: Scheduler)
    requires TimerTruthful(s)
    ensures TimerTruthful(s.(timer := Cancel(s.timer)))
    ensures Outstanding(s.timer) ==> Outstanding(Cancel(s.timer))
  {
  }

  lemma ProcessNextKeeps(s: Scheduler)
    requires RecordsKnown(s) && TimerTruthful(s) && s.deadlines != []
    ensures TimerTruthful(ProcessNextDeadline(s)) && NotStalled(ProcessNextDeadline(s))
  {
    CancelKeeps(s);
    assert s.deadlines[0] in s.deadlines;
  }

  lemma InsertedAccounted(s: Scheduler, rec: Record)
    requires Accounted(s) && Ascending(s.deadlines) && rec.rid !in s.known
    ensures Accounted(Inserted(s, rec))
  {
    InsertInOrder(s.deadlines, rec);
    var s1 := Inserted(s, rec);
    RidsAreMembers(s.deadlines);
    RidsAreMembers(s1.deadlines);
    var added := if HasDeadline(s.deadlines, rec.deadline) then {} else {rec.rid};
    assert Rids(s1.deadlines) == Rids(s.deadlines) + added by {
      if !HasDeadline(s.deadlines, rec.deadline) { assert rec in s1.deadlines; }
    }
    hide Rids, FiredIds, HasDeadline, Insert, Ascending;
    assert s1.known.Keys == s.known.Keys + {rec.rid};
  }

  lemma InsertedKeeps(s: Scheduler, rec: Record)
    requires RecordsKnown(s) && TimerTruthful(s) && FiringsTimely(s) && rec.rid !in s.known
    ensures var s1 := Inserted(s, rec); RecordsKnown(s1) && TimerTruthful(s1) && FiringsTimely(s1)
  {
    InsertInOrder(s.deadlines, rec);
    hide Insert, Ascending, HasDeadline;
  }

  lemma TimerIsSeparate(s: Scheduler, timer: Timer)
    requires RecordsKnown(s) && FiringsTimely(s) && Accounted(s)
    ensures var s1 := s.(timer := timer); RecordsKnown(s1) && FiringsTimely(s1) && Accounted(s1)
  {
  }

  lemma AddKeeps(s: Scheduler, timeout: Time, rid: RequestId)
    requires Sound(s) && rid !in s.known
    ensures Sound(Add(s, timeout, rid))
  {
    var rec := Record(s.now + timeout, rid);
    var s1 := Inserted(s, rec);
    InsertedKeeps(s, rec);
    InsertedAccounted(s, rec);
    InsertInOrder(s.deadlines, rec);
    assert s1.deadlines != [] && s1.timer == s.timer;
    hide Inserted, RecordsKnown, Accounted, FiringsTimely, TimerTruthful, Insert, HasDeadline, Ascending;
    CancelKeeps(s1);
    ProcessNextKeeps(s1);
    var s2 := Add(s, timeout, rid);
    TimerIsSeparate(s1, s2.timer);
    assert s2 == s1.(timer := s2.timer);
  }

  /** Removal before the timer is touched. */
  ghost function Erased(s: Scheduler, rid: RequestId): Scheduler
  {
    s.(deadlines := Erase(s.deadlines, rid),
       removed := s.removed + (Rids(s.deadlines) - Rids(Erase(s.deadlines, rid))))
  }

  lemma ErasedKeeps(s: Scheduler, rid: RequestId)
    requires RecordsKnown(s) && FiringsTimely(s) && Accounted(s)
    ensures var s1 := Erased(s, rid); RecordsKnown(s1) && FiringsTimely(s1) && Accounted(s1)
    ensures Rids(Erase(s.deadlines, rid)) == Rids(s.deadlines) - {rid}
  {
    RidsDistinct(s);
    EraseInOrder(s.deadlines, rid);
    RidsAreMembers(s.deadlines);
    RidsAreMembers(Erase(s.deadlines, rid));
    hide Erase, Rids, Ascending, FiredIds;
  }

  lemma RemoveKeeps(s: Scheduler, rid: RequestId)
    requires Sound(s)
    ensures Sound(Remove(s, rid))
    ensures Rids(Remove(s, rid).deadlines) == Rids(s.deadlines) - {rid}
  {
    if s.deadlines != [] {
      ErasedKeeps(s, rid);
      CancelKeeps(s);
      var s1 := Erased(s, rid);
      TimerIsSeparate(s1, Cancel(s.timer));
      hide RecordsKnown, FiringsTimely, Accounted, Erase, Rids;
    }
  }

  lemma ClearKeeps(s: Scheduler)
    requires Sound(s)
    ensures Sound(Clear(s))
  {
    CancelKeeps(s);
  }

  lemma OnTimerKeeps(s: Scheduler, aborted: bool, rid: RequestId)
    requires RecordsKnown(s) && TimerTruthful(s) && FiringsTimely(s) && Accounted(s)
    requires !aborted ==> rid in s.known && s.known[rid] <= s.now
    ensures Sound(OnTimer(s, aborted, rid))
  {
    if s.deadlines != [] {
      var top := s.deadlines[0];
      TopErased(s);
      var s1 :=
        if top.rid != rid then s
        else if !aborted && s.listening
        then s.(deadlines := s.deadlines[1..], fired := s.fired + [Firing(rid, s.now)])
        else s.(deadlines := s.deadlines[1..], lost := s.lost + {rid});
      if top.rid == rid && !aborted && s.listening {
        FiredAppend(s.fired, Firing(rid, s.now));
      }
      assert RecordsKnown(s1) && TimerTruthful(s1) && FiringsTimely(s1) && Accounted(s1);
      if s1.deadlines != [] {
        ProcessNextKeeps(s1);
      }
    }
  }

  lemma FiredAppend(fired: seq<Firing>, f: Firing)
    ensures FiredIds(fired + [f]) == FiredIds(fired) + {f.rid}
  {
    assert forall i :: 0 <= i < |fired| ==> (fired + [f])[i] == fired[i];
    assert (fired + [f])[|fired|] == f;
    forall rid | rid in FiredIds(fired) ensures rid in FiredIds(fired + [f]) {
      var i :| 0 <= i < |fired| && fired[i].rid == rid;
      assert (fired + [f])[i].rid == rid;
    }
  }

  lemma StepKeepsSound(s: Scheduler, e: Event)
    requires Sound(s) && Enabled(s, e)
    ensures Sound(Step(s, e))
  {
    match e
    case EvAdd(timeout, rid) => AddKeeps(s, timeout, rid);
    case EvRemove(rid) => RemoveKeeps(s, rid);
    case EvClear => ClearKeeps(s);
    case EvExpire =>
    case EvDeliver(i) =>
      assert s.timer.ready[i] in s.timer.ready;
      OnTimerKeeps(s.(timer := s.timer.(ready := s.timer.ready[..i] + s.timer.ready[i + 1..])),
                   s.timer.ready[i].aborted, s.timer.ready[i].rid);
    case _ =>
  }

  lemma {:induction false} RunKeepsSound(s: Scheduler, events: seq<Event>)
    requires Sound(s) && CanRun(s, events)
    ensures Sound(Run(s, events))
    decreases |events|
  {
    if events != [] {
      StepKeepsSound(s, events[0]);
      RunKeepsSound(Step(s, events[0]), events[1..]);
    }
  }

  /** Over all interleavings of additions, removals, clearing, time and late completions: while
      a record is pending some completion is still to come; the handler is called at most once
      per id, not before the deadline, and never for a record that was taken out. */
  lemma NeverStallsNeverEarly(start: Time, events: seq<Event>)
    requires CanRun(Idle(start), events)
    ensures var s := Run(Idle(start), events);
            && (s.deadlines != [] ==> Outstanding(s.timer))
            && (forall f :: f in s.fired ==> f.rid in s.known && s.known[f.rid] <= f.at <= s.now)
            && (forall i, j :: 0 <= i < j < |s.fired| ==> s.fired[i].rid != s.fired[j].rid)
            && (forall f :: f in s.fired ==> f.rid !in s.removed && f.rid !in s.lost)
            && (forall rid :: rid in s.known <==>
                  rid in Rids(s.deadlines) || rid in FiredIds(s.fired) || rid in s.removed || rid in s.lost)
  {
    RunKeepsSound(Idle(start), events);
    var s := Run(Idle(start), events);
    forall f | f in s.fired ensures f.rid !in s.removed && f.rid !in s.lost {
      var i :| 0 <= i < |s.fired| && s.fired[i] == f;
      assert f.rid in FiredIds(s.fired);
    }
    assert forall rid :: rid in s.known <==> rid in s.known.Keys;
  }

  // ----- No lost timeouts -----------------------------------------------------------------

  /** Removing the earliest record would put in front a record that was preempted and whose
      aborted completion is still to be delivered. */
  predicate RemoveExposes(s: Scheduler, rid: RequestId)
  {
    && |s.deadlines| > 1 && s.deadlines[0].rid == rid
    && exists i :: 0 <= i < |s.timer.ready| && s.timer.ready[i] == Completion(true, s.deadlines[1].rid)
  }

  /** The discipline a caller can check before each call. */
  predicate Disciplined(s: Scheduler, e: Event)
  {
    match e
    case EvAdd(timeout, _) =>
      s.listening && !HasDeadline(s.deadlines, s.now + timeout) && (s.deadlines == [] ==> !Outstanding(s.timer))
    case EvRemove(rid) => !RemoveExposes(s, rid)
    case _ => true
  }

  ghost predicate DisciplinedRun(s: Scheduler, events: seq<Event>)
    decreases |events|
  {
    events == [] ||
    (Enabled(s, events[0]) && Disciplined(s, events[0]) && DisciplinedRun(Step(s, events[0]), events[1..]))
  }

  ghost function Outcome(s: Scheduler, events: seq<Event>): Scheduler
    requires DisciplinedRun(s, events)
    decreases |events|
  {
    if events == [] then s else Outcome(Step(s, events[0]), events[1..])
  }

  /** At most one completion is outstanding; a pending wait is for the earliest record, and an
      aborted completion never names it. */
  ghost predicate Orderly(s: Scheduler)
  {
    && Sound(s)
    && |s.timer.waiting| + |s.timer.ready| <= 1
    && (s.deadlines != [] ==> s.listening)
    && (s.timer.waiting != [] ==> s.deadlines != [] && s.timer.waiting[0] == s.deadlines[0].rid)
    && (s.timer.ready != [] && s.timer.ready[0].aborted && s.deadlines != [] ==>
          s.timer.ready[0].rid != s.deadlines[0].rid)
  }

  lemma AddIsOrderly(s: Scheduler, timeout: Time, rid: RequestId)
    requires Orderly(s) && rid !in s.known && Disciplined(s, EvAdd(timeout, rid))
    ensures Orderly(Add(s, timeout, rid)) && Add(s, timeout, rid).lost == s.lost
  {
    AddKeeps(s, timeout, rid);
    InsertInOrder(s.deadlines, Record(s.now + timeout, rid));
    if s.timer.ready != [] {
      assert s.timer.ready[0] in s.timer.ready;
    }
    if s.timer.waiting != [] {
      assert s.timer.waiting[0] in s.timer.waiting;
    }
    hide Sound, Insert, HasDeadline;
  }

  lemma RemoveIsOrderly(s: Scheduler, rid: RequestId)
    requires Orderly(s) && Disciplined(s, EvRemove(rid))
    ensures Orderly(Remove(s, rid)) && Remove(s, rid).lost == s.lost
  {
    RemoveKeeps(s, rid);
    if s.deadlines != [] {
      RidsDistinct(s);
      if s.deadlines[0].rid == rid {
        assert Erase(s.deadlines, rid) == s.deadlines[1..];
      } else {
        assert Erase(s.deadlines, rid)[0] == s.deadlines[0];
      }
    }
    hide Sound, Erase, Rids;
  }

  lemma DeliverIsOrderly(s: Scheduler, i: nat)
    requires Orderly(s) && i < |s.timer.ready|
    ensures Orderly(Deliver(s, i)) && Deliver(s, i).lost == s.lost
  {
    StepKeepsSound(s, EvDeliver(i));
    assert s.timer.ready[..0] + s.timer.ready[1..] == [];
    hide Sound;
  }

  lemma StepIsOrderly(s: Scheduler, e: Event)
    requires Orderly(s) && Enabled(s, e) && Disciplined(s, e)
    ensures Orderly(Step(s, e)) && Step(s, e).lost == s.lost
  {
    StepKeepsSound(s, e);
    match e
    case EvAdd(timeout, rid) => AddIsOrderly(s, timeout, rid);
    case EvRemove(rid) => RemoveIsOrderly(s, rid);
    case EvDeliver(i) => DeliverIsOrderly(s, i);
    case _ => hide Sound;
  }

  lemma {:induction false} OrderlyNeverLoses(s: Scheduler, events: seq<Event>)
    requires Orderly(s) && DisciplinedRun(s, events)
    ensures Orderly(Outcome(s, events)) && Outcome(s, events).lost == s.lost
    decreases |events|
  {
    if events != [] {
      StepIsOrderly(s, events[0]);
      OrderlyNeverLoses(Step(s, events[0]), events[1..]);
    }
  }

  /** In disciplined runs no timeout is lost: every record ever added is still pending, has
      fired, or was taken out by its owner. */
  lemma NoLostTimeouts(start: Time, events: seq<Event>)
    requires DisciplinedRun(Idle(start), events)
    ensures var s := Outcome(Idle(start), events);
            && s.lost == {}
            && |s.timer.waiting| + |s.timer.ready| <= 1
            && (forall rid :: rid in s.known ==>
                  rid in Rids(s.deadlines) || rid in FiredIds(s.fired) || rid in s.removed)
  {
    OrderlyNeverLoses(Idle(start), events);
    var s := Outcome(Idle(start), events);
    assert Accounted(s);
    assert forall rid :: rid in s.known <==> rid in s.known.Keys;
  }

  ghost predicate NeverLoses(s: Scheduler, lost: set<RequestId>)
  {
    forall events :: DisciplinedRun(s, events) ==> Outcome(s, events).lost == lost
  }

  /** The discipline is exact: from an orderly state, a step is followed by no loss on any
      disciplined continuation if and only if the step itself is disciplined. */
  lemma DisciplineIsExact(s: Scheduler, e: Event)
    requires Orderly(s) && Enabled(s, e)
    ensures NeverLoses(Step(s, e), s.lost) <==> Disciplined(s, e)
  {
    if Disciplined(s, e) {
      StepIsOrderly(s, e);
      forall events | DisciplinedRun(Step(s, e), events) ensures Outcome(Step(s, e), events).lost == s.lost {
        OrderlyNeverLoses(Step(s, e), events);
      }
    } else {
      var events := LosingRun(s, e);
      assert Outcome(Step(s, e), events).lost != s.lost;
    }
  }

  lemma LosingRun(s: Scheduler, e: Event) returns (events: seq<Event>)
    requires Orderly(s) && Enabled(s, e) && !Disciplined(s, e)
    ensures DisciplinedRun(Step(s, e), events) && Outcome(Step(s, e), events).lost != s.lost
  {
    match e {
      case EvAdd(timeout, rid) =>
        RidNotLost(s, rid);
        if HasDeadline(s.deadlines, s.now + timeout) {
          events := [];
        } else if Outstanding(s.timer) {
          events := LostToStaleCompletion(s, timeout, rid);
        } else {
          events := LostWithoutHandler(s, timeout, rid);
        }
      case EvRemove(rid) =>
        events := LostToExposure(s, rid);
    }
  }

  lemma RidNotLost(s: Scheduler, rid: RequestId)
    requires Sound(s) && rid !in s.known
    ensures rid !in s.lost
  {
    assert rid !in s.known.Keys;
  }

  lemma OneEvent(s: Scheduler, e: Event)
    requires Enabled(s, e) && Disciplined(s, e)
    ensures DisciplinedRun(s, [e]) && Outcome(s, [e]) == Step(s, e)
  {
    assert [e][1..] == [];
  }

  lemma MoreEvents(s: Scheduler, e: Event, more: seq<Event>)
    requires Enabled(s, e) && Disciplined(s, e) && DisciplinedRun(Step(s, e), more)
    ensures DisciplinedRun(s, [e] + more) && Outcome(s, [e] + more) == Outcome(Step(s, e), more)
  {
    assert ([e] + more)[1..] == more;
  }

  /** A completion left over from before reschedules the timer, which aborts the new wait. */
  lemma LostToStaleCompletion(s: Scheduler, timeout: Time, rid: RequestId) returns (events: seq<Event>)
    requires Orderly(s) && rid !in s.known && s.deadlines == [] && Outstanding(s.timer) && rid !in s.lost
    ensures DisciplinedRun(Add(s, timeout, rid), events) && rid in Outcome(Add(s, timeout, rid), events).lost
  {
    var s1 := Add(s, timeout, rid);
    var stale := s.timer.ready[0];
    assert stale in s.timer.ready && stale.rid != rid;
    assert s1.deadlines == [Record(s.now + timeout, rid)];
    assert s1.timer.waiting == [rid] && s1.timer.ready == [stale];
    var s2 := Step(s1, EvDeliver(0));
    assert s1.timer.ready[..0] + s1.timer.ready[1..] == [];
    assert s2.timer.ready == [Completion(true, rid)];
    OneEvent(s2, EvDeliver(0));
    MoreEvents(s1, EvDeliver(0), [EvDeliver(0)]);
    events := [EvDeliver(0)] + [EvDeliver(0)];
  }

  lemma LostWithoutHandler(s: Scheduler, timeout: Time, rid: RequestId) returns (events: seq<Event>)
    requires Orderly(s) && rid !in s.known && s.deadlines == [] && !Outstanding(s.timer) && !s.listening
    ensures DisciplinedRun(Add(s, timeout, rid), events) && rid in Outcome(Add(s, timeout, rid), events).lost
  {
    var s1 := Add(s, timeout, rid);
    assert s1.timer.waiting == [rid] && s1.timer.ready == [];
    var elapsed: nat := if timeout > 0 then timeout else 0;
    var s2 := Step(s1, EvAdvance(elapsed));
    var s3 := Step(s2, EvExpire);
    assert s3.timer.ready == [Completion(false, rid)];
    OneEvent(s3, EvDeliver(0));
    MoreEvents(s2, EvExpire, [EvDeliver(0)]);
    MoreEvents(s1, EvAdvance(elapsed), [EvExpire] + [EvDeliver(0)]);
    events := [EvAdvance(elapsed)] + ([EvExpire] + [EvDeliver(0)]);
  }

  lemma LostToExposure(s: Scheduler, rid: RequestId) returns (events: seq<Event>)
    requires Orderly(s) && RemoveExposes(s, rid)
    ensures DisciplinedRun(Remove(s, rid), events) && Outcome(Remove(s, rid), events).lost != s.lost
  {
    var s1 := Remove(s, rid);
    var preempted := s.deadlines[1];
    assert s1.deadlines == s.deadlines[1..] && s1.deadlines[0] == preempted;
    assert s1.timer.ready == [Completion(true, preempted.rid)];
    assert preempted in s.deadlines && preempted.rid in Rids(s.deadlines);
    OneEvent(s1, EvDeliver(0));
    events := [EvDeliver(0)];
  }

  /** A disciplined run from the start leads to where a removal exposes a preempted record: the
      second record preempts the first, and is removed before that is heard of. */
  lemma ExposureIsReachable(start: Time)
    ensures exists events :: DisciplinedRun(Idle(start), events) && RemoveExposes(Outcome(Idle(start), events), 2)
  {
    var s1 := Idle(start).(listening := true);
    var s2 := Add(s1, 10, 1);
    FirstAdded(s1, 10, 1);
    SecondPreempts(s2);
    OneEvent(s2, EvAdd(5, 2));
    hide Add;
    MoreEvents(s1, EvAdd(10, 1), [EvAdd(5, 2)]);
    MoreEvents(Idle(start), EvListen, [EvAdd(10, 1)] + [EvAdd(5, 2)]);
  }

  /** And one to where a record would be added while a stale completion is outstanding: a record
      is cleared, and the handler installed again before that is heard of. */
  lemma StaleCompletionIsReachable(start: Time)
    ensures exists events :: DisciplinedRun(Idle(start), events)
              && var s := Outcome(Idle(start), events); s.listening && s.deadlines == [] && Outstanding(s.timer)
  {
    var s1 := Idle(start).(listening := true);
    var s2 := Add(s1, 10, 1);
    FirstAdded(s1, 10, 1);
    var s3 := Clear(s2);
    assert s3.timer.ready == [Completion(true, 1)];
    OneEvent(s3, EvListen);
    hide Add, Clear;
    MoreEvents(s2, EvClear, [EvListen]);
    MoreEvents(s1, EvAdd(10, 1), [EvClear] + [EvListen]);
    MoreEvents(Idle(start), EvListen, [EvAdd(10, 1)] + ([EvClear] + [EvListen]));
  }

  lemma SecondPreempts(s: Scheduler)
    requires s.deadlines == [Record(s.now + 10, 1)] && s.timer.waiting == [1] && s.timer.ready == []
    ensures !HasDeadline(s.deadlines, s.now + 5) && RemoveExposes(Add(s, 5, 2), 2)
  {
    var s1 := Add(s, 5, 2);
    assert s1.deadlines == [Record(s.now + 5, 2), Record(s.now + 10, 1)] && s1.timer.ready == [Completion(true, 1)];
    assert s1.timer.ready[0] == Completion(true, s1.deadlines[1].rid);
  }

  lemma FirstAdded(s: Scheduler, timeout: Time, rid: RequestId)
    requires s.deadlines == [] && s.timer.waiting == [] && s.timer.ready == []
    ensures var s1 := Add(s, timeout, rid);
            && s1 == s.(deadlines := [Record(s.now + timeout, rid)],
                        known := s.known[rid := s.now + timeout],
                        timer := Timer(s.now + timeout, [rid], []))
  {
  }

  /** The first wait, if any, is followed by its expiry and delivery. */
  lemma WaitFires(s: Scheduler) returns (events: seq<Event>)
    requires Orderly(s) && s.deadlines != [] && s.deadlines[0].deadline <= s.now && s.timer.waiting != []
    ensures DisciplinedRun(s, events) && |events| == 2 && s.deadlines[0].rid in FiredIds(Outcome(s, events).fired)
    ensures forall e :: e in events ==> e.EvExpire? || e.EvDeliver?
  {
    var top := s.deadlines[0];
    assert top in s.deadlines && s.timer.waiting == [top.rid] && s.timer.waiting[0] in s.timer.waiting;
    assert s.timer.expiry == top.deadline;
    var s1 := Step(s, EvExpire);
    assert s1.timer.ready == [Completion(false, top.rid)];
    DeliveryFires(s1);
    OneEvent(s1, EvDeliver(0));
    MoreEvents(s, EvExpire, [EvDeliver(0)]);
    events := [EvExpire] + [EvDeliver(0)];
  }

  lemma DeliveryFires(s: Scheduler)
    requires s.deadlines != [] && s.listening && s.timer.ready == [Completion(false, s.deadlines[0].rid)]
    ensures s.deadlines[0].rid in FiredIds(Deliver(s, 0).fired)
  {
    FiredAppend(s.fired, Firing(s.deadlines[0].rid, s.now));
  }

  /** A due timeout does fire: from every orderly state in which the earliest deadline has
      passed, at most three steps of the timer alone lead to its handler call. */
  lemma DueTimeoutFires(s: Scheduler) returns (events: seq<Event>)
    requires Orderly(s) && s.deadlines != [] && s.deadlines[0].deadline <= s.now
    ensures DisciplinedRun(s, events) && |events| <= 3
    ensures forall e :: e in events ==> e.EvExpire? || e.EvDeliver?
    ensures s.deadlines[0].rid in FiredIds(Outcome(s, events).fired)
  {
    if s.timer.waiting != [] {
      events := WaitFires(s);
    } else {
      var c := s.timer.ready[0];
      assert s.timer.ready == [c];
      if c.rid == s.deadlines[0].rid {
        DeliveryFires(s);
        OneEvent(s, EvDeliver(0));
        events := [EvDeliver(0)];
      } else {
        var s1 := Step(s, EvDeliver(0));
        StepIsOrderly(s, EvDeliver(0));
        assert s1.deadlines == s.deadlines && s1.now == s.now && s1.timer.waiting != [];
        var more := WaitFires(s1);
        MoreEvents(s, EvDeliver(0), more);
        events := [EvDeliver(0)] + more;
      }
    }
  }

  // ----- The scheduler object -------------------------------------------------------------

  class SteadyTimer {
    var expiry: Time
    var waiting: seq<RequestId>
    var ready: seq<Completion>

    ghost function Value(): Timer
      reads this
    {
      Timer(expiry, waiting, ready)
    }

    constructor (now: Time)
      ensures Value() == Timer(now, [], [])
    {
      expiry, waiting, ready := now, [], [];
    }

    method CancelWaits()
      modifies this
      ensures Value() == Cancel(old(Value()))
    {
      ready := ready + Completions(waiting, true);
      waiting := [];
    }

    method SetExpiry(at: Time)
      modifies this
      ensures Value() == ExpiresAt(old(Value()), at)
    {
      CancelWaits();
      expiry := at;
    }

    method Wait(rid: RequestId)
      modifies this
      ensures Value() == AsyncWait(old(Value()), rid)
    {
      waiting := waiting + [rid];
    }

    method ExpireWaits()
      modifies this
      ensures Value() == Expire(old(Value()))
    {
      ready := ready + Completions(waiting, false);
      waiting := [];
    }
  }

  class CallerTimeoutScheduler {
    const timer: SteadyTimer
    var now: Time                 // the steady clock
    var deadlines: seq<Record>
    var timeoutHandler: bool
    ghost var known: map<RequestId, Time>
    ghost var fired: seq<Firing>
    ghost var removed: set<RequestId>
    ghost var lost: set<RequestId>

    ghost function State(): Scheduler
      reads this, timer
    {
      Scheduler(now, deadlines, timer.Value(), timeoutHandler, known, fired, removed, lost)
    }

    constructor (start: Time)
      ensures fresh(timer) && State() == Idle(start) && Sound(State())
    {
      timer := new SteadyTimer(start);
      now, deadlines, timeoutHandler := start, [], false;
      known, fired, removed, lost := map[], [], {}, {};
    }

    method Listen()
      requires Sound(State())
      modifies this`timeoutHandler
      ensures State() == Step(old(State()), EvListen) && Sound(State())
    {
      StepKeepsSound(State(), EvListen);
      timeoutHandler := true;
    }

    method AddTimeout(timeout: Time, rid: RequestId)
      requires Sound(State()) && rid !in known
      modifies this, timer
      ensures State() == Add(old(State()), timeout, rid) && Sound(State())
    {
      AddKeeps(State(), timeout, rid);
      var rec := Record(now + timeout, rid);
      InsertInOrder(deadlines, rec);
      hide Insert, Sound;
      var wasIdle := deadlines == [];
      var preemptsCurrentDeadline := !wasIdle && rec.deadline < deadlines[0].deadline;
      known := known[rid := rec.deadline];
      lost := if HasDeadline(deadlines, rec.deadline) then lost + {rid} else lost;
      deadlines := Insert(deadlines, rec);
      if wasIdle {
        WaitForNextDeadline();
      } else if preemptsCurrentDeadline {
        timer.CancelWaits();
      }
    }

    method RemoveTimeout(rid: RequestId)
      requires Sound(State())
      modifies this, timer
      ensures State() == Remove(old(State()), rid) && Sound(State())
    {
      RemoveKeeps(State(), rid);
      hide Sound;
      if |deadlines| == 0 {
        return;
      }
      removed := removed + (Rids(deadlines) - Rids(Erase(deadlines, rid)));
      if deadlines[0].rid == rid {
        EraseFound(deadlines, 0, rid);
        deadlines := deadlines[..0] + deadlines[1..];
        timer.CancelWaits();
        return;
      }
      hide Erase;
      var i := 0;
      while i < |deadlines|
        invariant 0 <= i <= |deadlines|
        invariant forall j :: 0 <= j < i ==> deadlines[j].rid != rid
      {
        if deadlines[i].rid == rid {
          EraseFound(deadlines, i, rid);
          deadlines := deadlines[..i] + deadlines[i + 1..];
          return;
        }
        i := i + 1;
      }
      EraseAbsent(deadlines, rid);
    }

    method ClearAll()
      requires Sound(State())
      modifies this, timer
      ensures State() == Clear(old(State())) && Sound(State())
    {
      ClearKeeps(State());
      timeoutHandler := false;
      removed := removed + Rids(deadlines);
      deadlines := [];
      timer.CancelWaits();
    }

    method WaitForNextDeadline()
      requires deadlines != []
      modifies timer
      ensures State() == ProcessNextDeadline(old(State()))
    {
      var top := deadlines[0];
      timer.SetExpiry(top.deadline);
      timer.Wait(top.rid);
    }

    method HandleTimer(aborted: bool, rid: RequestId)
      modifies this, timer
      ensures State() == OnTimer(old(State()), aborted, rid)
    {
      if deadlines != [] {
        var top := deadlines[0];
        var preempted := top.rid != rid;
        if !preempted {
          if !aborted && timeoutHandler {
            fired := fired + [Firing(top.rid, now)];
          } else {
            lost := lost + {top.rid};
          }
          deadlines := deadlines[1..];
        }
        if deadlines != [] {
          WaitForNextDeadline();
        }
      }
    }

    /** The executor delivers one of the queued completions. */
    method RunCompletion(i: nat)
      requires Sound(State()) && i < |timer.ready|
      modifies this, timer
      ensures State() == Deliver(old(State()), i) && Sound(State())
    {
      StepKeepsSound(State(), EvDeliver(i));
      var c := timer.ready[i];
      timer.ready := timer.ready[..i] + timer.ready[i + 1..];
      HandleTimer(c.aborted, c.rid);
    }
  }
}

/** The client's table of invocations that can still be interrupted. */
module Invocations {

  /** What a callee's session has done about an invocation, in order: posted its interruption
      handler, or issued its final YIELD or ERROR. */
  datatype Entry = Interrupted(id: int) | Finished(id: int)

  datatype Callee = Callee(
    established: bool,
    registry: map<int, bool>,          // registration ids, and whether they take interruptions
    pending: map<int, int>,            // invocations that can be interrupted, with their registration
    seen: set<int>,                    // invocation ids received so far
    log: seq<Entry>)

  const EMPTY: Callee := Callee(false, map[], map[], {}, [])

  function Finish(s: Callee, id: int): Callee
  {
    s.(pending := s.pending - {id}, log := s.log + [Finished(id)])
  }

  function OnInvocation(s: Callee, id: int, registration: int): Callee
  {
    var s1 := s.(seen := s.seen + {id});
    if registration in s.registry then s1.(pending := s1.pending[id := registration])
    else s1.(log := s1.log + [Finished(id)])   // ERROR: no such procedure
  }

  function OnInterrupt(s: Callee, id: int): Callee
  {
    if id !in s.pending then s
    else
      var registration := s.pending[id];
      var s1 := s.(pending := s.pending - {id});
      if registration in s.registry && s.registry[registration] then s1.(log := s1.log + [Interrupted(id)]) else s1
  }

  /** A result that does not fit the transport is replaced by an ERROR, progressive or not. */
  function Yield(s: Callee, id: int, progressive: bool, fits: bool): Callee
  {
    if !s.established || (progressive && fits) then s else Finish(s, id)
  }

  function YieldError(s: Callee, id: int): Callee
  {
    if !s.established then s else Finish(s, id)
  }

  datatype Event =
    | EvEstablish
    | EvRegistered(registration: int, takesInterruptions: bool)
    | EvUnregister(registration: int)
    | EvInvocation(id: int, registration: int)
    | EvInterrupt(id: int)
    | EvYield(id: int, progressive: bool, fits: bool)
    | EvYieldError(id: int)
    | EvLost                 // the session ended, or is being left: the tables stay
    | EvLeft                 // the registrations are forgotten, the pending invocations stay
    | EvDisconnect

  /** Invocation ids are distinct, and only received invocations are answered. */
  predicate Enabled(s: Callee, e: Event)
  {
    match e
    case EvInvocation(id, _) => id !in s.seen
    case EvYield(id, _, _) => id in s.seen
    case EvYieldError(id) => id in s.seen
    case _ => true
  }

  function Step(s: Callee, e: Event): Callee
  {
    match e
    case EvEstablish => s.(established := true)
    case EvRegistered(registration, takes) => s.(registry := s.registry[registration := takes])
    case EvUnregister(registration) => s.(registry := s.registry - {registration})
    case EvInvocation(id, registration) => OnInvocation(s, id, registration)
    case EvInterrupt(id) => OnInterrupt(s, id)
    case EvYield(id, progressive, fits) => Yield(s, id, progressive, fits)
    case EvYieldError(id) => YieldError(s, id)
    case EvLost => s.(established := false)
    case EvLeft => s.(established := false, registry := map[])
    case EvDisconnect => s.(established := false, registry := map[], pending := map[])
  }

  ghost predicate CanRun(s: Callee, events: seq<Event>)
    decreases |events|
  {
    events == [] || (Enabled(s, events[0]) && CanRun(Step(s, events[0]), events[1..]))
  }

  ghost function Run(s: Callee, events: seq<Event>): Callee
    requires CanRun(s, events)
    decreases |events|
  {
    if events == [] then s else Run(Step(s, events[0]), events[1..])
  }

  predicate Mentions(log: seq<Entry>, id: int)
  {
    exists i :: 0 <= i < |log| && log[i].id == id
  }

  /** An interruption is the first thing that happens to its invocation. */
  ghost predicate InterruptionsComeFirst(log: seq<Entry>)
  {
    forall i, j :: 0 <= i < j < |log| && log[j].Interrupted? ==> log[i].id != log[j].id
  }

  ghost predicate Sound(s: Callee)
  {
    && (forall id :: id in s.pending ==> id in s.seen && !Mentions(s.log, id))
    && (forall id :: Mentions(s.log, id) ==> id in s.seen)
    && InterruptionsComeFirst(s.log)
  }

  lemma MentionsAppend(log: seq<Entry>, e: Entry)
    ensures forall id :: Mentions(log + [e], id) <==> Mentions(log, id) || e.id == id
  {
    forall id ensures Mentions(log + [e], id) <==> Mentions(log, id) || e.id == id {
      if Mentions(log, id) {
        var i :| 0 <= i < |log| && log[i].id == id;
        assert (log + [e])[i].id == id;
      }
      if e.id == id {
        assert (log + [e])[|log|].id == id;
      }
    }
  }

  lemma StepIsSound(s: Callee, e: Event)
    requires Sound(s) && Enabled(s, e)
    ensures Sound(Step(s, e))
  {
    match e
    case EvInvocation(id, registration) => MentionsAppend(s.log, Finished(id)); hide Mentions;
    case EvInterrupt(id) =>
      if id in s.pending {
        assert !Mentions(s.log, id);
        assert forall i :: 0 <= i < |s.log| ==> s.log[i].id != id;
      }
      MentionsAppend(s.log, Interrupted(id)); hide Mentions;
    case EvYield(id, _, _) => MentionsAppend(s.log, Finished(id)); hide Mentions;
    case EvYieldError(id) => MentionsAppend(s.log, Finished(id)); hide Mentions;
    case _ =>
  }

  lemma {:induction false} RunIsSound(s: Callee, events: seq<Event>)
    requires Sound(s) && CanRun(s, events)
    ensures Sound(Run(s, events))
    decreases |events|
  {
    if events != [] {
      StepIsSound(s, events[0]);
      RunIsSound(Step(s, events[0]), events[1..]);
    }
  }

  /** On every run an interruption handler is posted at most once per invocation, and never
      after a final YIELD or ERROR was issued for it, also when a result was too long and gave
      way to an ERROR. */
  lemma InterruptionsAreSafe(events: seq<Event>)
    requires CanRun(EMPTY, events)
    ensures var log := Run(EMPTY, events).log;
            forall i, j :: 0 <= i < j < |log| && log[j].Interrupted? ==>
                             log[i] != Interrupted(log[j].id) && log[i] != Finished(log[j].id)
  {
    RunIsSound(EMPTY, events);
  }

  // ----- What each event does -------------------------------------------------------------

  /** What an event adds to the log: the error for an unknown procedure, the interruption of a
      pending invocation whose procedure is still there and takes it, the final answer. */
  function Logged(s: Callee, e: Event): seq<Entry>
  {
    match e
    case EvInvocation(id, registration) => if registration !in s.registry then [Finished(id)] else []
    case EvInterrupt(id) =>
      if id in s.pending && s.pending[id] in s.registry && s.registry[s.pending[id]] then [Interrupted(id)] else []
    case EvYield(id, progressive, fits) => if s.established && (!progressive || !fits) then [Finished(id)] else []
    case EvYieldError(id) => if s.established then [Finished(id)] else []
    case _ => []
  }

  /** An invocation is pending after an event exactly if it was and the event did not end it, or
      if it has just come for a procedure that is registered. */
  predicate PendingAfter(s: Callee, e: Event, id: int)
  {
    match e
    case EvInvocation(i, registration) => (id == i && registration in s.registry) || id in s.pending
    case EvInterrupt(i) => id in s.pending && id != i
    case EvYield(i, progressive, fits) =>
      id in s.pending && !(id == i && s.established && (!progressive || !fits))
    case EvYieldError(i) => id in s.pending && !(id == i && s.established)
    case EvDisconnect => false
    case _ => id in s.pending
  }

  /** The procedures that are registered after an event. */
  predicate RegisteredAfter(s: Callee, e: Event, registration: int, takesInterruptions: bool)
  {
    match e
    case EvRegistered(r, takes) =>
      if r == registration then takes == takesInterruptions
      else registration in s.registry && s.registry[registration] == takesInterruptions
    case EvUnregister(r) =>
      r != registration && registration in s.registry && s.registry[registration] == takesInterruptions
    case EvLeft => false
    case EvDisconnect => false
    case _ => registration in s.registry && s.registry[registration] == takesInterruptions
  }

  lemma StepActs(s: Callee, e: Event)
    requires Enabled(s, e)
    ensures var s1 := Step(s, e);
            && s1.log == s.log + Logged(s, e)
            && (forall id :: id in s1.pending <==> PendingAfter(s, e, id))
            && (forall id :: id in s1.pending ==>
                  s1.pending[id] == if e.EvInvocation? && e.id == id && e.registration in s.registry then e.registration
                                    else s.pending[id])
            && (forall r, takes :: r in s1.registry && s1.registry[r] == takes <==> RegisteredAfter(s, e, r, takes))
            && s1.established == (if e == EvEstablish then true
                                  else if e in {EvLost, EvLeft, EvDisconnect} then false else s.established)
  {
    assert s.log + [] == s.log;
  }

  lemma {:induction false} RunThen(s: Callee, events: seq<Event>, e: Event)
    ensures CanRun(s, events + [e]) ==>
              CanRun(s, events) && Enabled(Run(s, events), e) && Run(s, events + [e]) == Step(Run(s, events), e)
    decreases |events|
  {
    if events == [] {
      assert events + [e] == [e] && [e][1..] == [];
    } else if CanRun(s, events + [e]) {
      assert (events + [e])[0] == events[0] && (events + [e])[1..] == events[1..] + [e];
      hide Step, Enabled;
      RunThen(Step(s, events[0]), events[1..], e);
    }
  }

  /** On every run each event does just that; and when an invocation comes, it becomes pending if
      and only if its procedure is registered then, and is answered by an ERROR if and only if it
      is not. */
  lemma InvocationsAreHandled(events: seq<Event>, e: Event)
    requires CanRun(EMPTY, events + [e])
    ensures CanRun(EMPTY, events)
    ensures var s, s1 := Run(EMPTY, events), Run(EMPTY, events + [e]);
            && s1.log == s.log + Logged(s, e)
            && (forall id :: id in s1.pending <==> PendingAfter(s, e, id))
            && (e.EvInvocation? ==>
                  && (e.id in s1.pending <==> e.registration in s.registry)
                  && (Mentions(s1.log, e.id) <==> e.registration !in s.registry))
  {
    RunThen(EMPTY, events, e);
    RunIsSound(EMPTY, events);
    var s := Run(EMPTY, events);
    hide Run, CanRun;
    StepActs(s, e);
    if e.EvInvocation? {
      MentionsAppend(s.log, Finished(e.id));
      assert s.log + [] == s.log;
    }
    hide Step, Mentions;
  }

  class CalleeSession {
    var established: bool
    var registry: map<int, bool>
    var pendingInvocations: map<int, int>
    ghost var seen: set<int>
    ghost var log: seq<Entry>

    ghost function State(): Callee
      reads this
    {
      Callee(established, registry, pendingInvocations, seen, log)
    }

    constructor ()
      ensures State() == EMPTY
    {
      established, registry, pendingInvocations, seen, log := false, map[], map[], {}, [];
    }

    method HandleInvocation(id: int, registration: int)
      modifies this
      ensures State() == OnInvocation(old(State()), id, registration)
    {
      seen := seen + {id};
      if registration in registry {
        pendingInvocations := pendingInvocations[id := registration];
      } else {
        log := log + [Finished(id)];
      }
    }

    method HandleInterrupt(id: int)
      modifies this
      ensures State() == OnInterrupt(old(State()), id)
    {
      if id in pendingInvocations {
        var registration := pendingInvocations[id];
        pendingInvocations := pendingInvocations - {id};
        if registration in registry && registry[registration] {
          log := log + [Interrupted(id)];
        }
      }
    }

    method YieldResult(id: int, progressive: bool, fits: bool) returns (ok: bool)
      modifies this
      ensures State() == Yield(old(State()), id, progressive, fits)
      ensures ok <==> old(established) && fits
    {
      if !established {
        return false;
      }
      if !progressive {
        pendingInvocations := pendingInvocations - {id};
      }
      ok := fits;
      if !fits {
        assert pendingInvocations - {id} - {id} == pendingInvocations - {id};
        YieldFailure(id);
      } else if !progressive {
        log := log + [Finished(id)];
      }
    }

    method YieldFailure(id: int)
      modifies this
      ensures State() == YieldError(old(State()), id)
    {
      if established {
        pendingInvocations := pendingInvocations - {id};
        log := log + [Finished(id)];
      }
    }
  }
}

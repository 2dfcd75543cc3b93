/** The decoding visitor: it rebuilds a variant in place from a stream of events, with a stack
    of addresses into the tree that it is building. */
module VariantDecoding {
  import opened Variants
  import opened VariantPaths

  datatype Event =
    | EvNull
    | EvBool(b: bool)
    | EvInt(n: Int64)
    | EvUInt(u: UInt64)
    | EvDouble(r: Double)
    | EvString(s: string)     // a string value or a member key: the stream does not say
    | EvBytes(bytes: seq<bv8>)
    | EvBeginArray(length: nat)
    | EvEndArray
    | EvBeginObject(length: nat)
    | EvEndObject

  /** An open composite: where it is, whether the key of its next member is known, and the
      child put into it last. */
  datatype Context = Context(path: Path, keyIsDone: bool, newest: seq<Step>)

  datatype Decoder = Decoder(contextStack: seq<Context>, key: string, variant: Variant, hasRoot: bool)

  /** The parser goes on, stops with the expected-string-key error, or an assertion fails. */
  datatype Result = Going(d: Decoder) | ExpectedStringKey | AssertionFailed

  const RESET: Decoder := Decoder([], "", Null, false)

  function Top(d: Decoder): Context
    requires d.contextStack != []
  {
    d.contextStack[|d.contextStack| - 1]
  }

  function Pop(d: Decoder): seq<Context>
    requires d.contextStack != []
  {
    d.contextStack[..|d.contextStack| - 1]
  }

  function Push(stack: seq<Context>, path: Path, isComposite: bool): seq<Context>
  {
    if isComposite then stack + [Context(path, false, [])] else stack
  }

  function AddRoot(d: Decoder, value: Variant, isComposite: bool): Decoder
  {
    d.(variant := value, hasRoot := true, contextStack := Push(d.contextStack, [], isComposite))
  }

  function AddArrayElement(d: Decoder, value: Variant, isComposite: bool): Decoder
    requires d.contextStack != [] && VariantPaths.Valid(d.variant, Top(d).path) && Get(d.variant, Top(d).path).Array?
  {
    var path, elements := Top(d).path, Get(d.variant, Top(d).path).elements;
    var child := Index(|elements|);
    d.(variant := Replace(d.variant, path, Array(elements + [value])),
       contextStack := Push(Pop(d) + [Top(d).(newest := [child])], path + [child], isComposite))
  }

  /** Needs the key; the key is used up. */
  function AddObjectElement(d: Decoder, value: Variant, isComposite: bool): Decoder
    requires d.contextStack != [] && VariantPaths.Valid(d.variant, Top(d).path) && Get(d.variant, Top(d).path).Object?
  {
    var path, members := Top(d).path, Get(d.variant, Top(d).path).members;
    var child := Member(d.key);
    d.(variant := Replace(d.variant, path, Object(members[d.key := value])),
       key := "",
       contextStack := Push(Pop(d) + [Context(path, false, [child])], path + [child], isComposite))
  }

  function Put(d: Decoder, value: Variant, isComposite: bool): Result
  {
    if d.contextStack == [] then Going(AddRoot(d, value, isComposite))
    else if !VariantPaths.Valid(d.variant, Top(d).path) then AssertionFailed   // a dangling address
    else match Get(d.variant, Top(d).path)
      case Array(_) => Going(AddArrayElement(d, value, isComposite))
      case Object(_) =>
        if Top(d).keyIsDone then Going(AddObjectElement(d, value, isComposite)) else ExpectedStringKey
      case _ => AssertionFailed
  }

  predicate ExpectsKey(d: Decoder)
  {
    && d.contextStack != [] && VariantPaths.Valid(d.variant, Top(d).path)
    && Get(d.variant, Top(d).path).Object? && !Top(d).keyIsDone
  }

  function PutKey(d: Decoder, key: string): Decoder
    requires d.contextStack != []
  {
    d.(key := key, contextStack := Pop(d) + [Top(d).(keyIsDone := true)])
  }

  /** A key that no member followed is forgotten. */
  function EndComposite(d: Decoder): Result
  {
    if d.contextStack == [] then AssertionFailed else Going(d.(contextStack := Pop(d), key := ""))
  }

  /** The visits that open composites, and those of strings, drop the error of put. */
  function Unchecked(r: Result, d: Decoder): Result
  {
    if r == ExpectedStringKey then Going(d) else r
  }

  function Visit(d: Decoder, e: Event): Result
  {
    match e
    case EvNull => Put(d, Null, false)
    case EvBool(b) => Put(d, Bool(b), false)
    case EvInt(n) => Put(d, Int(n), false)
    case EvUInt(u) => if u <= MAX_INT64 then Put(d, Int(u), false) else Put(d, UInt(u), false)
    case EvDouble(r) => Put(d, Real(r), false)
    case EvString(s) => if ExpectsKey(d) then Going(PutKey(d, s)) else Unchecked(Put(d, String(s), false), d)
    case EvBytes(bytes) => Put(d, Blob(bytes), false)
    case EvBeginArray(_) => Unchecked(Put(d, Array([]), true), d)
    case EvEndArray => EndComposite(d)
    case EvBeginObject(_) => Unchecked(Put(d, Object(map[]), true), d)
    case EvEndObject => EndComposite(d)
  }

  function Run(d: Decoder, events: seq<Event>): Result
    decreases |events|
  {
    if events == [] then Going(d)
    else
      var r := Visit(d, events[0]);
      if r.Going? then Run(r.d, events[1..]) else r
  }

  lemma {:induction false} RunConcat(d: Decoder, first: seq<Event>, second: seq<Event>)
    requires Run(d, first).Going?
    ensures Run(d, first + second) == Run(Run(d, first).d, second)
    decreases |first|
  {
    if first == [] {
      assert first + second == second;
    } else {
      assert (first + second)[0] == first[0] && (first + second)[1..] == first[1..] + second;
      RunConcat(Visit(d, first[0]).d, first[1..], second);
    }
  }

  // ----- The stack of addresses -----------------------------------------------------------

  /** The newest child of an open composite is the last element, or an existing member. */
  predicate NewestIsChild(v: Variant, newest: seq<Step>)
  {
    match v
    case Array(a) => newest == if a == [] then [] else [Index(|a| - 1)]
    case Object(m) => newest == [] || (|newest| == 1 && newest[0].Member? && newest[0].key in m)
    case _ => false
  }

  ghost predicate ContextFits(v: Variant, c: Context)
  {
    VariantPaths.Valid(v, c.path) && NewestIsChild(Get(v, c.path), c.newest)
  }

  predicate Linked(lower: Context, upper: Context)
  {
    |lower.newest| == 1 && upper.path == lower.path + lower.newest
  }

  /** Every address on the stack leads to a composite; each entry is the newest child of the
      one below it, the lowest is the root; only the top may hold a key, and a key is kept only
      while one is held. */
  ghost predicate WellFormed(d: Decoder)
  {
    var stack, n := d.contextStack, |d.contextStack|;
    && (forall i :: 0 <= i < n ==> ContextFits(d.variant, stack[i]))
    && (n > 0 ==> stack[0].path == [] && d.hasRoot)
    && (forall i, j :: 0 <= i && j == i + 1 < n ==> Linked(stack[i], stack[j]))
    && (forall i :: 0 <= i < n && stack[i].keyIsDone ==> i == n - 1 && Get(d.variant, stack[i].path).Object?)
    && (n == 0 || !Top(d).keyIsDone ==> d.key == "")
  }

  /** Entries lower on the stack are proper ancestors. */
  lemma {:induction false} AncestorsBelow(d: Decoder, i: nat, j: nat)
    requires WellFormed(d) && i < j < |d.contextStack|
    ensures d.contextStack[i].path < d.contextStack[j].path
  {
    assert Linked(d.contextStack[j - 1], d.contextStack[j]);
    if i < j - 1 {
      AncestorsBelow(d, i, j - 1);
    }
  }

  /** Appending to the array on top can move its elements in memory, but none of them, nor
      anything inside them, is on the stack. */
  lemma NoAddressInsideTop(d: Decoder, i: nat)
    requires WellFormed(d) && i < |d.contextStack|
    ensures !(Top(d).path < d.contextStack[i].path)
  {
    if i < |d.contextStack| - 1 {
      AncestorsBelow(d, i, |d.contextStack| - 1);
    }
  }

  /** Writing through the top address keeps every lower entry as it was. */
  lemma LowerEntriesFit(d: Decoder, w: Variant, i: nat)
    requires WellFormed(d) && i < |d.contextStack| - 1
    ensures VariantPaths.Valid(d.variant, Top(d).path)
    ensures ContextFits(Replace(d.variant, Top(d).path, w), d.contextStack[i])
  {
    var top := |d.contextStack| - 1;
    var p, q := d.contextStack[i].path, d.contextStack[top].path;
    assert ContextFits(d.variant, d.contextStack[top]) && ContextFits(d.variant, d.contextStack[i]);
    AncestorsBelow(d, i, top);
    assert q == p + q[|p|..];
    ReplaceBelow(d.variant, p, q[|p|..], w);
  }

  /** The state after writing a composite through the top address and updating its entry. */
  lemma TopWritten(d: Decoder, w: Variant, newest: seq<Step>)
    requires WellFormed(d) && d.contextStack != [] && NewestIsChild(w, newest)
    ensures VariantPaths.Valid(d.variant, Top(d).path)
    ensures WellFormed(Decoder(Pop(d) + [Context(Top(d).path, false, newest)], "",
                               Replace(d.variant, Top(d).path, w), d.hasRoot))
  {
    var n := |d.contextStack|;
    assert ContextFits(d.variant, d.contextStack[n - 1]);
    GetReplace(d.variant, Top(d).path, w);
    var d1 := Decoder(Pop(d) + [Context(Top(d).path, false, newest)], "",
                      Replace(d.variant, Top(d).path, w), d.hasRoot);
    forall i | 0 <= i < n ensures ContextFits(d1.variant, d1.contextStack[i]) {
      if i < n - 1 {
        LowerEntriesFit(d, w, i);
      }
    }
    forall i, j | 0 <= i && j == i + 1 < n ensures Linked(d1.contextStack[i], d1.contextStack[j]) {
      assert Linked(d.contextStack[i], d.contextStack[j]);
    }
    hide NewestIsChild, VariantPaths.Valid, Get, Replace;
  }

  /** Opening the newest child of the top. */
  lemma ChildOpened(d: Decoder)
    requires WellFormed(d) && d.contextStack != [] && |Top(d).newest| == 1 && !Top(d).keyIsDone
    requires VariantPaths.Valid(d.variant, Top(d).path + Top(d).newest)
    requires NewestIsChild(Get(d.variant, Top(d).path + Top(d).newest), [])
    ensures WellFormed(d.(contextStack := Push(d.contextStack, Top(d).path + Top(d).newest, true)))
  {
    var d1 := d.(contextStack := Push(d.contextStack, Top(d).path + Top(d).newest, true));
    var n := |d.contextStack|;
    forall i, j | 0 <= i && j == i + 1 < n + 1 ensures Linked(d1.contextStack[i], d1.contextStack[j]) {
      if j < n { assert Linked(d.contextStack[i], d.contextStack[j]); }
    }
    hide NewestIsChild, VariantPaths.Valid, Get, Replace, Linked;
  }

  predicate Fresh(value: Variant)
  {
    value == Array([]) || value == Object(map[])
  }

  lemma PutKeepsWellFormed(d: Decoder, value: Variant, isComposite: bool)
    requires WellFormed(d) && (isComposite ==> Fresh(value))
    ensures var r := Put(d, value, isComposite); r != AssertionFailed && (r.Going? ==> WellFormed(r.d))
  {
    if d.contextStack != [] {
      var n := |d.contextStack|;
      assert ContextFits(d.variant, d.contextStack[n - 1]);
      var path := Top(d).path;
      var here := Get(d.variant, path);
      if here.Array? || Top(d).keyIsDone {
        var child := if here.Array? then Index(|here.elements|) else Member(d.key);
        var w := if here.Array? then Array(here.elements + [value]) else Object(here.members[d.key := value]);
        TopWritten(d, w, [child]);
        GetReplace(d.variant, path, w);
        LastStep(Replace(d.variant, path, w), path, child);
        var d1 := Decoder(Pop(d) + [Context(path, false, [child])], "", Replace(d.variant, path, w), d.hasRoot);
        assert Put(d, value, false) == Going(d1);
        if isComposite {
          assert Top(d1).path + Top(d1).newest == path + [child];
          ChildOpened(d1);
          assert Put(d, value, true) == Going(d1.(contextStack := Push(d1.contextStack, path + [child], true)));
        }
      }
    }
  }

  lemma KeyKeepsWellFormed(d: Decoder, key: string)
    requires WellFormed(d) && ExpectsKey(d)
    ensures WellFormed(PutKey(d, key))
  {
    var d1 := PutKey(d, key);
    var n := |d.contextStack|;
    forall i, j | 0 <= i && j == i + 1 < n ensures Linked(d1.contextStack[i], d1.contextStack[j]) {
      assert Linked(d.contextStack[i], d.contextStack[j]);
    }
    forall i | 0 <= i < n ensures ContextFits(d1.variant, d1.contextStack[i]) {
      assert ContextFits(d.variant, d.contextStack[i]);
    }
    hide NewestIsChild, VariantPaths.Valid, Linked;
  }

  lemma EndKeepsWellFormed(d: Decoder)
    requires WellFormed(d) && d.contextStack != []
    ensures WellFormed(d.(contextStack := Pop(d), key := ""))
  {
    hide ContextFits, Linked;
  }

  predicate IsEnd(e: Event)
  {
    e.EvEndArray? || e.EvEndObject?
  }

  /** Whatever the events, the stack stays well formed, and no assertion fails except the one
      on closing a composite when none is open. */
  lemma VisitKeepsWellFormed(d: Decoder, e: Event)
    requires WellFormed(d)
    ensures Visit(d, e).Going? ==> WellFormed(Visit(d, e).d)
    ensures Visit(d, e) == AssertionFailed <==> IsEnd(e) && d.contextStack == []
  {
    hide WellFormed, Put, PutKey;
    match e
    case EvNull => PutKeepsWellFormed(d, Null, false);
    case EvBool(b) => PutKeepsWellFormed(d, Bool(b), false);
    case EvInt(n) => PutKeepsWellFormed(d, Int(n), false);
    case EvUInt(u) => PutKeepsWellFormed(d, if u <= MAX_INT64 then Int(u) else UInt(u), false);
    case EvDouble(r) => PutKeepsWellFormed(d, Real(r), false);
    case EvString(s) =>
      if ExpectsKey(d) { KeyKeepsWellFormed(d, s); } else { PutKeepsWellFormed(d, String(s), false); }
    case EvBytes(bytes) => PutKeepsWellFormed(d, Blob(bytes), false);
    case EvBeginArray(_) => PutKeepsWellFormed(d, Array([]), true);
    case EvBeginObject(_) => PutKeepsWellFormed(d, Object(map[]), true);
    case _ => if d.contextStack != [] { EndKeepsWellFormed(d); }
  }

  lemma {:induction false} RunKeepsWellFormed(d: Decoder, events: seq<Event>)
    requires WellFormed(d)
    ensures Run(d, events).Going? ==> WellFormed(Run(d, events).d)
    ensures Run(d, events) == AssertionFailed ==>
              exists i :: 0 <= i < |events| && IsEnd(events[i])
                       && Run(d, events[..i]).Going? && Run(d, events[..i]).d.contextStack == []
    decreases |events|
  {
    if events != [] {
      VisitKeepsWellFormed(d, events[0]);
      var r := Visit(d, events[0]);
      if r.Going? {
        RunKeepsWellFormed(r.d, events[1..]);
        if Run(d, events) == AssertionFailed {
          var i :| 0 <= i < |events[1..]| && IsEnd(events[1..][i])
                   && Run(r.d, events[1..][..i]).Going? && Run(r.d, events[1..][..i]).d.contextStack == [];
          assert events[..i + 1][0] == events[0] && events[..i + 1][1..] == events[1..][..i];
          assert IsEnd(events[i + 1]);
        }
      } else if r == AssertionFailed {
        assert events[..0] == [] && IsEnd(events[0]);
      }
    }
  }

  // ----- The visitor object ---------------------------------------------------------------

  datatype Errc = Success | ExpectedStringKeyErrc

  class VariantDecodingVisitor {
    var contextStack: seq<Context>
    var key: string            // stale once its member has been put
    var variant: Variant
    var hasRoot: bool

    ghost function State(): Decoder
      reads this
    {
      Decoder(contextStack,
              if contextStack != [] && contextStack[|contextStack| - 1].keyIsDone then key else "",
              variant, hasRoot)
    }

    constructor ()
      ensures State() == RESET && WellFormed(State())
    {
      contextStack, key, variant, hasRoot := [], "", Null, false;
    }

    method ResetAll()
      modifies this
      ensures State() == RESET && WellFormed(State())
    {
      contextStack, key, variant, hasRoot := [], "", Null, false;
    }

    method PutValue(value: Variant, isComposite: bool) returns (ec: Errc)
      requires WellFormed(State()) && (isComposite ==> Fresh(value))
      modifies this
      ensures WellFormed(State())
      ensures ec == Success ==> Put(old(State()), value, isComposite) == Going(State())
      ensures ec == ExpectedStringKeyErrc ==>
                Put(old(State()), value, isComposite) == ExpectedStringKey && State() == old(State())
    {
      PutKeepsWellFormed(State(), value, isComposite);
      ec := Success;
      if contextStack == [] {
        SetRoot(value, isComposite);
        return;
      }
      assert ContextFits(variant, Top(State()));
      hide WellFormed, NewestIsChild;
      var context := contextStack[|contextStack| - 1];
      match Get(variant, context.path) {
        case Array(_) => AppendElement(value, isComposite);
        case Object(_) =>
          if !context.keyIsDone {
            return ExpectedStringKeyErrc;
          }
          AssignMember(value, isComposite);
      }
    }

    method SetRoot(value: Variant, isComposite: bool)
      requires contextStack == []
      modifies this
      ensures State() == AddRoot(old(State()), value, isComposite)
    {
      variant := value;
      hasRoot := true;
      if isComposite {
        contextStack := contextStack + [Context([], false, [])];
      }
    }

    method AppendElement(value: Variant, isComposite: bool)
      requires contextStack != [] && !Top(State()).keyIsDone
      requires VariantPaths.Valid(variant, Top(State()).path) && Get(variant, Top(State()).path).Array?
      modifies this
      ensures State() == AddArrayElement(old(State()), value, isComposite)
    {
      hide VariantPaths.Valid, Get, Replace;
      var context := contextStack[|contextStack| - 1];
      var elements := Get(variant, context.path).elements;
      variant := Replace(variant, context.path, Array(elements + [value]));
      contextStack := contextStack[..|contextStack| - 1] + [context.(newest := [Index(|elements|)])];
      if isComposite {
        contextStack := contextStack + [Context(context.path + [Index(|elements|)], false, [])];
      }
    }

    method AssignMember(value: Variant, isComposite: bool)
      requires contextStack != [] && Top(State()).keyIsDone
      requires VariantPaths.Valid(variant, Top(State()).path) && Get(variant, Top(State()).path).Object?
      modifies this
      ensures State() == AddObjectElement(old(State()), value, isComposite)
    {
      hide VariantPaths.Valid, Get, Replace;
      var context := contextStack[|contextStack| - 1];
      var members := Get(variant, context.path).members;
      variant := Replace(variant, context.path, Object(members[key := value]));
      contextStack := contextStack[..|contextStack| - 1] + [Context(context.path, false, [Member(key)])];
      if isComposite {
        contextStack := contextStack + [Context(context.path + [Member(key)], false, [])];
      }
    }

    method PutStringOrKey(s: string)
      requires WellFormed(State())
      modifies this
      ensures WellFormed(State()) && Visit(old(State()), EvString(s)) == Going(State())
    {
      VisitKeepsWellFormed(State(), EvString(s));
      if contextStack != [] {
        assert ContextFits(variant, Top(State()));
        var context := contextStack[|contextStack| - 1];
        if Get(variant, context.path).Object? && !context.keyIsDone {
          hide WellFormed, ContextFits;
          key := s;
          contextStack := contextStack[..|contextStack| - 1] + [context.(keyIsDone := true)];
          return;
        }
      }
      hide WellFormed, ContextFits;
      var _ := PutValue(String(s), false);
    }

    method CloseComposite()
      requires WellFormed(State()) && contextStack != []
      modifies this
      ensures WellFormed(State()) && EndComposite(old(State())) == Going(State())
    {
      EndKeepsWellFormed(State());
      contextStack := contextStack[..|contextStack| - 1];
    }

    /** One visit by the parser; it stops at an error. */
    method VisitEvent(e: Event) returns (ec: Errc)
      requires WellFormed(State()) && !(IsEnd(e) && contextStack == [])
      modifies this
      ensures WellFormed(State())
      ensures Visit(old(State()), e) == if ec == Success then Going(State()) else ExpectedStringKey
    {
      hide WellFormed, Put;
      ec := Success;
      match e {
        case EvNull => ec := PutValue(Null, false);
        case EvBool(b) => ec := PutValue(Bool(b), false);
        case EvInt(n) => ec := PutValue(Int(n), false);
        case EvUInt(u) => ec := PutValue(if u <= MAX_INT64 then Int(u) else UInt(u), false);
        case EvDouble(r) => ec := PutValue(Real(r), false);
        case EvString(s) => PutStringOrKey(s);
        case EvBytes(bytes) => ec := PutValue(Blob(bytes), false);
        case EvBeginArray(_) => var _ := PutValue(Array([]), true);
        case EvBeginObject(_) => var _ := PutValue(Object(map[]), true);
        case EvEndArray => CloseComposite();
        case EvEndObject => CloseComposite();
      }
    }
  }
}

/** Which streams decode: what a member key that is not a string does to the decoder. */
module VariantKeys {
  import opened Variants
  import opened VariantPaths
  import opened VariantDecoding
  import opened VariantCodec

  // ----- The decoder without its tree -----------------------------------------------------

  /** What an open composite waits for. */
  datatype Frame = WantsItem | WantsKey | WantsValue

  datatype Outcome = Reads(frames: seq<Frame>) | NeedsStringKey | Unbalanced

  predicate Refuses(frames: seq<Frame>)
  {
    frames != [] && frames[|frames| - 1] == WantsKey
  }

  /** A value has been read, which leaves an object waiting for its next key. */
  function AfterValue(frames: seq<Frame>): seq<Frame>
  {
    if frames != [] && frames[|frames| - 1] == WantsValue then frames[..|frames| - 1] + [WantsKey] else frames
  }

  function Read(frames: seq<Frame>, e: Event): Outcome
  {
    if IsEnd(e) then
      if frames == [] then Unbalanced else Reads(frames[..|frames| - 1])
    else if Refuses(frames) then
      match e
      case EvString(_) => Reads(frames[..|frames| - 1] + [WantsValue])
      case EvBeginArray(_) => Reads(frames)
      case EvBeginObject(_) => Reads(frames)
      case _ => NeedsStringKey
    else
      Reads(AfterValue(frames) + if e.EvBeginArray? then [WantsItem] else if e.EvBeginObject? then [WantsKey] else [])
  }

  function ReadAll(frames: seq<Frame>, events: seq<Event>): Outcome
    decreases |events|
  {
    if events == [] then Reads(frames)
    else
      var r := Read(frames, events[0]);
      if r.Reads? then ReadAll(r.frames, events[1..]) else r
  }

  /** What is left of a decoder when its tree is taken away. */
  function FrameOf(v: Variant, c: Context): Frame
  {
    if VariantPaths.Valid(v, c.path) && Get(v, c.path).Array? then WantsItem
    else if c.keyIsDone then WantsValue
    else WantsKey
  }

  function Frames(d: Decoder): seq<Frame>
  {
    seq(|d.contextStack|, i requires 0 <= i < |d.contextStack| => FrameOf(d.variant, d.contextStack[i]))
  }

  function FramesOf(r: Result): Outcome
  {
    match r
    case Going(d) => Reads(Frames(d))
    case ExpectedStringKey => NeedsStringKey
    case AssertionFailed => Unbalanced
  }

  lemma LowerFrames(d: Decoder, w: Variant, newest: seq<VariantPaths.Step>)
    requires WellFormed(d) && d.contextStack != [] && NewestIsChild(w, newest)
    ensures VariantPaths.Valid(d.variant, Top(d).path)
    ensures var d1 := Decoder(Pop(d) + [Context(Top(d).path, false, newest)], "",
                              Replace(d.variant, Top(d).path, w), d.hasRoot);
            Frames(d1) == Frames(d)[..|d.contextStack| - 1] + [if w.Array? then WantsItem else WantsKey]
  {
    var n := |d.contextStack|;
    assert ContextFits(d.variant, d.contextStack[n - 1]);
    GetReplace(d.variant, Top(d).path, w);
    var d1 := Decoder(Pop(d) + [Context(Top(d).path, false, newest)], "",
                      Replace(d.variant, Top(d).path, w), d.hasRoot);
    forall i | 0 <= i < n - 1 ensures FrameOf(d1.variant, d1.contextStack[i]) == FrameOf(d.variant, d.contextStack[i]) {
      LowerShape(d, w, i);
    }
  }

  lemma LowerShape(d: Decoder, w: Variant, i: nat)
    requires WellFormed(d) && i < |d.contextStack| - 1
    ensures VariantPaths.Valid(d.variant, Top(d).path)
    ensures FrameOf(Replace(d.variant, Top(d).path, w), d.contextStack[i]) == FrameOf(d.variant, d.contextStack[i])
  {
    var top := |d.contextStack| - 1;
    var p, q := d.contextStack[i].path, d.contextStack[top].path;
    assert ContextFits(d.variant, d.contextStack[top]) && ContextFits(d.variant, d.contextStack[i]);
    AncestorsBelow(d, i, top);
    assert q == p + q[|p|..];
    ReplaceBelow(d.variant, p, q[|p|..], w);
  }

  /** The decoder after a composite was written through the top address, perhaps opening the
      child put into it. */
  function Written(d: Decoder, w: Variant, child: VariantPaths.Step, isComposite: bool): Decoder
    requires d.contextStack != [] && VariantPaths.Valid(d.variant, Top(d).path)
  {
    var path := Top(d).path;
    Decoder(Push(Pop(d) + [Context(path, false, [child])], path + [child], isComposite), "",
            Replace(d.variant, path, w), d.hasRoot)
  }

  lemma WrittenFrames(d: Decoder, w: Variant, child: VariantPaths.Step, value: Variant, isComposite: bool)
    requires WellFormed(d) && d.contextStack != [] && VariantPaths.Valid(d.variant, Top(d).path)
    requires NewestIsChild(w, [child]) && HasChild(w, child) && Child(w, child) == value
    ensures Frames(Written(d, w, child, isComposite))
         == Frames(d)[..|d.contextStack| - 1] + [if w.Array? then WantsItem else WantsKey]
            + if !isComposite then [] else if value.Array? then [WantsItem] else [WantsKey]
  {
    var path := Top(d).path;
    LowerFrames(d, w, [child]);
    GetReplace(d.variant, path, w);
    LastStep(Replace(d.variant, path, w), path, child);
    hide WellFormed, NewestIsChild, Replace;
    if isComposite {
      ChildFrame(Written(d, w, child, false), path + [child], value);
    }
  }

  lemma ChildFrame(d: Decoder, path: Path, value: Variant)
    requires VariantPaths.Valid(d.variant, path) && Get(d.variant, path) == value
    ensures Frames(d.(contextStack := Push(d.contextStack, path, true)))
         == Frames(d) + [if value.Array? then WantsItem else WantsKey]
  {
  }

  lemma PutFrames(d: Decoder, value: Variant, isComposite: bool)
    requires WellFormed(d) && (isComposite ==> Fresh(value))
    ensures var inside := if !isComposite then [] else if value.Array? then [WantsItem] else [WantsKey];
            FramesOf(Put(d, value, isComposite))
            == if Refuses(Frames(d)) then NeedsStringKey else Reads(AfterValue(Frames(d)) + inside)
  {
    if d.contextStack != [] {
      var n := |d.contextStack|;
      assert ContextFits(d.variant, d.contextStack[n - 1]);
      assert Frames(d)[n - 1] == FrameOf(d.variant, Top(d));
      var here := Get(d.variant, Top(d).path);
      if here.Array? {
        var w, child := Array(here.elements + [value]), Index(|here.elements|);
        assert Put(d, value, isComposite) == Going(Written(d, w, child, isComposite));
        hide WellFormed, Put, Written, Get;
        WrittenFrames(d, w, child, value, isComposite);
        assert Frames(d)[..n - 1] + [WantsItem] == Frames(d);
      } else if Top(d).keyIsDone {
        var w, child := Object(here.members[d.key := value]), Member(d.key);
        assert Put(d, value, isComposite) == Going(Written(d, w, child, isComposite));
        hide WellFormed, Put, Written, Get;
        WrittenFrames(d, w, child, value, isComposite);
      }
    }
  }

  lemma VisitFrames(d: Decoder, e: Event)
    requires WellFormed(d)
    ensures FramesOf(Visit(d, e)) == Read(Frames(d), e)
  {
    if d.contextStack != [] {
      assert ContextFits(d.variant, d.contextStack[|d.contextStack| - 1]);
    }
    hide WellFormed, Put, AfterValue;
    match e
    case EvNull => PutFrames(d, Null, false);
    case EvBool(b) => PutFrames(d, Bool(b), false);
    case EvInt(n) => PutFrames(d, Int(n), false);
    case EvUInt(u) => PutFrames(d, if u <= MAX_INT64 then Int(u) else UInt(u), false);
    case EvDouble(r) => PutFrames(d, Real(r), false);
    case EvString(s) => PutFrames(d, String(s), false);
    case EvBytes(bytes) => PutFrames(d, Blob(bytes), false);
    case EvBeginArray(_) => PutFrames(d, Array([]), true);
    case EvBeginObject(_) => PutFrames(d, Object(map[]), true);
    case _ =>
  }

  /** How decoding a stream ends, for every stream whatever: the kinds of the events and one
      frame per open composite decide it. */
  lemma {:induction false} OutcomeIsOfFrames(d: Decoder, events: seq<Event>)
    requires WellFormed(d)
    ensures FramesOf(Run(d, events)) == ReadAll(Frames(d), events)
    decreases |events|
  {
    hide WellFormed, Frames, Visit, Read;
    if events != [] {
      VisitFrames(d, events[0]);
      VisitKeepsWellFormed(d, events[0]);
      var r := Visit(d, events[0]);
      if r.Going? {
        OutcomeIsOfFrames(r.d, events[1..]);
      }
    }
  }

  lemma OutcomeFromReset(events: seq<Event>)
    ensures FramesOf(Run(RESET, events)) == ReadAll([], events)
  {
    OutcomeIsOfFrames(RESET, events);
    assert Frames(RESET) == [];
  }

  lemma {:induction false} ReadConcat(frames: seq<Frame>, first: seq<Event>, second: seq<Event>)
    ensures var r := ReadAll(frames, first);
            ReadAll(frames, first + second) == if r.Reads? then ReadAll(r.frames, second) else r
    decreases |first|
  {
    if first == [] {
      assert first + second == second;
    } else {
      assert (first + second)[0] == first[0] && (first + second)[1..] == first[1..] + second;
      var r := Read(frames, first[0]);
      hide Read;
      if r.Reads? {
        ReadConcat(r.frames, first[1..], second);
      }
    }
  }

  lemma ReadFirst(frames: seq<Frame>, e: Event, later: seq<Event>)
    ensures var r := Read(frames, e); ReadAll(frames, [e] + later) == if r.Reads? then ReadAll(r.frames, later) else r
  {
    assert ([e] + later)[1..] == later;
  }

  // ----- Balance --------------------------------------------------------------------------

  function Weight(e: Event): int
  {
    if IsEnd(e) then -1 else if e.EvBeginArray? || e.EvBeginObject? then 1 else 0
  }

  function Balance(events: seq<Event>): int
  {
    if events == [] then 0 else Weight(events[0]) + Balance(events[1..])
  }

  lemma {:induction false} BalanceConcat(a: seq<Event>, b: seq<Event>)
    ensures Balance(a + b) == Balance(a) + Balance(b)
  {
    if a == [] {
      assert a + b == b;
    } else {
      assert (a + b)[1..] == a[1..] + b;
      BalanceConcat(a[1..], b);
    }
  }

  lemma BracketBalance(first: Event, inner: seq<Event>, last: Event)
    requires Weight(first) == 1 && Weight(last) == -1
    ensures Balance([first] + inner + [last]) == Balance(inner)
  {
    BalanceConcat([first] + inner, [last]);
    BalanceConcat([first], inner);
  }

  lemma {:induction false} DocBalance(doc: Doc)
    ensures Balance(Events(doc)) == 0
    decreases doc, 1
  {
    match doc
    case DArray(items) =>
      ItemsBalance(items);
      BracketBalance(EvBeginArray(|items|), ItemEvents(items), EvEndArray);
    case DObject(members) =>
      MembersBalance(members);
      BracketBalance(EvBeginObject(|members|), MemberEvents(members), EvEndObject);
    case _ => ScalarEvent(doc);
  }

  lemma {:induction false} ItemsBalance(items: seq<Doc>)
    ensures Balance(ItemEvents(items)) == 0
    decreases items, 0
  {
    if items != [] {
      DocBalance(items[0]);
      ItemsBalance(items[1..]);
      BalanceConcat(Events(items[0]), ItemEvents(items[1..]));
    }
  }

  lemma {:induction false} MembersBalance(members: seq<DocMember>)
    ensures Balance(MemberEvents(members)) == 0
    decreases members, 0
  {
    if members != [] {
      assert members decreases to members[0];
      DocBalance(members[0].key);
      DocBalance(members[0].value);
      MembersBalance(members[1..]);
      BalanceConcat(Events(members[0].key) + Events(members[0].value), MemberEvents(members[1..]));
      BalanceConcat(Events(members[0].key), Events(members[0].value));
    }
  }

  /** No more composites are open than the stream has opened and not closed; fewer are if one
      was refused. */
  lemma {:induction false} DepthBounded(frames: seq<Frame>, events: seq<Event>)
    ensures var r := ReadAll(frames, events); r.Reads? ==> |r.frames| <= |frames| + Balance(events)
    decreases |events|
  {
    if events != [] {
      var r := Read(frames, events[0]);
      if r.Reads? {
        DepthBounded(r.frames, events[1..]);
      }
    }
  }

  predicate Sinks(frames: seq<Frame>, events: seq<Event>)
  {
    var r := ReadAll(frames, events);
    r.Reads? ==> |r.frames| < |frames| + Balance(events)
  }

  /** A deficit stays. */
  lemma SinksOn(frames: seq<Frame>, first: seq<Event>, second: seq<Event>)
    requires Sinks(frames, first)
    ensures Sinks(frames, first + second)
  {
    ReadConcat(frames, first, second);
    BalanceConcat(first, second);
    var r := ReadAll(frames, first);
    if r.Reads? {
      DepthBounded(r.frames, second);
    }
  }

  lemma SinksLater(frames: seq<Frame>, first: seq<Event>, second: seq<Event>)
    requires var r := ReadAll(frames, first);
             r.Reads? && |r.frames| == |frames| + Balance(first) && Sinks(r.frames, second)
    ensures Sinks(frames, first + second)
  {
    ReadConcat(frames, first, second);
    BalanceConcat(first, second);
  }

  // ----- Documents ------------------------------------------------------------------------

  predicate IsComposite(doc: Doc)
  {
    doc.DArray? || doc.DObject?
  }

  /** A document with string keys is read where a value may come. */
  lemma {:induction false} StringKeyedReads(frames: seq<Frame>, doc: Doc)
    requires !Refuses(frames) && StringKeyed(doc)
    ensures ReadAll(frames, Events(doc)) == Reads(AfterValue(frames))
    decreases doc, 1
  {
    match doc
    case DArray(items) => ArrayReads(frames, items);
    case DObject(members) => ObjectReads(frames, members);
    case _ => ScalarReads(frames, doc);
  }

  lemma {:induction false} ArrayReads(frames: seq<Frame>, items: seq<Doc>)
    requires !Refuses(frames) && StringKeyed(DArray(items))
    ensures ReadAll(frames, Events(DArray(items))) == Reads(AfterValue(frames))
    decreases items, 1
  {
    var inside := AfterValue(frames) + [WantsItem];
    assert Read(frames, EvBeginArray(|items|)) == Reads(inside);
    assert Read(inside, EvEndArray) == Reads(AfterValue(frames));
    assert !Refuses(inside) && AfterValue(inside) == inside;
    hide AfterValue, Refuses, Read, ReadAll, ItemEvents, StringKeyed;
    ItemsReads(inside, items);
    BracketedReads(frames, inside, EvBeginArray(|items|), ItemEvents(items), EvEndArray);
  }

  lemma {:induction false} ObjectReads(frames: seq<Frame>, members: seq<DocMember>)
    requires !Refuses(frames) && StringMembers(members)
    ensures ReadAll(frames, Events(DObject(members))) == Reads(AfterValue(frames))
    decreases members, 1
  {
    var inside := AfterValue(frames) + [WantsKey];
    assert Read(frames, EvBeginObject(|members|)) == Reads(inside);
    assert Read(inside, EvEndObject) == Reads(AfterValue(frames));
    assert Refuses(inside);
    hide AfterValue, Refuses, Read, ReadAll, MemberEvents, StringMembers;
    MembersReads(inside, members);
    BracketedReads(frames, inside, EvBeginObject(|members|), MemberEvents(members), EvEndObject);
  }

  lemma ScalarEvent(doc: Doc)
    requires !IsComposite(doc)
    ensures |Events(doc)| == 1
    ensures var e := Events(doc)[0];
            !IsEnd(e) && !e.EvBeginArray? && !e.EvBeginObject? && (e.EvString? <==> doc.DString?)
  {
  }

  lemma ScalarReads(frames: seq<Frame>, doc: Doc)
    requires !IsComposite(doc)
    ensures !Refuses(frames) ==> ReadAll(frames, Events(doc)) == Reads(AfterValue(frames))
    ensures Refuses(frames) ==>
              ReadAll(frames, Events(doc))
              == if doc.DString? then Reads(frames[..|frames| - 1] + [WantsValue]) else NeedsStringKey
  {
    ScalarEvent(doc);
    hide Events, AfterValue;
    var e := Events(doc)[0];
    assert Events(doc) == [e] + [];
    ReadFirst(frames, e, []);
    assert AfterValue(frames) + [] == AfterValue(frames);
  }

  lemma BracketedReads(frames: seq<Frame>, inside: seq<Frame>, first: Event, inner: seq<Event>, last: Event)
    requires Read(frames, first) == Reads(inside) && IsEnd(last)
    ensures var r := ReadAll(inside, inner);
            ReadAll(frames, [first] + inner + [last]) == if r.Reads? then Read(r.frames, last) else r
  {
    assert [first] + inner + [last] == [first] + (inner + [last]);
    assert ([first] + (inner + [last]))[1..] == inner + [last];
    ReadConcat(inside, inner, [last]);
    assert [last][1..] == [];
  }

  lemma {:induction false} ItemsReads(frames: seq<Frame>, items: seq<Doc>)
    requires AfterValue(frames) == frames && !Refuses(frames) && StringKeyed(DArray(items))
    ensures ReadAll(frames, ItemEvents(items)) == Reads(frames)
    decreases items, 0
  {
    if items != [] {
      StringKeyedReads(frames, items[0]);
      ReadConcat(frames, Events(items[0]), ItemEvents(items[1..]));
      ItemsReads(frames, items[1..]);
    }
  }

  lemma {:induction false} MembersReads(frames: seq<Frame>, members: seq<DocMember>)
    requires Refuses(frames) && StringMembers(members)
    ensures ReadAll(frames, MemberEvents(members)) == Reads(frames)
    decreases members, 0
  {
    if members != [] {
      var key, value := members[0].key, members[0].value;
      assert members decreases to members[0];
      ScalarReads(frames, key);
      var open := frames[..|frames| - 1] + [WantsValue];
      StringKeyedReads(open, value);
      assert AfterValue(open) == frames;
      ReadConcat(frames, Events(key) + Events(value), MemberEvents(members[1..]));
      ReadConcat(frames, Events(key), Events(value));
      MembersReads(frames, members[1..]);
    }
  }

  /** Every other document ends in an error or with a deficit. */
  lemma {:induction false} OthersSink(frames: seq<Frame>, doc: Doc)
    requires !Refuses(frames) && !StringKeyed(doc)
    ensures Sinks(frames, Events(doc))
    decreases doc, 1
  {
    match doc
    case DArray(items) =>
      ItemsSink(AfterValue(frames) + [WantsItem], items);
      BracketSinks(frames, AfterValue(frames) + [WantsItem], EvBeginArray(|items|), ItemEvents(items), EvEndArray);
    case DObject(members) =>
      MembersSink(AfterValue(frames) + [WantsKey], members);
      BracketSinks(frames, AfterValue(frames) + [WantsKey],
                   EvBeginObject(|members|), MemberEvents(members), EvEndObject);
  }

  lemma BracketSinks(frames: seq<Frame>, inside: seq<Frame>, first: Event, inner: seq<Event>, last: Event)
    requires Read(frames, first) == Reads(inside) && |inside| == |frames| + 1 && Weight(first) == 1 && IsEnd(last)
    requires Sinks(inside, inner)
    ensures Sinks(frames, [first] + inner + [last])
  {
    assert ReadAll(frames, [first]) == Reads(inside) && Balance([first]) == 1 by {
      assert [first][1..] == [];
    }
    SinksLater(frames, [first], inner);
    SinksOn(frames, [first] + inner, [last]);
  }

  lemma {:induction false} ItemsSink(frames: seq<Frame>, items: seq<Doc>)
    requires AfterValue(frames) == frames && !Refuses(frames) && !StringKeyed(DArray(items))
    ensures Sinks(frames, ItemEvents(items))
    decreases items, 0
  {
    if StringKeyed(items[0]) {
      StringKeyedReads(frames, items[0]);
      DocBalance(items[0]);
      ItemsSink(frames, items[1..]);
      SinksLater(frames, Events(items[0]), ItemEvents(items[1..]));
    } else {
      OthersSink(frames, items[0]);
      SinksOn(frames, Events(items[0]), ItemEvents(items[1..]));
    }
  }

  /** A composite where a key should be is not opened, and its end closes the object. */
  lemma RefusedKeySinks(frames: seq<Frame>, key: Doc)
    requires Refuses(frames) && !key.DString?
    ensures Sinks(frames, Events(key))
  {
    if IsComposite(key) {
      var e, rest := Events(key)[0], Events(key)[1..];
      DocBalance(key);
      DepthBounded(frames, rest);
    } else {
      ScalarReads(frames, key);
    }
  }

  lemma {:induction false} MembersSink(frames: seq<Frame>, members: seq<DocMember>)
    requires Refuses(frames) && !StringMembers(members)
    ensures Sinks(frames, MemberEvents(members))
    decreases members, 0
  {
    var key, value, later := members[0].key, members[0].value, MemberEvents(members[1..]);
    assert members decreases to members[0];
    assert MemberEvents(members) == Events(key) + Events(value) + later;
    hide Events, MemberEvents, ReadAll, Balance, Sinks;
    if !key.DString? {
      RefusedKeySinks(frames, key);
      SinksOn(frames, Events(key), Events(value));
      SinksOn(frames, Events(key) + Events(value), later);
    } else {
      ScalarReads(frames, key);
      var open := frames[..|frames| - 1] + [WantsValue];
      DocBalance(key);
      if !StringKeyed(value) {
        OthersSink(open, value);
        SinksLater(frames, Events(key), Events(value));
        SinksOn(frames, Events(key) + Events(value), later);
      } else {
        StringKeyedReads(open, value);
        assert AfterValue(open) == frames;
        ReadConcat(frames, Events(key), Events(value));
        DocBalance(value);
        BalanceConcat(Events(key), Events(value));
        MembersSink(frames, members[1..]);
        SinksLater(frames, Events(key) + Events(value), later);
      }
    }
  }

  /** The decoder accepts the stream of a document if and only if every member key, at every
      depth, is a string. */
  lemma DecodesIffStringKeyed(doc: Doc)
    ensures Run(RESET, Events(doc)).Going? <==> StringKeyed(doc)
  {
    OutcomeFromReset(Events(doc));
    hide Frames, Read;
    if StringKeyed(doc) {
      StringKeyedReads([], doc);
    } else {
      OthersSink([], doc);
      DocBalance(doc);
    }
  }

  // ----- Which keys trip the assertion ----------------------------------------------------

  /** Read in the place of a key, the parts of this composite come as members of the object
      around it: whenever a key is due a string comes, or again such a composite. */
  predicate Trips(key: Doc)
    decreases key, 1
  {
    match key
    case DArray(items) => TripsItems(items)
    case DObject(_) => true
    case _ => false
  }

  predicate TripsItems(items: seq<Doc>)
    decreases items, 0
  {
    || items == []
    || (if items[0].DString? then |items| == 1 || TripsItems(items[2..]) else Trips(items[0]))
  }

  /** The end of such a composite closes the root object; if one is inside another, there are
      too many ends at once. */
  lemma {:induction false} KeyReads(key: Doc, later: seq<Event>)
    requires StringKeyed(key) && !key.DString?
    ensures var r := ReadAll([WantsKey], Events(key) + later);
            if Trips(key) then r == Unbalanced || r == ReadAll([], later) else r == NeedsStringKey
    decreases key, 1
  {
    match key
    case DArray(items) =>
      BeginRefused(EvBeginArray(|items|), ItemEvents(items), EvEndArray, later);
      KeyItemsRead(items, EvEndArray, later);
    case DObject(members) =>
      BeginRefused(EvBeginObject(|members|), MemberEvents(members), EvEndObject, later);
      MembersReads([WantsKey], members);
      ReadConcat([WantsKey], MemberEvents(members), [EvEndObject] + later);
      ReadFirst([WantsKey], EvEndObject, later);
    case _ =>
      ScalarReads([WantsKey], key);
      ReadConcat([WantsKey], Events(key), later);
  }

  lemma BeginRefused(first: Event, inner: seq<Event>, last: Event, later: seq<Event>)
    requires first.EvBeginArray? || first.EvBeginObject?
    ensures ReadAll([WantsKey], [first] + inner + [last] + later) == ReadAll([WantsKey], inner + ([last] + later))
  {
    assert [first] + inner + [last] + later == [first] + (inner + ([last] + later));
    ReadFirst([WantsKey], first, inner + ([last] + later));
  }

  lemma ReadsThen(frames: seq<Frame>, doc: Doc, later: seq<Event>)
    requires !Refuses(frames) && StringKeyed(doc)
    ensures ReadAll(frames, Events(doc) + later) == ReadAll(AfterValue(frames), later)
  {
    StringKeyedReads(frames, doc);
    ReadConcat(frames, Events(doc), later);
  }

  lemma StringKeyThen(key: Doc, later: seq<Event>)
    requires key.DString?
    ensures ReadAll([WantsKey], Events(key) + later) == ReadAll([WantsValue], later)
  {
    ScalarReads([WantsKey], key);
    ReadConcat([WantsKey], Events(key), later);
  }

  lemma ItemsAtRoot(items: seq<Doc>, last: Event, later: seq<Event>)
    requires StringKeyed(DArray(items)) && IsEnd(last)
    ensures ReadAll([], ItemEvents(items) + ([last] + later)) == Unbalanced
  {
    ItemsReads([], items);
    ReadConcat([], ItemEvents(items), [last] + later);
    ReadFirst([], last, later);
  }

  lemma {:induction false} KeyItemsRead(items: seq<Doc>, last: Event, later: seq<Event>)
    requires StringKeyed(DArray(items)) && IsEnd(last)
    ensures var r := ReadAll([WantsKey], ItemEvents(items) + ([last] + later));
            if TripsItems(items) then r == Unbalanced || r == ReadAll([], later) else r == NeedsStringKey
    decreases items, 0
  {
    var end := [last] + later;
    ReadFirst([WantsKey], last, later);
    ReadFirst([WantsValue], last, later);
    hide ReadAll, Events, Trips, StringKeyed;
    if items == [] {
      assert ItemEvents(items) + end == end;
    } else {
      var rest := items[1..];
      assert StringKeyed(DArray(rest)) && StringKeyed(items[0]) by { StringKeyedParts(items); }
      assert ItemEvents(items) + end == Events(items[0]) + (ItemEvents(rest) + end);
      if !items[0].DString? {
        KeyReads(items[0], ItemEvents(rest) + end);
        ItemsAtRoot(rest, last, later);
      } else {
        StringKeyThen(items[0], ItemEvents(rest) + end);
        if rest == [] {
          assert ItemEvents(rest) + end == end;
        } else {
          StringKeyedParts(rest);
          assert rest[1..] == items[2..];
          assert ItemEvents(rest) + end == Events(rest[0]) + (ItemEvents(rest[1..]) + end);
          assert AfterValue([WantsValue]) == [WantsKey];
          ReadsThen([WantsValue], rest[0], ItemEvents(rest[1..]) + end);
          KeyItemsRead(items[2..], last, later);
        }
      }
    }
  }

  lemma StringKeyedParts(items: seq<Doc>)
    requires StringKeyed(DArray(items)) && items != []
    ensures StringKeyed(items[0]) && StringKeyed(DArray(items[1..]))
  {
  }

  lemma {:induction false} MemberEventsConcat(before: seq<DocMember>, after: seq<DocMember>)
    ensures MemberEvents(before + after) == MemberEvents(before) + MemberEvents(after)
  {
    if before == [] {
      assert before + after == after;
    } else {
      assert (before + after)[1..] == before[1..] + after;
      MemberEventsConcat(before[1..], after);
    }
  }

  lemma {:induction false} MembersAtRoot(members: seq<DocMember>)
    requires StringMembers(members)
    ensures ReadAll([], MemberEvents(members)) == Reads([])
  {
    if members != [] {
      var m := members[0];
      StringKeyedReads([], m.key);
      StringKeyedReads([], m.value);
      ReadConcat([], Events(m.key), Events(m.value));
      ReadConcat([], Events(m.key) + Events(m.value), MemberEvents(members[1..]));
      MembersAtRoot(members[1..]);
    }
  }

  /** What comes after the root object was closed is read as new roots, and the end that belongs
      to the object is one too many. */
  lemma TooManyEnds(value: Doc, after: seq<DocMember>)
    requires StringKeyed(value) && StringMembers(after)
    ensures ReadAll([], Events(value) + MemberEvents(after) + [EvEndObject]) == Unbalanced
  {
    StringKeyedReads([], value);
    MembersAtRoot(after);
    ReadConcat([], Events(value), MemberEvents(after));
    ReadConcat([], Events(value) + MemberEvents(after), [EvEndObject]);
    assert [EvEndObject] + [] == [EvEndObject];
    ReadFirst([], EvEndObject, []);
  }

  lemma Regroup(e: Event, b: seq<Event>, k: seq<Event>, v: seq<Event>, a: seq<Event>, z: Event)
    ensures [e] + (b + (k + v) + a) + [z] == [e] + (b + (k + (v + a + [z])))
  {
  }

  lemma ObjectEvents(before: seq<DocMember>, key: Doc, value: Doc, after: seq<DocMember>)
    ensures var members := before + [DocMember(key, value)] + after;
            Events(DObject(members))
            == [EvBeginObject(|members|)]
               + (MemberEvents(before) + (Events(key) + (Events(value) + MemberEvents(after) + [EvEndObject])))
  {
    var members := before + [DocMember(key, value)] + after;
    assert MemberEvents([DocMember(key, value)]) == Events(key) + Events(value) by {
      assert [DocMember(key, value)][1..] == [];
    }
    assert Events(DObject(members)) == [EvBeginObject(|members|)] + MemberEvents(members) + [EvEndObject];
    hide Events, MemberEvents;
    MemberEventsConcat(before + [DocMember(key, value)], after);
    MemberEventsConcat(before, [DocMember(key, value)]);
    Regroup(EvBeginObject(|members|), MemberEvents(before), Events(key), Events(value),
            MemberEvents(after), EvEndObject);
  }

  /** A root object with one key that is not a string: the decoder trips its assertion if and
      only if the parts of that key can pass for members, and otherwise reports the error. */
  lemma OneOtherKey(before: seq<DocMember>, key: Doc, value: Doc, after: seq<DocMember>)
    requires StringMembers(before) && StringMembers(after) && StringKeyed(value)
    requires StringKeyed(key) && !key.DString?
    ensures Run(RESET, Events(DObject(before + [DocMember(key, value)] + after)))
         == if Trips(key) then AssertionFailed else ExpectedStringKey
  {
    var members := before + [DocMember(key, value)] + after;
    var later := Events(value) + MemberEvents(after) + [EvEndObject];
    ObjectEvents(before, key, value, after);
    OutcomeFromReset(Events(DObject(members)));
    assert Read([], EvBeginObject(|members|)) == Reads([WantsKey]);
    ReadFirst([], EvBeginObject(|members|), MemberEvents(before) + (Events(key) + later));
    MembersReads([WantsKey], before);
    ReadConcat([WantsKey], MemberEvents(before), Events(key) + later);
    hide Events, ReadAll, Read, Frames, MemberEvents, Run;
    KeyReads(key, later);
    TooManyEnds(value, after);
  }

  /** The empty array as a key trips the assertion; an array that starts with null does not. */
  lemma CompositeKeyUnbalances()
    ensures Run(RESET, Events(DObject([DocMember(DArray([]), DNull)]))) == AssertionFailed
    ensures Run(RESET, Events(DObject([DocMember(DArray([DNull]), DNull)]))) == ExpectedStringKey
  {
    OneOtherKey([], DArray([]), DNull, []);
    OneOtherKey([], DArray([DNull]), DNull, []);
    assert [] + [DocMember(DArray([]), DNull)] + [] == [DocMember(DArray([]), DNull)];
    assert [] + [DocMember(DArray([DNull]), DNull)] + [] == [DocMember(DArray([DNull]), DNull)];
  }
}

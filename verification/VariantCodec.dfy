/** Bracketed event streams, the recursive reading of them, and the proof that the decoder
    reads them that way. */
module VariantCodec {
  import opened Variants
  import opened VariantPaths
  import opened VariantDecoding

  /** A bracketed stream as a tree: object members in stream order, where a key may come more
      than once and need not be a string. */
  datatype Doc =
    | DNull
    | DBool(b: bool)
    | DInt(n: Int64)
    | DUInt(u: UInt64)
    | DReal(r: Double)
    | DString(s: string)
    | DBlob(bytes: seq<bv8>)
    | DArray(items: seq<Doc>)
    | DObject(members: seq<DocMember>)

  datatype DocMember = DocMember(key: Doc, value: Doc)

  function Events(doc: Doc): seq<Event>
  {
    match doc
    case DNull => [EvNull]
    case DBool(b) => [EvBool(b)]
    case DInt(n) => [EvInt(n)]
    case DUInt(u) => [EvUInt(u)]
    case DReal(r) => [EvDouble(r)]
    case DString(s) => [EvString(s)]
    case DBlob(bytes) => [EvBytes(bytes)]
    case DArray(items) => [EvBeginArray(|items|)] + ItemEvents(items) + [EvEndArray]
    case DObject(members) => [EvBeginObject(|members|)] + MemberEvents(members) + [EvEndObject]
  }

  function ItemEvents(items: seq<Doc>): seq<Event>
  {
    if items == [] then [] else Events(items[0]) + ItemEvents(items[1..])
  }

  function MemberEvents(members: seq<DocMember>): seq<Event>
  {
    if members == [] then []
    else
      assert members decreases to members[0];
      Events(members[0].key) + Events(members[0].value) + MemberEvents(members[1..])
  }

  /** Every member key, at every depth, is a string. */
  predicate StringKeyed(doc: Doc)
  {
    match doc
    case DArray(items) => forall i :: 0 <= i < |items| ==> StringKeyed(items[i])
    case DObject(members) => StringMembers(members)
    case _ => true
  }

  predicate StringMembers(members: seq<DocMember>)
  {
    forall i :: 0 <= i < |members| ==>
      assert members decreases to members[i]; members[i].key.DString? && StringKeyed(members[i].value)
  }

  /** The recursive reading of a stream with string keys; of members with the same key the last
      one counts. */
  function Build(doc: Doc): Variant
    requires StringKeyed(doc)
  {
    match doc
    case DNull => Null
    case DBool(b) => Bool(b)
    case DInt(n) => Int(n)
    case DUInt(u) => if u <= MAX_INT64 then Int(u) else UInt(u)
    case DReal(r) => Real(r)
    case DString(s) => String(s)
    case DBlob(bytes) => Blob(bytes)
    case DArray(items) => Array(BuildItems([], items))
    case DObject(members) => Object(BuildMembers(map[], members))
  }

  function BuildItems(before: seq<Variant>, items: seq<Doc>): (a: seq<Variant>)
    requires forall i :: 0 <= i < |items| ==> StringKeyed(items[i])
    decreases items
  {
    if items == [] then before else BuildItems(before + [Build(items[0])], items[1..])
  }

  function BuildMembers(before: map<string, Variant>, members: seq<DocMember>): map<string, Variant>
    requires StringMembers(members)
    decreases members
  {
    if members == [] then before
    else
      assert members decreases to members[0];
      BuildMembers(before[members[0].key.s := Build(members[0].value)], members[1..])
  }

  // ----- Reading one value ----------------------------------------------------------------

  /** A value may come now: the stack is empty, an array is on top, or an object that holds
      the key of its next member. */
  predicate Accepts(d: Decoder)
  {
    || d.contextStack == []
    || (VariantPaths.Valid(d.variant, Top(d).path) &&
        (Get(d.variant, Top(d).path).Array? || (Get(d.variant, Top(d).path).Object? && Top(d).keyIsDone)))
  }

  /** The state while a composite is open, of which a part has been read. */
  function Opened(d: Decoder, part: Variant, newest: seq<Step>): Decoder
    requires Accepts(d)
  {
    var d1 := Put(d, part, true).d;
    d1.(contextStack := Pop(d1) + [Top(d1).(newest := newest)])
  }

  function LastIndex(a: seq<Variant>): seq<VariantPaths.Step>
  {
    if a == [] then [] else [Index(|a| - 1)]
  }

  lemma RootOpened(d: Decoder, part: Variant, newest: seq<VariantPaths.Step>)
    requires d.contextStack == []
    ensures Opened(d, part, newest) == Decoder([Context([], false, newest)], d.key, part, true)
  {
  }

  /** An open composite stands where its parent put it, can be written there, and closing it
      leaves what putting it whole would have left. */
  lemma OpenedWrites(d: Decoder, part: Variant, newest: seq<VariantPaths.Step>,
                     w: Variant, newest': seq<VariantPaths.Step>)
    requires WellFormed(d) && Accepts(d)
    ensures var d1 := Opened(d, part, newest);
            && d1.contextStack != [] && Top(d1) == Context(Top(d1).path, false, newest)
            && VariantPaths.Valid(d1.variant, Top(d1).path) && Get(d1.variant, Top(d1).path) == part
            && Opened(d, w, newest') == Decoder(Pop(d1) + [Context(Top(d1).path, false, newest')], "",
                                                Replace(d1.variant, Top(d1).path, w), true)
            && EndComposite(d1) == Put(d, part, false)
  {
    if d.contextStack == [] {
      RootOpened(d, part, newest);
      RootOpened(d, w, newest');
    } else {
      var path, child := Top(d).path, NextChild(d);
      InsideOpened(d, part, newest);
      InsideOpened(d, w, newest');
      ContainerWithChild(d.variant, path, child, part, w);
      var d1 := Opened(d, part, newest);
      hide VariantPaths.Valid, Get, Replace, Opened, Put, WellFormed, Accepts, Placed;
      assert Pop(d1) == Pop(d) + [Context(path, false, [child])];
    }
  }

  /** Where a value accepted inside a composite goes. */
  function NextChild(d: Decoder): VariantPaths.Step
    requires Accepts(d) && d.contextStack != []
  {
    var here := Get(d.variant, Top(d).path);
    if here.Array? then Index(|here.elements|) else Member(d.key)
  }

  lemma InsideOpened(d: Decoder, part: Variant, newest: seq<VariantPaths.Step>)
    requires WellFormed(d) && Accepts(d) && d.contextStack != []
    ensures var path, child := Top(d).path, NextChild(d);
            var v := Placed(d.variant, path, child, part);
            && Put(d, part, false) == Going(Decoder(Pop(d) + [Context(path, false, [child])], "", v, true))
            && Opened(d, part, newest)
            == Decoder(Pop(d) + [Context(path, false, [child])] + [Context(path + [child], false, newest)], "", v, true)
  {
    assert !Get(d.variant, Top(d).path).Object? ==> !Top(d).keyIsDone && d.key == "";
    hide VariantPaths.Valid, Get, Replace, WellFormed;
  }

  /** The tree with a value placed as a new last element, or as a member, of a composite. */
  function Placed(v: Variant, path: Path, child: VariantPaths.Step, value: Variant): Variant
    requires VariantPaths.Valid(v, path)
    requires child.Index? ==> Get(v, path).Array? && child.i == |Get(v, path).elements|
    requires child.Member? ==> Get(v, path).Object?
  {
    match child
    case Index(_) => Replace(v, path, Array(Get(v, path).elements + [value]))
    case Member(k) => Replace(v, path, Object(Get(v, path).members[k := value]))
  }

  lemma ContainerWithChild(v: Variant, path: Path, child: VariantPaths.Step, value: Variant, w: Variant)
    requires VariantPaths.Valid(v, path)
    requires child.Index? ==> Get(v, path).Array? && child.i == |Get(v, path).elements|
    requires child.Member? ==> Get(v, path).Object?
    ensures var v1 := Placed(v, path, child, value);
            && VariantPaths.Valid(v1, path + [child]) && Get(v1, path + [child]) == value
            && Replace(v1, path + [child], w) == Placed(v, path, child, w)
  {
    var v1 := Placed(v, path, child, value);
    var new1 := if child.Index? then Array(Get(v, path).elements + [value])
                else Object(Get(v, path).members[child.key := value]);
    var new2 := if child.Index? then Array(Get(v, path).elements + [w])
                else Object(Get(v, path).members[child.key := w]);
    GetReplace(v, path, new1);
    ReplaceReplace(v, path, new1, new2);
    LastStep(v1, path, child);
    assert SetChild(new1, child, w) == new2 by {
      if child.Index? {
        assert (Get(v, path).elements + [value])[child.i := w] == Get(v, path).elements + [w];
      } else {
        assert Get(v, path).members[child.key := value][child.key := w] == Get(v, path).members[child.key := w];
      }
    }
  }

  lemma OpenedIsWellFormed(d: Decoder, part: Variant, newest: seq<VariantPaths.Step>)
    requires WellFormed(d) && Accepts(d) && NewestIsChild(part, newest)
    ensures WellFormed(Opened(d, part, newest))
  {
    var empty := Opened(d, Array([]), []);
    assert empty == Put(d, Array([]), true).d;
    PutKeepsWellFormed(d, Array([]), true);
    OpenedWrites(d, Array([]), [], part, newest);
    hide WellFormed, Opened, VariantPaths.Valid, Get, Replace;
    TopWritten(empty, part, newest);
    assert empty.hasRoot;
  }

  // ----- The stack machine reads as the recursion does ------------------------------------

  lemma OpenedAccepts(d: Decoder, a: seq<Variant>)
    requires WellFormed(d) && Accepts(d)
    ensures var d1 := Opened(d, Array(a), LastIndex(a)); WellFormed(d1) && Accepts(d1)
  {
    OpenedIsWellFormed(d, Array(a), LastIndex(a));
    OpenedWrites(d, Array(a), LastIndex(a), Null, []);
    hide Opened, WellFormed, VariantPaths.Valid, Get, Replace;
  }

  lemma OpenedAppends(d: Decoder, a: seq<Variant>, x: Variant)
    requires WellFormed(d) && Accepts(d)
    ensures Put(Opened(d, Array(a), LastIndex(a)), x, false) == Going(Opened(d, Array(a + [x]), LastIndex(a + [x])))
  {
    OpenedWrites(d, Array(a), LastIndex(a), Array(a), LastIndex(a));
    OpenedWrites(d, Array(a), LastIndex(a), Array(a + [x]), LastIndex(a + [x]));
    hide Opened, WellFormed, VariantPaths.Valid, Get, Replace, Accepts;
  }

  lemma OpenedTakesKey(d: Decoder, m: map<string, Variant>, newest: seq<VariantPaths.Step>, key: string)
    requires WellFormed(d) && Accepts(d) && NewestIsChild(Object(m), newest)
    ensures var d1 := Opened(d, Object(m), newest);
            && ExpectsKey(d1) && WellFormed(PutKey(d1, key)) && Accepts(PutKey(d1, key))
            && Visit(d1, EvString(key)) == Going(PutKey(d1, key))
  {
    var d1 := Opened(d, Object(m), newest);
    OpenedIsWellFormed(d, Object(m), newest);
    OpenedWrites(d, Object(m), newest, Null, []);
    hide Opened, WellFormed, VariantPaths.Valid, Get, Replace, NewestIsChild;
    assert ExpectsKey(d1);
    KeyKeepsWellFormed(d1, key);
    assert Top(PutKey(d1, key)) == Top(d1).(keyIsDone := true);
  }

  lemma OpenedAssigns(d: Decoder, m: map<string, Variant>, newest: seq<VariantPaths.Step>, key: string, x: Variant)
    requires WellFormed(d) && Accepts(d)
    ensures var d1 := Opened(d, Object(m), newest);
            d1.contextStack != [] && Put(PutKey(d1, key), x, false)
            == Going(Opened(d, Object(m[key := x]), [Member(key)]))
  {
    var d1 := Opened(d, Object(m), newest);
    OpenedWrites(d, Object(m), newest, Object(m), newest);
    OpenedWrites(d, Object(m), newest, Object(m[key := x]), [Member(key)]);
    hide Opened, WellFormed, VariantPaths.Valid, Get, Replace, Accepts;
    assert Pop(PutKey(d1, key)) == Pop(d1);
  }

  lemma BeginOpens(d: Decoder, n: nat)
    requires WellFormed(d) && Accepts(d)
    ensures Visit(d, EvBeginArray(n)) == Going(Opened(d, Array([]), []))
    ensures Visit(d, EvBeginObject(n)) == Going(Opened(d, Object(map[]), []))
  {
    PutOpens(d, Array([]));
    PutOpens(d, Object(map[]));
    hide Put, Opened, Accepts;
  }

  lemma PutOpens(d: Decoder, part: Variant)
    requires WellFormed(d) && Accepts(d)
    ensures Put(d, part, true) == Going(Opened(d, part, []))
  {
    if d.contextStack == [] {
      RootOpened(d, part, []);
    } else {
      InsideOpened(d, part, []);
    }
    hide WellFormed, Opened;
    assert Top(Put(d, part, true).d).newest == [];
    var d1 := Put(d, part, true).d;
    assert Pop(d1) + [Top(d1)] == d1.contextStack;
  }

  lemma EndCloses(d: Decoder, whole: Variant, newest: seq<VariantPaths.Step>)
    requires WellFormed(d) && Accepts(d)
    ensures Visit(Opened(d, whole, newest), EvEndArray) == Put(d, whole, false)
    ensures Visit(Opened(d, whole, newest), EvEndObject) == Put(d, whole, false)
    ensures Put(d, whole, false).Going?
  {
    OpenedWrites(d, whole, newest, Null, []);
    hide Opened, Put;
  }

  /** Reading all events of a value does what putting the whole value at once would do. */
  lemma {:induction false} ValueRead(d: Decoder, doc: Doc)
    requires WellFormed(d) && Accepts(d) && StringKeyed(doc)
    ensures Run(d, Events(doc)) == Put(d, Build(doc), false) && Put(d, Build(doc), false).Going?
    decreases doc
  {
    match doc
    case DArray(items) => ArrayRead(d, items);
    case DObject(members) => ObjectRead(d, members);
    case _ => ScalarRead(d, Events(doc)[0]);
  }

  lemma ScalarRead(d: Decoder, e: Event)
    requires Accepts(d) && Visit(d, e).Going?
    ensures Run(d, [e]) == Visit(d, e)
  {
    assert [e][1..] == [];
  }

  lemma {:induction false} ArrayRead(d: Decoder, items: seq<Doc>)
    requires WellFormed(d) && Accepts(d) && StringKeyed(DArray(items))
    ensures Run(d, Events(DArray(items))) == Put(d, Build(DArray(items)), false)
    ensures Put(d, Build(DArray(items)), false).Going?
    decreases items, 1
  {
    var all := BuildItems([], items);
    hide Opened, WellFormed, Accepts, Put, Visit, Run, ItemEvents, BuildItems;
    BeginOpens(d, |items|);
    assert LastIndex([]) == [];
    ItemsRead(d, [], items);
    EndCloses(d, Array(all), LastIndex(all));
    Bracketed(d, EvBeginArray(|items|), ItemEvents(items), EvEndArray);
  }

  lemma Bracketed(d: Decoder, first: Event, inner: seq<Event>, last: Event)
    requires Visit(d, first).Going? && Run(Visit(d, first).d, inner).Going?
    ensures Run(d, [first] + inner + [last]) == Visit(Run(Visit(d, first).d, inner).d, last)
  {
    var events := [first] + inner + [last];
    assert events[0] == first && events[1..] == inner + [last];
    RunConcat(Visit(d, first).d, inner, [last]);
    assert [last][1..] == [];
  }

  lemma {:induction false} ItemsRead(d: Decoder, before: seq<Variant>, items: seq<Doc>)
    requires WellFormed(d) && Accepts(d) && StringKeyed(DArray(items))
    ensures var all := BuildItems(before, items);
            Run(Opened(d, Array(before), LastIndex(before)), ItemEvents(items))
            == Going(Opened(d, Array(all), LastIndex(all)))
    decreases items, 0
  {
    hide Opened, WellFormed, Accepts, Put, LastIndex, Events, Build;
    if items != [] {
      var d1 := Opened(d, Array(before), LastIndex(before));
      OpenedAccepts(d, before);
      OpenedAppends(d, before, Build(items[0]));
      ValueRead(d1, items[0]);
      RunConcat(d1, Events(items[0]), ItemEvents(items[1..]));
      hide Run;
      ItemsRead(d, before + [Build(items[0])], items[1..]);
    }
  }

  function LastMember(newest: seq<VariantPaths.Step>, members: seq<DocMember>): seq<VariantPaths.Step>
    requires StringMembers(members)
  {
    if members == [] then newest else [Member(members[|members| - 1].key.s)]
  }

  lemma {:induction false} ObjectRead(d: Decoder, members: seq<DocMember>)
    requires WellFormed(d) && Accepts(d) && StringMembers(members)
    ensures Run(d, Events(DObject(members))) == Put(d, Build(DObject(members)), false)
    ensures Put(d, Build(DObject(members)), false).Going?
    decreases members, 1
  {
    var all := BuildMembers(map[], members);
    hide Opened, WellFormed, Accepts, Put, Visit, Run, MemberEvents, BuildMembers, LastMember;
    BeginOpens(d, |members|);
    MembersRead(d, map[], [], members);
    EndCloses(d, Object(all), LastMember([], members));
    Bracketed(d, EvBeginObject(|members|), MemberEvents(members), EvEndObject);
  }

  lemma {:induction false} MembersRead(d: Decoder, before: map<string, Variant>, newest: seq<VariantPaths.Step>,
                                       members: seq<DocMember>)
    requires WellFormed(d) && Accepts(d) && NewestIsChild(Object(before), newest) && StringMembers(members)
    ensures Run(Opened(d, Object(before), newest), MemberEvents(members))
         == Going(Opened(d, Object(BuildMembers(before, members)), LastMember(newest, members)))
    decreases members, 0
  {
    hide Opened, WellFormed, Accepts, Put, Events, Build, Visit;
    if members != [] {
      var m, rest := members[0], members[1..];
      MemberRead(d, before, newest, m, MemberEvents(rest));
      assert MemberEvents(members) == [EvString(m.key.s)] + Events(m.value) + MemberEvents(rest) by {
        KeyEvent(m.key);
      }
      hide Run;
      MembersRead(d, before[m.key.s := Build(m.value)], [Member(m.key.s)], rest);
      assert LastMember([Member(m.key.s)], rest) == LastMember(newest, members);
    }
  }

  lemma KeyEvent(key: Doc)
    requires key.DString?
    ensures Events(key) == [EvString(key.s)]
  {
  }

  lemma {:induction false} MemberRead(d: Decoder, before: map<string, Variant>, newest: seq<VariantPaths.Step>,
                                      m: DocMember, later: seq<Event>)
    requires WellFormed(d) && Accepts(d) && NewestIsChild(Object(before), newest)
           && m.key.DString? && StringKeyed(m.value)
    ensures Run(Opened(d, Object(before), newest), [EvString(m.key.s)] + Events(m.value) + later)
         == Run(Opened(d, Object(before[m.key.s := Build(m.value)]), [Member(m.key.s)]), later)
    decreases m
  {
    hide Opened, WellFormed, Accepts, Put, Events, Build, Visit, PutKey, ExpectsKey, NewestIsChild;
    var d1 := Opened(d, Object(before), newest);
    OpenedTakesKey(d, before, newest, m.key.s);
    OpenedAssigns(d, before, newest, m.key.s, Build(m.value));
    var d2 := PutKey(d1, m.key.s);
    ValueRead(d2, m.value);
    RunConcat(d2, Events(m.value), later);
    EventThenRest(d1, EvString(m.key.s), Events(m.value) + later);
    hide Run;
    assert [EvString(m.key.s)] + Events(m.value) + later == [EvString(m.key.s)] + (Events(m.value) + later);
  }

  lemma EventThenRest(d: Decoder, e: Event, rest: seq<Event>)
    requires Visit(d, e).Going?
    ensures Run(d, [e] + rest) == Run(Visit(d, e).d, rest)
  {
    assert ([e] + rest)[1..] == rest;
  }

  /** For every bracketed stream with string keys, whatever keys come twice, the decoder trips
      no assertion, reports no error, ends with an empty stack, and leaves the variant that
      the recursive reading gives. */
  lemma DecoderRefinesRecursion(doc: Doc)
    requires StringKeyed(doc)
    ensures Run(RESET, Events(doc)) == Going(Decoder([], "", Build(doc), true))
  {
    ValueRead(RESET, doc);
  }

  /** Of several members with the same key the last one counts; earlier members stay unless
      their key comes again. */
  lemma {:induction false} LastMemberCounts(before: map<string, Variant>, members: seq<DocMember>, key: string)
    requires StringMembers(members)
    ensures key in BuildMembers(before, members) <==> key in before || exists m :: m in members && m.key.s == key
    ensures forall i :: 0 <= i < |members| && members[i].key.s == key
                     && (forall j :: i < j < |members| ==> members[j].key.s != key)
                     ==> key in BuildMembers(before, members)
                         && BuildMembers(before, members)[key] == Build(members[i].value)
    ensures key in before && (forall m :: m in members ==> m.key.s != key)
            ==> key in BuildMembers(before, members) && BuildMembers(before, members)[key] == before[key]
    decreases members
  {
    hide Build;
    if members != [] {
      var m, rest := members[0], members[1..];
      var before' := before[m.key.s := Build(m.value)];
      LastMemberCounts(before', rest, key);
      assert members == [m] + rest;
      forall i | 0 <= i < |members| && members[i].key.s == key
               && (forall j :: i < j < |members| ==> members[j].key.s != key)
        ensures key in BuildMembers(before, members) && BuildMembers(before, members)[key] == Build(members[i].value) {
        if i == 0 {
          forall m' | m' in rest ensures m'.key.s != key {
            var j :| 0 <= j < |rest| && rest[j] == m';
            assert members[j + 1] == m';
          }
        } else {
          assert rest[i - 1] == members[i];
          assert forall j :: i - 1 < j < |rest| ==> rest[j] == members[j + 1];
        }
      }
    }
  }

  lemma {:induction false} ItemsInOrder(before: seq<Variant>, items: seq<Doc>)
    requires StringKeyed(DArray(items))
    ensures var a := BuildItems(before, items);
            |a| == |before| + |items| && a[..|before|] == before
            && forall i :: 0 <= i < |items| ==> a[|before| + i] == Build(items[i])
    decreases items
  {
    hide Build;
    if items != [] {
      ItemsInOrder(before + [Build(items[0])], items[1..]);
      var a := BuildItems(before, items);
      assert a[|before|] == a[..|before| + 1][|before|];
      assert a[..|before|] == a[..|before| + 1][..|before|];
      forall i | 0 <= i < |items| ensures a[|before| + i] == Build(items[i]) {
        if i > 0 {
          assert items[1..][i - 1] == items[i];
        }
      }
    }
  }

  // ----- Round trip -----------------------------------------------------------------------

  /** The stream lists a variant: every object's members once each, in any order. */
  ghost predicate Enumerates(doc: Doc, v: Variant)
  {
    match doc
    case DNull => v == Null
    case DBool(b) => v == Bool(b)
    case DInt(n) => v == Int(n)
    case DUInt(u) => v == UInt(u)
    case DReal(r) => v == Real(r)
    case DString(s) => v == String(s)
    case DBlob(bytes) => v == Blob(bytes)
    case DArray(items) =>
      v.Array? && |items| == |v.elements| && forall i :: 0 <= i < |items| ==> Enumerates(items[i], v.elements[i])
    case DObject(members) => v.Object? && PartlyListed(members, {}, v.members)
  }

  /** Some of an object's members have been listed, each once; the others are left. */
  ghost predicate PartlyListed(members: seq<DocMember>, left: set<string>, m: map<string, Variant>)
  {
    && left <= m.Keys
    && (forall i :: 0 <= i < |members| ==>
          assert members decreases to members[i];
          && members[i].key.DString? && members[i].key.s in m && members[i].key.s !in left
          && Enumerates(members[i].value, m[members[i].key.s]))
    && (forall i, j :: 0 <= i < j < |members| ==> members[i].key != members[j].key)
    && (forall k :: k in m && k !in left ==> exists i :: 0 <= i < |members| && members[i].key == DString(k))
  }

  lemma {:induction false} BuildNormalises(doc: Doc, v: Variant)
    requires Enumerates(doc, v)
    ensures StringKeyed(doc) && Build(doc) == Normalised(v)
    decreases doc, 1
  {
    match (doc, v)
    case (DArray(items), Array(a)) =>
      forall i | 0 <= i < |a| ensures StringKeyed(items[i]) && Build(items[i]) == Normalised(a[i]) {
        BuildNormalises(items[i], a[i]);
      }
      ItemsInOrder([], items);
    case (DObject(members), Object(m)) => MembersNormalise(members, m);
    case _ =>
  }

  lemma {:induction false} MembersNormalise(members: seq<DocMember>, m: map<string, Variant>)
    requires PartlyListed(members, {}, m)
    ensures StringMembers(members) && BuildMembers(map[], members) == map k | k in m :: Normalised(m[k])
    decreases members, 0
  {
    forall i | 0 <= i < |members|
      ensures StringKeyed(members[i].value) && Build(members[i].value) == Normalised(m[members[i].key.s]) {
      assert members decreases to members[i];
      BuildNormalises(members[i].value, m[members[i].key.s]);
    }
    hide Build, Normalised, Enumerates, BuildMembers;
    var built := BuildMembers(map[], members);
    forall k ensures k in built <==> k in m {
      LastMemberCounts(map[], members, k);
    }
    forall k | k in m ensures built[k] == Normalised(m[k]) {
      var i :| 0 <= i < |members| && members[i].key == DString(k);
      LastMemberCounts(map[], members, k);
    }
  }

  /** What the encoder and parser of a byte format may turn an event into: an integer in the
      range of both types may come back as either, and announced lengths are only hints. */
  predicate DeliveredAs(sent: Event, received: Event)
  {
    || received == sent
    || (sent.EvInt? && sent.n >= 0 && received == EvUInt(sent.n))
    || (sent.EvUInt? && sent.u <= MAX_INT64 && received == EvInt(sent.u))
    || (sent.EvBeginArray? && received.EvBeginArray?)
    || (sent.EvBeginObject? && received.EvBeginObject?)
  }

  predicate Delivered(sent: seq<Event>, received: seq<Event>)
  {
    |sent| == |received| && forall i :: 0 <= i < |sent| ==> DeliveredAs(sent[i], received[i])
  }

  lemma {:induction false} DeliveryMakesNoDifference(d: Decoder, sent: seq<Event>, received: seq<Event>)
    requires Delivered(sent, received)
    ensures Run(d, received) == Run(d, sent)
    decreases |sent|
  {
    if sent != [] {
      assert DeliveredAs(sent[0], received[0]);
      assert Visit(d, received[0]) == Visit(d, sent[0]);
      var r := Visit(d, sent[0]);
      hide Visit, DeliveredAs;
      if r.Going? {
        forall i | 0 <= i < |sent[1..]| ensures DeliveredAs(sent[1..][i], received[1..][i]) {
          assert DeliveredAs(sent[i + 1], received[i + 1]);
        }
        DeliveryMakesNoDifference(r.d, sent[1..], received[1..]);
      }
    }
  }

  /** Encoding and decoding give back the variant, with unsigned integers that fit turned into
      signed ones, for every variant of any depth, every order of object members, and however
      the format delivers its integers. */
  lemma CodecRoundTrip(v: Variant, doc: Doc, received: seq<Event>)
    requires Enumerates(doc, v) && Delivered(Events(doc), received)
    ensures Run(RESET, received) == Going(Decoder([], "", Normalised(v), true))
  {
    DeliveryMakesNoDifference(RESET, Events(doc), received);
    BuildNormalises(doc, v);
    DecoderRefinesRecursion(doc);
  }

  // ----- The encoding visitor -------------------------------------------------------------

  class EventSink {
    var events: seq<Event>

    constructor ()
      ensures events == []
    {
      events := [];
    }

    method Emit(e: Event)
      modifies this
      ensures events == old(events) + [e]
    {
      events := events + [e];
    }
  }

  lemma {:induction false} ItemEventsAppend(items: seq<Doc>, doc: Doc)
    ensures ItemEvents(items + [doc]) == ItemEvents(items) + Events(doc)
  {
    hide Events;
    if items == [] {
      assert [doc][1..] == [];
    } else {
      assert (items + [doc])[0] == items[0] && (items + [doc])[1..] == items[1..] + [doc];
      ItemEventsAppend(items[1..], doc);
    }
  }

  lemma {:induction false} MemberEventsAppend(members: seq<DocMember>, m: DocMember)
    ensures MemberEvents(members + [m]) == MemberEvents(members) + Events(m.key) + Events(m.value)
  {
    hide Events;
    if members == [] {
      assert [m][1..] == [];
    } else {
      assert (members + [m])[0] == members[0] && (members + [m])[1..] == members[1..] + [m];
      MemberEventsAppend(members[1..], m);
    }
  }

  /** Emits the events of a variant; object members are visited in some order. */
  method Encode(v: Variant, sink: EventSink) returns (ghost doc: Doc)
    modifies sink
    ensures Enumerates(doc, v) && sink.events == old(sink.events) + Events(doc)
    decreases v, 1
  {
    match v {
      case Null => doc := DNull; sink.Emit(EvNull);
      case Bool(b) => doc := DBool(b); sink.Emit(EvBool(b));
      case Int(n) => doc := DInt(n); sink.Emit(EvInt(n));
      case UInt(u) => doc := DUInt(u); sink.Emit(EvUInt(u));
      case Real(r) => doc := DReal(r); sink.Emit(EvDouble(r));
      case String(s) => doc := DString(s); sink.Emit(EvString(s));
      case Blob(bytes) => doc := DBlob(bytes); sink.Emit(EvBytes(bytes));
      case Array(_) => doc := EncodeArray(v, sink);
      case Object(_) => doc := EncodeObject(v, sink);
    }
  }

  method EncodeArray(v: Variant, sink: EventSink) returns (ghost doc: Doc)
    requires v.Array?
    modifies sink
    ensures Enumerates(doc, v) && sink.events == old(sink.events) + Events(doc)
    decreases v, 0
  {
    var a := v.elements;
    ghost var items: seq<Doc> := [];
    sink.Emit(EvBeginArray(|a|));
    for i := 0 to |a|
      invariant |items| == i && forall j :: 0 <= j < i ==> Enumerates(items[j], a[j])
      invariant sink.events == old(sink.events) + ([EvBeginArray(|a|)] + ItemEvents(items))
    {
      ghost var item := Encode(a[i], sink);
      ItemEventsAppend(items, item);
      Regroup(old(sink.events), [EvBeginArray(|a|)], ItemEvents(items), Events(item));
      items := items + [item];
    }
    sink.Emit(EvEndArray);
    Regroup(old(sink.events), [EvBeginArray(|a|)], ItemEvents(items), [EvEndArray]);
    doc := DArray(items);
  }

  lemma Regroup(a: seq<Event>, b: seq<Event>, c: seq<Event>, d: seq<Event>)
    ensures (a + (b + c)) + d == a + (b + (c + d)) == a + (b + c + d)
  {
  }

  lemma OneMoreListed(members: seq<DocMember>, left: set<string>, m: map<string, Variant>, key: string, value: Doc)
    requires PartlyListed(members, left, m) && key in left && Enumerates(value, m[key])
    ensures PartlyListed(members + [DocMember(DString(key), value)], left - {key}, m)
  {
    hide Enumerates;
    var all := members + [DocMember(DString(key), value)];
    forall k | k in m && k !in left - {key} ensures exists i :: 0 <= i < |all| && all[i].key == DString(k) {
      if k == key {
        assert all[|members|].key == DString(k);
      } else {
        var i :| 0 <= i < |members| && members[i].key == DString(k);
        assert all[i].key == DString(k);
      }
    }
  }

  method EncodeObject(v: Variant, sink: EventSink) returns (ghost doc: Doc)
    requires v.Object?
    modifies sink
    ensures Enumerates(doc, v) && sink.events == old(sink.events) + Events(doc)
    decreases v, 0
  {
    var m := v.members;
    var left := m.Keys;
    ghost var members: seq<DocMember> := [];
    sink.Emit(EvBeginObject(|m|));
    while left != {}
      invariant PartlyListed(members, left, m) && |members| + |left| == |m|
      invariant sink.events == old(sink.events) + ([EvBeginObject(|m|)] + MemberEvents(members))
      decreases left
    {
      var k :| k in left;
      sink.Emit(EvString(k));
      ghost var value := Encode(m[k], sink);
      OneMoreListed(members, left, m, k, value);
      MemberEventsAppend(members, DocMember(DString(k), value));
      KeyEvent(DString(k));
      Regroup(old(sink.events), [EvBeginObject(|m|)], MemberEvents(members), [EvString(k)]);
      Regroup(old(sink.events), [EvBeginObject(|m|)], MemberEvents(members) + [EvString(k)], Events(value));
      members := members + [DocMember(DString(k), value)];
      left := left - {k};
    }
    sink.Emit(EvEndObject);
    Regroup(old(sink.events), [EvBeginObject(|m|)], MemberEvents(members), [EvEndObject]);
    doc := DObject(members);
  }
}

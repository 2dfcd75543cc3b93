/** Addresses of variants inside a variant, and writing through them. */
module VariantPaths {
  import opened Variants

  datatype Step = Index(i: nat) | Member(key: string)

  /** The way from the root of a tree to one of its nodes. */
  type Path = seq<Step>

  predicate HasChild(v: Variant, s: Step)
  {
    match s
    case Index(i) => v.Array? && i < |v.elements|
    case Member(k) => v.Object? && k in v.members
  }

  function Child(v: Variant, s: Step): Variant
    requires HasChild(v, s)
  {
    match s
    case Index(i) => v.elements[i]
    case Member(k) => v.members[k]
  }

  function SetChild(v: Variant, s: Step, w: Variant): Variant
    requires HasChild(v, s)
  {
    match s
    case Index(i) => Array(v.elements[i := w])
    case Member(k) => Object(v.members[k := w])
  }

  predicate Valid(v: Variant, p: Path)
    decreases |p|
  {
    p == [] || (HasChild(v, p[0]) && Valid(Child(v, p[0]), p[1..]))
  }

  function Get(v: Variant, p: Path): Variant
    requires Valid(v, p)
    decreases |p|
  {
    if p == [] then v else Get(Child(v, p[0]), p[1..])
  }

  /** The tree after an assignment through an address. */
  function Replace(v: Variant, p: Path, w: Variant): Variant
    requires Valid(v, p)
    decreases |p|
  {
    if p == [] then w else SetChild(v, p[0], Replace(Child(v, p[0]), p[1..], w))
  }

  lemma {:induction false} GetReplace(v: Variant, p: Path, w: Variant)
    requires Valid(v, p)
    ensures Valid(Replace(v, p, w), p) && Get(Replace(v, p, w), p) == w
    decreases |p|
  {
    if p != [] {
      GetReplace(Child(v, p[0]), p[1..], w);
    }
  }

  lemma {:induction false} ReplaceReplace(v: Variant, p: Path, w: Variant, x: Variant)
    requires Valid(v, p)
    ensures Valid(Replace(v, p, w), p) && Replace(Replace(v, p, w), p, x) == Replace(v, p, x)
    decreases |p|
  {
    if p != [] {
      ReplaceReplace(Child(v, p[0]), p[1..], w, x);
    }
  }

  lemma {:induction false} Splits(v: Variant, p: Path, q: Path)
    ensures Valid(v, p + q) <==> Valid(v, p) && Valid(Get(v, p), q)
    ensures Valid(v, p + q) ==> Get(v, p + q) == Get(Get(v, p), q)
    ensures Valid(v, p + q) ==> forall w :: Replace(v, p + q, w) == Replace(v, p, Replace(Get(v, p), q, w))
    decreases |p|
  {
    if p == [] {
      assert [] + q == q;
    } else {
      assert (p + q)[1..] == p[1..] + q;
      if HasChild(v, p[0]) {
        Splits(Child(v, p[0]), p[1..], q);
      }
    }
  }

  lemma OneStep(v: Variant, s: Step)
    ensures Valid(v, [s]) <==> HasChild(v, s)
    ensures Valid(v, [s]) ==> Get(v, [s]) == Child(v, s)
    ensures Valid(v, [s]) ==> forall w :: Replace(v, [s], w) == SetChild(v, s, w)
  {
    assert [s][1..] == [];
  }

  lemma LastStep(v: Variant, p: Path, s: Step)
    ensures Valid(v, p + [s]) <==> Valid(v, p) && HasChild(Get(v, p), s)
    ensures Valid(v, p + [s]) ==> Get(v, p + [s]) == Child(Get(v, p), s)
    ensures Valid(v, p + [s]) ==> forall w :: Replace(v, p + [s], w) == Replace(v, p, SetChild(Get(v, p), s, w))
  {
    Splits(v, p, [s]);
    if Valid(v, p) {
      OneStep(Get(v, p), s);
    }
  }

  /** Two nodes with the same children slots. */
  predicate SameShape(v: Variant, w: Variant)
  {
    || (v.Array? && w.Array? && |v.elements| == |w.elements|)
    || (v.Object? && w.Object? && v.members.Keys == w.members.Keys)
  }

  /** An assignment deeper in the tree leaves a node where it is, with the same slots. */
  lemma ReplaceBelow(v: Variant, p: Path, q: Path, w: Variant)
    requires q != [] && Valid(v, p + q)
    ensures Valid(v, p) && Valid(Replace(v, p + q, w), p)
    ensures SameShape(Get(v, p), Get(Replace(v, p + q, w), p))
  {
    Splits(v, p, q);
    var w' := Replace(Get(v, p), q, w);
    GetReplace(v, p, w');
    assert SameShape(Get(v, p), w');
  }
}

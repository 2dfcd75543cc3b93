/** The dynamically typed value of the library, and its equality. */
module Variants {

  type Int64 = n: int | -0x8000_0000_0000_0000 <= n < 0x8000_0000_0000_0000
  type UInt64 = n: nat | n < 0x1_0000_0000_0000_0000

  const MAX_INT64: int := 0x7fff_ffff_ffff_ffff

  /** A double, known by its bits only. */
  datatype Double = Double(bits: UInt64)

  datatype Variant =
    | Null
    | Bool(b: bool)
    | Int(n: Int64)
    | UInt(u: UInt64)
    | Real(r: Double)
    | String(s: string)
    | Blob(bytes: seq<bv8>)
    | Array(elements: seq<Variant>)
    | Object(members: map<string, Variant>)

  /** The variant a codec hands back: unsigned integers that fit become signed ones. */
  function Normalised(v: Variant): Variant
  {
    match v
    case UInt(u) => if u <= MAX_INT64 then Int(u) else UInt(u)
    case Array(a) => Array(seq(|a|, i requires 0 <= i < |a| => Normalised(a[i])))
    case Object(m) => Object(map k | k in m :: Normalised(m[k]))
    case _ => v
  }

  // ----- Equality -------------------------------------------------------------------------

  /** What the machine's floating point makes of doubles: its two comparisons, the sign test
      and the conversion from integers. Nothing is assumed of it. */
  datatype FloatOps = FloatOps(
    eq: (Double, Double) -> bool,
    ne: (Double, Double) -> bool,
    isNegative: Double -> bool,
    fromInt: int -> Double)

  /** Equality of two variants, by the dynamic types of both. */
  predicate Equal(f: FloatOps, v: Variant, w: Variant)
    decreases v
  {
    match (v, w)
    case (Null, Null) => true
    case (Bool(a), Bool(b)) => a == b
    case (Int(a), Int(b)) => a == b
    case (UInt(a), UInt(b)) => a == b
    case (Int(a), UInt(b)) => if a < 0 then false else a == b
    case (UInt(a), Int(b)) => if b < 0 then false else a == b
    case (Real(a), Real(b)) => f.eq(a, b)
    case (Int(a), Real(b)) => f.eq(f.fromInt(a), b)
    case (Real(a), Int(b)) => f.eq(a, f.fromInt(b))
    case (UInt(a), Real(b)) => if f.isNegative(b) then false else f.eq(f.fromInt(a), b)
    case (Real(a), UInt(b)) => if f.isNegative(a) then false else f.eq(a, f.fromInt(b))
    case (String(a), String(b)) => a == b
    case (Blob(a), Blob(b)) => a == b
    case (Array(a), Array(b)) => |a| == |b| && forall i :: 0 <= i < |a| ==> Equal(f, a[i], b[i])
    case (Object(a), Object(b)) => a.Keys == b.Keys && forall k :: k in a ==> Equal(f, a[k], b[k])
    case _ => false
  }

  /** Every real inside, at any depth, passes a test. */
  predicate AllReals(v: Variant, p: Double -> bool)
  {
    match v
    case Real(r) => p(r)
    case Array(a) => forall i :: 0 <= i < |a| ==> AllReals(a[i], p)
    case Object(m) => forall k :: k in m ==> AllReals(m[k], p)
    case _ => true
  }

  predicate RealFree(v: Variant)
  {
    AllReals(v, r => false)
  }

  /** What a codec hands back compares equal to the original exactly when every real inside
      compares equal to itself, that is, when none of them is a NaN. */
  lemma {:induction false} NormalisedIsEqual(f: FloatOps, v: Variant)
    ensures Equal(f, Normalised(v), v) <==> AllReals(v, r => f.eq(r, r))
  {
    match v
    case Array(a) =>
      forall i | 0 <= i < |a| ensures Equal(f, Normalised(a[i]), a[i]) <==> AllReals(a[i], r => f.eq(r, r)) {
        NormalisedIsEqual(f, a[i]);
      }
    case Object(m) =>
      forall k | k in m ensures Equal(f, Normalised(m[k]), m[k]) <==> AllReals(m[k], r => f.eq(r, r)) {
        NormalisedIsEqual(f, m[k]);
      }
    case _ =>
  }

  lemma {:induction false} EqualIsReflexive(f: FloatOps, v: Variant)
    ensures Equal(f, v, v) <==> AllReals(v, r => f.eq(r, r))
  {
    match v
    case Array(a) =>
      forall i | 0 <= i < |a| ensures Equal(f, a[i], a[i]) <==> AllReals(a[i], r => f.eq(r, r)) {
        EqualIsReflexive(f, a[i]);
      }
    case Object(m) =>
      forall k | k in m ensures Equal(f, m[k], m[k]) <==> AllReals(m[k], r => f.eq(r, r)) {
        EqualIsReflexive(f, m[k]);
      }
    case _ =>
  }

  lemma {:induction false} EqualIsSymmetric(f: FloatOps, v: Variant, w: Variant)
    requires RealFree(v) && RealFree(w)
    ensures Equal(f, v, w) <==> Equal(f, w, v)
    decreases v
  {
    match (v, w)
    case (Array(a), Array(b)) =>
      if |a| == |b| {
        forall i | 0 <= i < |a| ensures Equal(f, a[i], b[i]) <==> Equal(f, b[i], a[i]) {
          EqualIsSymmetric(f, a[i], b[i]);
        }
      }
    case (Object(a), Object(b)) =>
      if a.Keys == b.Keys {
        forall k | k in a ensures Equal(f, a[k], b[k]) <==> Equal(f, b[k], a[k]) {
          assert k in b.Keys;
          EqualIsSymmetric(f, a[k], b[k]);
        }
      }
    case _ =>
  }

  /** Without reals, equality is an equivalence relation, although it mixes signed and
      unsigned integers at every depth. */
  lemma {:induction false} EqualIsTransitive(f: FloatOps, u: Variant, v: Variant, w: Variant)
    requires RealFree(u) && RealFree(v) && RealFree(w) && Equal(f, u, v) && Equal(f, v, w)
    ensures Equal(f, u, w)
    decreases u
  {
    match (u, v, w)
    case (Array(a), Array(b), Array(c)) =>
      forall i | 0 <= i < |a| ensures Equal(f, a[i], c[i]) {
        EqualIsTransitive(f, a[i], b[i], c[i]);
      }
    case (Object(a), Object(b), Object(c)) =>
      forall k | k in a ensures Equal(f, a[k], c[k]) {
        assert k in b.Keys;
        EqualIsTransitive(f, a[k], b[k], c[k]);
      }
    case _ =>
  }

  // ----- What equality means --------------------------------------------------------------

  /** Without reals, two variants are equal exactly if they are the same once unsigned integers
      that fit are taken for signed ones. */
  lemma {:induction false} EqualIffSameNormalised(f: FloatOps, v: Variant, w: Variant)
    requires RealFree(v) && RealFree(w)
    ensures Equal(f, v, w) <==> Normalised(v) == Normalised(w)
    decreases v
  {
    match (v, w)
    case (Array(a), Array(b)) =>
      if |a| == |b| {
        forall i | 0 <= i < |a| ensures Equal(f, a[i], b[i]) <==> Normalised(a[i]) == Normalised(b[i]) {
          EqualIffSameNormalised(f, a[i], b[i]);
        }
        ArraysNormalise(a, b);
      } else {
        assert |Normalised(v).elements| != |Normalised(w).elements|;
      }
    case (Object(m), Object(n)) =>
      if m.Keys == n.Keys {
        forall k | k in m ensures Equal(f, m[k], n[k]) <==> Normalised(m[k]) == Normalised(n[k]) {
          assert k in n.Keys;
          EqualIffSameNormalised(f, m[k], n[k]);
        }
        ObjectsNormalise(m, n);
      } else {
        assert Normalised(v).members.Keys == m.Keys && Normalised(w).members.Keys == n.Keys;
      }
    case _ =>
  }

  lemma ArraysNormalise(a: seq<Variant>, b: seq<Variant>)
    requires |a| == |b|
    ensures Normalised(Array(a)) == Normalised(Array(b)) <==>
              forall i :: 0 <= i < |a| ==> Normalised(a[i]) == Normalised(b[i])
  {
    var x, y := Normalised(Array(a)).elements, Normalised(Array(b)).elements;
    assert forall i :: 0 <= i < |a| ==> x[i] == Normalised(a[i]) && y[i] == Normalised(b[i]);
  }

  lemma ObjectsNormalise(m: map<string, Variant>, n: map<string, Variant>)
    requires m.Keys == n.Keys
    ensures Normalised(Object(m)) == Normalised(Object(n)) <==>
              forall k :: k in m ==> Normalised(m[k]) == Normalised(n[k])
  {
    var x, y := Normalised(Object(m)).members, Normalised(Object(n)).members;
    assert forall k :: k in m ==> k in n.Keys;
    assert forall k :: k in m ==> x[k] == Normalised(m[k]) && y[k] == Normalised(n[k]);
    assert x.Keys == m.Keys && y.Keys == n.Keys;
  }

  /** A real is compared by the floating point: with an integer after its conversion, and never as
      equal to an unsigned integer if it is negative. */
  lemma RealsCompare(f: FloatOps, x: Double, y: Double, n: Int64, u: UInt64)
    ensures Equal(f, Real(x), Real(y)) <==> f.eq(x, y)
    ensures Equal(f, Real(x), Int(n)) <==> f.eq(x, f.fromInt(n))
    ensures Equal(f, Int(n), Real(x)) <==> f.eq(f.fromInt(n), x)
    ensures Equal(f, Real(x), UInt(u)) <==> !f.isNegative(x) && f.eq(x, f.fromInt(u))
    ensures Equal(f, UInt(u), Real(x)) <==> !f.isNegative(x) && f.eq(f.fromInt(u), x)
  {
  }

  datatype Kind = NullKind | BoolKind | NumberKind | StringKind | BlobKind | ArrayKind | ObjectKind

  function KindOf(v: Variant): Kind
  {
    match v
    case Null => NullKind
    case Bool(_) => BoolKind
    case Int(_) => NumberKind
    case UInt(_) => NumberKind
    case Real(_) => NumberKind
    case String(_) => StringKind
    case Blob(_) => BlobKind
    case Array(_) => ArrayKind
    case Object(_) => ObjectKind
  }

  /** Variants of different kinds are never equal, containers with reals inside are equal exactly
      if they have the same places with equal variants in them. */
  lemma EqualByKinds(f: FloatOps, v: Variant, w: Variant)
    ensures Equal(f, v, w) ==> KindOf(v) == KindOf(w)
    ensures v.Array? && w.Array? ==>
              (Equal(f, v, w) <==> |v.elements| == |w.elements|
                                   && forall i :: 0 <= i < |v.elements| ==> Equal(f, v.elements[i], w.elements[i]))
    ensures v.Object? && w.Object? ==>
              (Equal(f, v, w) <==>
                 && (forall k :: k in v.members <==> k in w.members)
                 && forall k :: k in v.members && k in w.members ==> Equal(f, v.members[k], w.members[k]))
  {
    if v.Object? && w.Object? && forall k :: k in v.members <==> k in w.members {
      assert v.members.Keys == w.members.Keys;
    }
  }
}

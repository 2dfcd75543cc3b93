/** The inequality of a variant and a typed value, which is written out separately from
    equality: it looks for the first place where two containers differ. */
module VariantInequality {
  import opened Variants

  // ----- Objects in key order -------------------------------------------------------------

  /** The order of strings: the one that comes first in a dictionary is less. */
  predicate Leq(a: string, b: string)
  {
    a == [] || (b != [] && (a[0] < b[0] || (a[0] == b[0] && Leq(a[1..], b[1..]))))
  }

  lemma {:induction false} LeqIsTotal(a: string, b: string)
    ensures Leq(a, b) || Leq(b, a)
    ensures Leq(a, b) && Leq(b, a) ==> a == b
  {
    if a != [] && b != [] && a[0] == b[0] {
      LeqIsTotal(a[1..], b[1..]);
      assert a == [a[0]] + a[1..] && b == [b[0]] + b[1..];
    }
  }

  lemma {:induction false} LeqIsTransitive(a: string, b: string, c: string)
    requires Leq(a, b) && Leq(b, c)
    ensures Leq(a, c)
  {
    if a != [] && a[0] == b[0] == c[0] {
      LeqIsTransitive(a[1..], b[1..], c[1..]);
    }
  }

  ghost predicate IsFirstKey(keys: set<string>, k: string)
  {
    k in keys && forall k' :: k' in keys ==> Leq(k, k')
  }

  lemma FirstKeyExists(keys: set<string>)
    requires keys != {}
    ensures exists k :: IsFirstKey(keys, k)
  {
    var k :| k in keys;
    var rest := keys - {k};
    LeqIsTotal(k, k);
    if rest == {} {
      assert keys == {k};
      assert IsFirstKey(keys, k);
    } else {
      FirstKeyExists(rest);
      var m :| IsFirstKey(rest, m);
      LeqIsTotal(k, m);
      var first := if Leq(k, m) then k else m;
      forall k' | k' in keys ensures Leq(first, k') {
        if k' != k && Leq(k, m) { LeqIsTransitive(k, m, k'); }
      }
      assert IsFirstKey(keys, first);
    }
  }

  ghost function FirstKey(keys: set<string>): (k: string)
    requires keys != {}
    ensures IsFirstKey(keys, k)
  {
    FirstKeyExists(keys);
    var k :| IsFirstKey(keys, k);
    k
  }

  datatype Pair = Pair(key: string, value: Variant)

  /** The members of an object in the order in which it is traversed. */
  ghost function Listed(m: map<string, Variant>): seq<Pair>
    decreases m.Keys
  {
    if m == map[] then []
    else var k := FirstKey(m.Keys); [Pair(k, m[k])] + Listed(m - {k})
  }

  // ----- Comparing pair by pair -----------------------------------------------------------

  /** Where the first two elements that are not the same stand; the length if there are none. */
  function Mismatch<T>(a: seq<T>, b: seq<T>, same: (T, T) -> bool): nat
    requires |a| == |b|
  {
    if a == [] || !same(a[0], b[0]) then 0 else 1 + Mismatch(a[1..], b[1..], same)
  }

  lemma {:induction false} MismatchFound<T>(a: seq<T>, b: seq<T>, same: (T, T) -> bool)
    requires |a| == |b|
    ensures var n := Mismatch(a, b, same);
            && n <= |a| && (forall i :: 0 <= i < n ==> same(a[i], b[i]))
            && (n < |a| ==> !same(a[n], b[n]))
  {
    if a != [] && same(a[0], b[0]) {
      MismatchFound(a[1..], b[1..], same);
      var n := Mismatch(a, b, same);
      forall i | 0 <= i < n ensures same(a[i], b[i]) {
        if i > 0 { assert a[i] == a[1..][i - 1] && b[i] == b[1..][i - 1]; }
      }
      assert n < |a| ==> a[n] == a[1..][n - 1] && b[n] == b[1..][n - 1];
    }
  }

  predicate SamePair(f: FloatOps, p: Pair, q: Pair)
  {
    p.key == q.key && Equal(f, p.value, q.value)
  }

  predicate SamePairs(f: FloatOps, ps: seq<Pair>, qs: seq<Pair>)
  {
    |ps| == |qs| && forall i :: 0 <= i < |ps| ==> SamePair(f, ps[i], qs[i])
  }

  lemma SamePairsStep(f: FloatOps, p: Pair, ps: seq<Pair>, q: Pair, qs: seq<Pair>)
    ensures SamePairs(f, [p] + ps, [q] + qs) <==> SamePair(f, p, q) && SamePairs(f, ps, qs)
  {
    hide SamePair;
    var ps1, qs1 := [p] + ps, [q] + qs;
    if SamePairs(f, ps1, qs1) {
      forall i | 0 <= i < |ps| ensures SamePair(f, ps[i], qs[i]) {
        assert SamePair(f, ps1[i + 1], qs1[i + 1]);
      }
      assert SamePair(f, ps1[0], qs1[0]);
    }
  }

  /** Taking a key out of both objects. */
  lemma EqualWithout(f: FloatOps, m: map<string, Variant>, n: map<string, Variant>, k: string)
    requires k in m && k in n
    ensures Equal(f, Object(m), Object(n)) <==> Equal(f, m[k], n[k]) && Equal(f, Object(m - {k}), Object(n - {k}))
  {
    if (m - {k}).Keys == (n - {k}).Keys {
      assert m.Keys == (m - {k}).Keys + {k} && n.Keys == (n - {k}).Keys + {k};
    }
  }

  /** Walking through two objects side by side finds out whether they are equal. */
  lemma {:induction false} ListedCompares(f: FloatOps, m: map<string, Variant>, n: map<string, Variant>)
    ensures SamePairs(f, Listed(m), Listed(n)) <==> Equal(f, Object(m), Object(n))
    decreases m.Keys
  {
    if m == map[] || n == map[] {
      assert m == map[] <==> m.Keys == {};
      assert n == map[] <==> n.Keys == {};
    } else {
      var k, l := FirstKey(m.Keys), FirstKey(n.Keys);
      SamePairsStep(f, Pair(k, m[k]), Listed(m - {k}), Pair(l, n[l]), Listed(n - {l}));
      if k == l {
        ListedCompares(f, m - {k}, n - {k});
        EqualWithout(f, m, n, k);
        hide SamePairs, Equal;
      }
    }
  }

  lemma {:induction false} ListedLength(m: map<string, Variant>)
    ensures |Listed(m)| == |m|
    decreases m.Keys
  {
    if m != map[] {
      var k := FirstKey(m.Keys);
      ListedLength(m - {k});
      assert m.Keys == (m - {k}).Keys + {k};
    }
  }

  // ----- Inequality -----------------------------------------------------------------------

  predicate ArraysDiffer(f: FloatOps, a: seq<Variant>, b: seq<Variant>)
  {
    if |a| != |b| then true else Mismatch(a, b, (x, y) => Equal(f, x, y)) != |a|
  }

  ghost predicate ObjectsDiffer(f: FloatOps, m: map<string, Variant>, n: map<string, Variant>)
  {
    if |m| != |n| then true
    else
      ListedLength(m);
      ListedLength(n);
      Mismatch(Listed(m), Listed(n), (p, q) => SamePair(f, p, q)) != |m|
  }

  /** The inequality of a variant and a typed value; the typed value is given as the variant
      that it converts to. */
  ghost predicate NotEqual(f: FloatOps, v: Variant, w: Variant)
  {
    match (v, w)
    case (Null, Null) => false
    case (Bool(a), Bool(b)) => a != b
    case (Int(a), Int(b)) => a != b
    case (UInt(a), UInt(b)) => a != b
    case (Int(a), UInt(b)) => if a < 0 then true else a != b
    case (UInt(a), Int(b)) => if b < 0 then true else a != b
    case (Real(a), Real(b)) => f.ne(a, b)
    case (Int(a), Real(b)) => f.ne(f.fromInt(a), b)
    case (Real(a), Int(b)) => f.ne(a, f.fromInt(b))
    case (UInt(a), Real(b)) => if f.isNegative(b) then true else f.ne(f.fromInt(a), b)
    case (Real(a), UInt(b)) => if f.isNegative(a) then true else f.ne(a, f.fromInt(b))
    case (String(a), String(b)) => a != b
    case (Blob(a), Blob(b)) => a != b
    case (Array(a), Array(b)) => ArraysDiffer(f, a, b)
    case (Object(m), Object(n)) => ObjectsDiffer(f, m, n)
    case _ => true
  }

  lemma ArraysDifferIff(f: FloatOps, a: seq<Variant>, b: seq<Variant>)
    ensures ArraysDiffer(f, a, b) <==> !Equal(f, Array(a), Array(b))
  {
    if |a| == |b| {
      MismatchFound(a, b, (x, y) => Equal(f, x, y));
    }
  }

  lemma ObjectsDifferIff(f: FloatOps, m: map<string, Variant>, n: map<string, Variant>)
    ensures ObjectsDiffer(f, m, n) <==> !Equal(f, Object(m), Object(n))
  {
    ListedCompares(f, m, n);
    ListedLength(m);
    ListedLength(n);
    if |m| == |n| {
      MismatchFound(Listed(m), Listed(n), (p, q) => SamePair(f, p, q));
    }
    hide Listed, Equal;
  }

  /** Inequality is the negation of equality, for all variants at every depth, exactly when it
      is for doubles. */
  lemma NotEqualIsNegation(f: FloatOps)
    ensures (forall v: Variant, w: Variant :: NotEqual(f, v, w) <==> !Equal(f, v, w))
       <==> (forall a: Double, b: Double :: f.ne(a, b) <==> !f.eq(a, b))
  {
    if forall a: Double, b: Double :: f.ne(a, b) <==> !f.eq(a, b) {
      forall v: Variant, w: Variant ensures NotEqual(f, v, w) <==> !Equal(f, v, w) {
        match (v, w)
        case (Array(a), Array(b)) => ArraysDifferIff(f, a, b);
        case (Object(m), Object(n)) => ObjectsDifferIff(f, m, n);
        case _ =>
      }
    }
    if forall v: Variant, w: Variant :: NotEqual(f, v, w) <==> !Equal(f, v, w) {
      forall a: Double, b: Double ensures f.ne(a, b) <==> !f.eq(a, b) {
        assert NotEqual(f, Real(a), Real(b)) <==> !Equal(f, Real(a), Real(b));
      }
    }
  }
}

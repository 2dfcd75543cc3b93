/** Unsigned 32-bit words as numbers: the bitwise OR that packs fields, and byte order. */
module Bits {

  const WORD: nat := 0x1_0000_0000

  function Pow2(k: nat): (p: nat)
    ensures p > 0
  {
    if k == 0 then 1 else 2 * Pow2(k - 1)
  }

  /** Bitwise OR of two numbers, bit by bit from the least significant one. */
  function BitOr(a: nat, b: nat): nat
    decreases a + b
  {
    if a == 0 && b == 0 then 0
    else (if a % 2 == 1 || b % 2 == 1 then 1 else 0) + 2 * BitOr(a / 2, b / 2)
  }

  /** `word |= uint32(value) << pos`, where bits shifted out of the word are lost. */
  function PutBits(word: nat, value: nat, pos: nat): (r: nat)
    requires word < WORD
    ensures r < WORD
  {
    var shifted := value % WORD * Pow2(pos) % WORD;
    assert Pow2(16) == 0x1_0000 && Pow2(32) == WORD by {
      PowersOfTwo();
    }
    OrBound(word, shifted, 32);
    BitOr(word, shifted)
  }

  lemma PowersOfTwo()
    ensures Pow2(4) == 16 && Pow2(8) == 256 && Pow2(16) == 0x1_0000
    ensures Pow2(20) == 0x10_0000 && Pow2(24) == 0x100_0000 && Pow2(32) == WORD
  {
    assert Pow2(4) == 16;
    PowSum(4, 4);
    PowSum(8, 8);
    PowSum(16, 4);
    PowSum(16, 8);
    PowSum(16, 16);
  }

  lemma {:induction false} PowSum(j: nat, k: nat)
    ensures Pow2(j + k) == Pow2(j) * Pow2(k)
  {
    if j != 0 {
      PowSum(j - 1, k);
      assert 2 * (Pow2(j - 1) * Pow2(k)) == (2 * Pow2(j - 1)) * Pow2(k);
    }
  }

  lemma {:induction false} OrBound(a: nat, b: nat, k: nat)
    requires a < Pow2(k) && b < Pow2(k)
    ensures BitOr(a, b) < Pow2(k)
  {
    if k != 0 && (a != 0 || b != 0) {
      OrBound(a / 2, b / 2, k - 1);
    }
  }

  lemma {:induction false} OrZero(a: nat)
    ensures BitOr(a, 0) == a && BitOr(0, a) == a
  {
    if a != 0 {
      OrZero(a / 2);
    }
  }

  /** OR works on the bits above and below any position separately. */
  lemma {:induction false} OrSplits(x: nat, y: nat, u: nat, v: nat, k: nat)
    requires u < Pow2(k) && v < Pow2(k)
    ensures BitOr(x * Pow2(k) + u, y * Pow2(k) + v) == BitOr(x, y) * Pow2(k) + BitOr(u, v)
  {
    hide BitOr;
    if k == 0 {
      OrZero(0);
    } else {
      var p := Pow2(k - 1);
      Halve(x, u, p);
      Halve(y, v, p);
      OrSplits(x, y, u / 2, v / 2, k - 1);
      OrStep(x * Pow2(k) + u, y * Pow2(k) + v);
      OrStep(u, v);
      assert BitOr(x, y) * (2 * p) == 2 * (BitOr(x, y) * p);
    }
  }

  lemma Halve(x: nat, u: nat, p: nat)
    ensures (x * (2 * p) + u) / 2 == x * p + u / 2 && (x * (2 * p) + u) % 2 == u % 2
  {
    assert x * (2 * p) == 2 * (x * p);
  }

  lemma OrStep(a: nat, b: nat)
    ensures BitOr(a, b) == (if a % 2 == 1 || b % 2 == 1 then 1 else 0) + 2 * BitOr(a / 2, b / 2)
  {
  }

  /** Putting a value into a field whose bits are still zero adds it there. */
  lemma PutsField(word: nat, high: nat, low: nat, value: nat, pos: nat, width: nat)
    requires word < WORD && pos + width <= 32
    requires low < Pow2(pos) && value < Pow2(width)
    requires word == high * Pow2(pos + width) + low
    ensures PutBits(word, value, pos) == word + value * Pow2(pos)
  {
    hide BitOr, Pow2;
    var p, w := Pow2(pos), Pow2(width);
    assert Pow2(pos + width) == p * w by {
      PowSum(pos, width);
    }
    assert value % WORD * p % WORD == value * p by {
      PowersOfTwo();
      PowSum(pos + width, 32 - pos - width);
      FieldFits(value, p, w, Pow2(32 - pos - width));
      InRange(value);
      InRange(value * p);
    }
    OrFields(high, low, value, p, w, pos, width);
    Regroup(high, p, w);
  }

  lemma InRange(n: nat)
    requires n < WORD
    ensures n % WORD == n
  {
  }

  lemma Regroup(a: nat, b: nat, c: nat)
    ensures a * (b * c) == a * c * b
  {
  }

  lemma OrFields(high: nat, low: nat, value: nat, p: nat, w: nat, pos: nat, width: nat)
    requires p == Pow2(pos) && w == Pow2(width) && low < p && value < w
    ensures BitOr(high * w * p + low, value * p) == high * w * p + low + value * p
  {
    hide BitOr, Pow2;
    OrSplits(high * w, value, low, 0, pos);
    OrSplits(high, 0, 0, value, width);
    OrZero(high);
    OrZero(low);
    OrZero(value);
    assert (high * w + value) * p == high * w * p + value * p;
  }

  lemma FieldFits(value: nat, p: nat, w: nat, rest: nat)
    requires value < w && p > 0 && rest > 0
    ensures value < p * w * rest && value * p < p * w * rest
  {
    assert value * p < w * p;
    assert w * p <= w * p * rest;
    assert value <= value * p;
  }
}

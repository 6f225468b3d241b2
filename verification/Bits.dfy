/** Unsigned machine words as bounded integers, with the C bitwise operators
    defined bit by bit and the arithmetic facts the word code relies on. */
module Bits {
  type byte = n: int | 0 <= n < 0x100
  type u32 = n: int | 0 <= n < 0x1_0000_0000
  type u64 = n: int | 0 <= n < 0x1_0000_0000_0000_0000

  const TWO26: nat := 0x400_0000
  const TWO32: nat := 0x1_0000_0000

  function Pow2(k: nat): (p: nat)
    ensures p > 0
  {
    if k == 0 then 1 else 2 * Pow2(k - 1)
  }

  /** The C operator `&`. */
  function And(x: nat, y: nat): nat {
    if x == 0 || y == 0 then 0
    else 2 * And(x / 2, y / 2) + (if x % 2 == 1 && y % 2 == 1 then 1 else 0)
  }

  /** The C operator `|`. */
  function Or(x: nat, y: nat): nat
    decreases x + y
  {
    if x == 0 && y == 0 then 0
    else 2 * Or(x / 2, y / 2) + (if x % 2 == 1 || y % 2 == 1 then 1 else 0)
  }

  /** The C operator `^`. */
  function Xor(x: nat, y: nat): nat
    decreases x + y
  {
    if x == 0 && y == 0 then 0
    else 2 * Xor(x / 2, y / 2) + (if x % 2 != y % 2 then 1 else 0)
  }

  lemma DivModUnique(x: nat, d: nat, q: nat, r: nat)
    requires d > 0 && r < d && x == d * q + r
    ensures x / d == q && x % d == r
  {
    var a, b := x / d, x % d;
    assert d * (a - q) == r - b;
    MulSign(d, a - q);
  }

  lemma MulSign(d: nat, m: int)
    ensures m >= 1 ==> d * m >= d
    ensures m <= -1 ==> d * m + d <= 0
  {
    if m >= 1 {
      assert d * m == d + d * (m - 1);
    } else if m <= -1 {
      assert d * m + d == d * (m + 1);
    }
  }

  /** Dividing twice is dividing by the product. */
  lemma DivDiv(v: nat, a: nat, b: nat)
    requires a > 0 && b > 0
    ensures a * b > 0 && v / (a * b) == v / a / b
  {
    var q, r, s := v / a / b, v / a % b, v % a;
    assert v / a == b * q + r;
    assert v == a * (b * q + r) + s;
    assert a * (b * q + r) == a * b * q + a * r;
    Scaled(a, b, r, s);
    DivModUnique(v, a * b, q, a * r + s);
  }

  lemma Scaled(a: nat, b: nat, r: nat, s: nat)
    requires r < b && s < a
    ensures a * r + s < a * b
  {
    assert a * (r + 1) <= a * b by { assert a * (b - r - 1) >= 0; }
  }

  /** Halving first and then splitting by `d` is splitting by `2 * d`. */
  lemma HalfDivMod(x: nat, d: nat)
    requires d > 0
    ensures x / (2 * d) == (x / 2) / d
    ensures x % (2 * d) == 2 * ((x / 2) % d) + x % 2
    ensures (x % (2 * d)) / 2 == (x / 2) % d
  {
    var q, r := (x / 2) / d, (x / 2) % d;
    assert x / 2 == d * q + r;
    assert x == 2 * (d * q) + 2 * r + x % 2;
    assert (2 * d) * q == 2 * (d * q);
    DivModUnique(x, 2 * d, q, 2 * r + x % 2);
  }

  /** A mask of low ones is a remainder. */
  lemma {:induction false} AndOnes(x: nat, k: nat)
    ensures And(x, Pow2(k) - 1) == x % Pow2(k)
  {
    if k > 0 {
      var p, y := Pow2(k - 1), Pow2(k) - 1;
      assert y / 2 == p - 1 && y % 2 == 1;
      AndStep(x, y);
      AndOnes(x / 2, k - 1);
      HalfDivMod(x, p);
    }
  }

  /** A mask acts on the two halves of a word separately. */
  lemma {:induction false} AndSplit(xh: nat, xl: nat, yh: nat, yl: nat, k: nat)
    requires xl < Pow2(k) && yl < Pow2(k)
    ensures And(xh * Pow2(k) + xl, yh * Pow2(k) + yl) == And(xh, yh) * Pow2(k) + And(xl, yl)
  {
    if k == 0 {
      AndZero(0);
      assert xh * 1 + 0 == xh && yh * 1 + 0 == yh;
    } else {
      AndSplit(xh, xl / 2, yh, yl / 2, k - 1);
      AndSplitStep(xh, xl, yh, yl, Pow2(k - 1));
    }
  }

  lemma AndSplitStep(xh: nat, xl: nat, yh: nat, yl: nat, p: nat)
    requires And(xh * p + xl / 2, yh * p + yl / 2) == And(xh, yh) * p + And(xl / 2, yl / 2)
    ensures And(xh * (2 * p) + xl, yh * (2 * p) + yl) == And(xh, yh) * (2 * p) + And(xl, yl)
  {
    hide And;
    TwiceProduct(xh, p);
    TwiceProduct(yh, p);
    TwiceProduct(And(xh, yh), p);
    var x, y := 2 * (xh * p) + xl, 2 * (yh * p) + yl;
    assert x / 2 == xh * p + xl / 2 && x % 2 == xl % 2;
    assert y / 2 == yh * p + yl / 2 && y % 2 == yl % 2;
    AndStep(x, y);
    AndStep(xl, yl);
  }

  lemma TwiceProduct(a: nat, p: nat)
    ensures a * (2 * p) == 2 * (a * p)
  {
  }

  lemma AndStep(x: nat, y: nat)
    ensures And(x, y) == 2 * And(x / 2, y / 2) + (if x % 2 == 1 && y % 2 == 1 then 1 else 0)
  {
  }

  lemma {:induction false} AndZero(x: nat)
    ensures And(x, 0) == 0
  {
  }

  /** Fields that do not overlap combine by addition. */
  lemma {:induction false} OrDisjoint(a: nat, b: nat, k: nat)
    requires a < Pow2(k)
    ensures Or(a, b * Pow2(k)) == a + b * Pow2(k)
  {
    if k == 0 {
      OrZero(b);
      assert b * Pow2(k) == b;
    } else {
      var p := Pow2(k - 1);
      assert b * (2 * p) == 2 * (b * p);
      OrDisjoint(a / 2, b, k - 1);
    }
  }

  lemma {:induction false} OrZero(b: nat)
    ensures Or(0, b) == b
    ensures Or(b, 0) == b
  {
    if b > 0 {
      OrZero(b / 2);
    }
  }

  lemma {:induction false} OrIsZero(x: nat, y: nat)
    ensures Or(x, y) == 0 <==> x == 0 && y == 0
  {
    if x > 0 || y > 0 {
      OrIsZero(x / 2, y / 2);
    }
  }

  lemma {:induction false} OrBound(x: nat, y: nat, k: nat)
    requires x < Pow2(k) && y < Pow2(k)
    ensures Or(x, y) < Pow2(k)
  {
    if k > 0 {
      OrBound(x / 2, y / 2, k - 1);
    }
  }

  lemma {:induction false} XorBound(x: nat, y: nat, k: nat)
    requires x < Pow2(k) && y < Pow2(k)
    ensures Xor(x, y) < Pow2(k)
  {
    if k > 0 {
      XorBound(x / 2, y / 2, k - 1);
    }
  }

  /** Adding the same key stream twice gives the text back. */
  lemma {:induction false} XorInverse(x: nat, y: nat)
    ensures Xor(Xor(x, y), y) == x
    decreases x + y
  {
    if x > 0 || y > 0 {
      XorInverse(x / 2, y / 2);
      var z := Xor(x, y);
      assert z / 2 == Xor(x / 2, y / 2);
    }
  }

  lemma {:induction false} XorZero(x: nat)
    ensures Xor(0, x) == x
  {
    if x > 0 {
      XorZero(x / 2);
    }
  }

  lemma {:induction false} XorCommutes(x: nat, y: nat)
    ensures Xor(x, y) == Xor(y, x)
    decreases x + y
  {
    if x > 0 || y > 0 {
      XorCommutes(x / 2, y / 2);
    }
  }

  lemma {:induction false} XorIsZero(x: nat, y: nat)
    ensures Xor(x, y) == 0 <==> x == y
    decreases x + y
  {
    if x > 0 || y > 0 {
      XorIsZero(x / 2, y / 2);
    }
  }

  /** Xor and Or stay inside a byte. */
  function XorByte(x: byte, y: byte): (z: byte) {
    assert Pow2(8) == 256 by { Pow2Table(); }
    XorBound(x, y, 8);
    Xor(x, y)
  }

  function OrByte(x: byte, y: byte): (z: byte) {
    assert Pow2(8) == 256 by { Pow2Table(); }
    OrBound(x, y, 8);
    Or(x, y)
  }

  lemma Pow2Table()
    ensures Pow2(2) == 4 && Pow2(6) == 0x40 && Pow2(8) == 0x100 && Pow2(12) == 0x1000 && Pow2(14) == 0x4000
    ensures Pow2(18) == 0x4_0000 && Pow2(20) == 0x10_0000 && Pow2(24) == 0x100_0000
    ensures Pow2(26) == 0x400_0000 && Pow2(32) == 0x1_0000_0000
  {
    assert Pow2(4) == 16;
    assert Pow2(6) == 64;
    assert Pow2(8) == 256;
    assert Pow2(10) == 1024;
    assert Pow2(12) == 4096;
    assert Pow2(14) == 0x4000;
    assert Pow2(16) == 0x1_0000;
    assert Pow2(18) == 0x4_0000;
    assert Pow2(20) == 0x10_0000;
    assert Pow2(22) == 0x40_0000;
    assert Pow2(24) == 0x100_0000;
    assert Pow2(26) == 0x400_0000;
    assert Pow2(28) == 0x1000_0000;
    assert Pow2(30) == 0x4000_0000;
    assert Pow2(32) == 0x1_0000_0000;
  }

  lemma EightMore(k: nat)
    ensures Pow2(k + 8) == 256 * Pow2(k)
  {
    assert Pow2(k + 2) == 4 * Pow2(k);
    assert Pow2(k + 4) == 16 * Pow2(k);
    assert Pow2(k + 6) == 64 * Pow2(k);
  }

  /** Little-endian value of a byte string. */
  function Le(b: seq<byte>): nat {
    if |b| == 0 then 0 else b[0] + 256 * Le(b[1..])
  }

  /** The `n` low bytes of `v`, least significant first. */
  function ToLe(v: nat, n: nat): (b: seq<byte>)
    ensures |b| == n
  {
    if n == 0 then [] else [v % 256] + ToLe(v / 256, n - 1)
  }

  function Word(a: byte, b: byte, c: byte, d: byte): u32 {
    a as int + b as int * 0x100 + c as int * 0x1_0000 + d as int * 0x100_0000
  }

  /** A 32-bit little-endian load at offset `at`. */
  function Ld32(b: seq<byte>, at: nat): u32
    requires at + 4 <= |b|
  {
    Word(b[at], b[at + 1], b[at + 2], b[at + 3])
  }

  lemma LeWord(b: seq<byte>)
    requires |b| >= 4
    ensures Le(b) == Ld32(b, 0) + TWO32 * Le(b[4..])
  {
    assert b[1..][1..] == b[2..];
    assert b[2..][1..] == b[3..];
    assert b[3..][1..] == b[4..];
    assert Le(b) == b[0] + 256 * Le(b[1..]);
    assert Le(b[1..]) == b[1] + 256 * Le(b[2..]);
    assert Le(b[2..]) == b[2] + 256 * Le(b[3..]);
    assert Le(b[3..]) == b[3] + 256 * Le(b[4..]);
  }

  /** A 16-byte string is its four words. */
  lemma LeFourWords(b: seq<byte>)
    requires |b| == 16
    ensures Le(b) == Ld32(b, 0) + 0x1_0000_0000 * Ld32(b, 4)
                     + 0x1_0000_0000_0000_0000 * Ld32(b, 8)
                     + 0x1_0000_0000_0000_0000_0000_0000 * Ld32(b, 12)
  {
    LeWord(b);
    LeWord(b[4..]);
    LeWord(b[8..]);
    LeWord(b[12..]);
    assert b[4..][4..] == b[8..] && b[8..][4..] == b[12..] && b[12..][4..] == [];
  }

  lemma {:induction false} LeBound(b: seq<byte>)
    ensures Le(b) < Pow2(8 * |b|)
  {
    if |b| > 0 {
      LeBound(b[1..]);
      var k := 8 * |b[1..]|;
      assert Pow2(k + 8) == 256 * Pow2(k) by {
        assert Pow2(k + 2) == 4 * Pow2(k);
        assert Pow2(k + 4) == 16 * Pow2(k);
        assert Pow2(k + 6) == 64 * Pow2(k);
      }
    }
  }

  lemma {:induction false} ToLeInverse(v: nat, n: nat)
    requires v < Pow2(8 * n)
    ensures Le(ToLe(v, n)) == v
  {
    if n > 0 {
      EightMore(8 * (n - 1));
      assert 8 * (n - 1) + 8 == 8 * n;
      ToLeInverse(v / 256, n - 1);
      assert ToLe(v, n)[1..] == ToLe(v / 256, n - 1);
    }
  }

  /** The bytes of a number determine it below 256^n, and a byte string is recovered from its value. */
  lemma {:induction false} LeInverse(b: seq<byte>)
    ensures ToLe(Le(b), |b|) == b
  {
    if |b| > 0 {
      LeInverse(b[1..]);
      assert Le(b) % 256 == b[0] && Le(b) / 256 == Le(b[1..]);
      assert b == [b[0]] + b[1..];
    }
  }
}

/** Poly1305 (section 2.5 of RFC 8439) as the transport computes it: a streaming
    object over five 26-bit limbs, proved to produce the mathematical tag. */
module Poly1305 {
  import opened Bits
  import opened Poly1305Limbs

  // ---------------------------------------------------------------- the standard

  /** The clamped multiplier: four bytes lose their high nibble, three their low two bits. */
  function ClampBytes(k: seq<byte>): (c: seq<byte>)
    requires |k| == 16
    ensures |c| == 16
  {
    [k[0], k[1], k[2], k[3] % 16,
     k[4] - k[4] % 4, k[5], k[6], k[7] % 16,
     k[8] - k[8] % 4, k[9], k[10], k[11] % 16,
     k[12] - k[12] % 4, k[13], k[14], k[15] % 16]
  }

  /** Section 2.5: every block, with a one byte appended, is added and the sum multiplied by r. */
  function Evaluate(r: nat, acc: nat, msg: seq<byte>): nat
    decreases |msg|
  {
    if |msg| == 0 then acc
    else
      var n := if |msg| < 16 then |msg| else 16;
      Evaluate(r, ((acc + Le(msg[..n] + [1])) * r) % PRIME, msg[n..])
  }

  /** The tag of `msg` under a 32-byte one-time key. */
  function Mac(key: seq<byte>, msg: seq<byte>): (tag: seq<byte>)
    requires |key| == 32
    ensures |tag| == 16
  {
    ToLe((Evaluate(Le(ClampBytes(key[..16])), 0, msg) + Le(key[16..])) % TWO128, 16)
  }

  // ---------------------------------------------------------------- limb code

  /** The multiplier limbs, masked as they are loaded. */
  function LoadR(key: seq<byte>): (r: Limbs)
    requires |key| == 32
    ensures ROk(r) && Value(r) == Le(ClampBytes(key[..16]))
  {
    ClampExact(key);
    Limbs(And(Ld32(key, 0), 0x3ff_ffff), And(Ld32(key, 3) / 4, 0x3ff_ff03), And(Ld32(key, 6) / 16, 0x3ff_c0ff),
          And(Ld32(key, 9) / 64, 0x3f0_3fff), And(Ld32(key, 12) / 256, 0xf_ffff))
  }

  /** The accumulator after every whole block of `msg`. */
  function LimbsAfter(r: Limbs, h: Limbs, msg: seq<byte>, hibit: u32): (h': Limbs)
    requires ROk(r) && HOk(h) && (hibit == 0 || hibit == 0x100_0000)
    ensures HOk(h')
    decreases |msg|
  {
    if |msg| < 16 then h else LimbsAfter(r, BlockStep(r, h, msg[..16], hibit), msg[16..], hibit)
  }

  /** The carry chain before the last subtraction. */
  function Propagate(h: Limbs): (f: Limbs)
    requires HOk(h)
    ensures f.l0 < TWO26 && f.l1 < TWO26 && f.l2 < TWO26 && f.l3 < TWO26 && f.l4 < TWO26
    ensures Value(f) % PRIME == Value(h) % PRIME
  {
    hide Value;
    var c1: u32 := h.l1 / TWO26;
    var h2: u32 := h.l2 + c1;
    var c2: u32 := h2 / TWO26;
    var h3: u32 := h.l3 + c2;
    var c3: u32 := h3 / TWO26;
    var h4: u32 := h.l4 + c3;
    var c4: u32 := h4 / TWO26;
    var h0: u32 := h.l0 + c4 * 5;
    var c0: u32 := h0 / TWO26;
    var f := Limbs(h0 % TWO26, h.l1 % TWO26 + c0, h2 % TWO26, h3 % TWO26, h4 % TWO26);
    PropagateExact(h, f, c0, c1, c2, c3, c4);
    f
  }

  /** h + 5 - 2^130 with 32-bit wrap-around in the top limb. */
  function MinusPrime(h: Limbs): Limbs
    requires h.l0 < TWO26 && h.l1 < TWO26 && h.l2 < TWO26 && h.l3 < TWO26 && h.l4 < TWO26
  {
    var g0: u32 := h.l0 + 5;
    var g1: u32 := h.l1 + g0 / TWO26;
    var g2: u32 := h.l2 + g1 / TWO26;
    var g3: u32 := h.l3 + g2 / TWO26;
    var g4: u32 := (h.l4 + g3 / TWO26 - TWO26) % TWO32;
    Limbs(g0 % TWO26, g1 % TWO26, g2 % TWO26, g3 % TWO26, g4)
  }

  /** All ones when the top bit is clear, zero when it is set. */
  function SignMask(x: u32): (mask: u32)
    ensures mask == if x < 0x8000_0000 then 0xffff_ffff else 0
  {
    (x / 0x8000_0000 - 1) % TWO32
  }

  /** `b` where the mask has ones, `a` where it has zeros. */
  function Choose(mask: u32, a: u32, b: u32): (x: u32)
    requires mask == 0 || mask == 0xffff_ffff
    ensures x == if mask == 0 then a else b
  {
    Selected(mask, a);
    Selected(mask, b);
    OrZero(a);
    OrZero(b);
    Or(And(a, 0xffff_ffff - mask), And(b, mask))
  }

  lemma Selected(mask: u32, x: u32)
    requires mask == 0 || mask == 0xffff_ffff
    ensures And(x, mask) == if mask == 0 then 0 else x
    ensures And(x, 0xffff_ffff - mask) == if mask == 0 then x else 0
  {
    hide And, Pow2;
    AndZero(x);
    Pow2Table();
    AndOnes(x, 32);
  }

  /** The constant-time conditional subtraction: a full reduction modulo 2^130 - 5. */
  function Reduce(h: Limbs): (f: Limbs)
    requires HOk(h)
    ensures f.l0 < TWO26 && f.l1 < TWO26 && f.l2 < TWO26 && f.l3 < TWO26 && f.l4 < TWO26
    ensures Value(f) == Value(h) % PRIME
  {
    var p := Propagate(h);
    var g := MinusPrime(p);
    var mask := SignMask(g.l4);
    var f := Limbs(Choose(mask, p.l0, g.l0), Choose(mask, p.l1, g.l1), Choose(mask, p.l2, g.l2),
                   Choose(mask, p.l3, g.l3), Choose(mask, p.l4, g.l4));
    assert f == if mask == 0 then p else g;
    SubtractExact(p, g);
    f
  }

  datatype Words = Words(w0: u32, w1: u32, w2: u32, w3: u32)

  function WordsValue(w: Words): nat {
    w.w0 as int + w.w1 as int * 0x1_0000_0000 + w.w2 as int * 0x1_0000_0000_0000_0000
    + w.w3 as int * 0x1_0000_0000_0000_0000_0000_0000
  }

  /** Five 26-bit limbs repacked as four 32-bit words; bits above 2^128 fall off. */
  function Pack(h: Limbs): (w: Words)
    requires h.l0 < TWO26 && h.l1 < TWO26 && h.l2 < TWO26 && h.l3 < TWO26 && h.l4 < TWO26
    ensures WordsValue(w) == Value(h) % TWO128
  {
    Pow2Table();
    PackWord(h.l0, h.l1, 26, TWO26, 0x40);
    PackWord(h.l1 / 0x40, h.l2, 20, 0x10_0000, 0x1000);
    PackWord(h.l2 / 0x1000, h.l3, 14, 0x4000, 0x4_0000);
    PackWord(h.l3 / 0x4_0000, h.l4, 8, 0x100, 0x100_0000);
    var w := Words(Or(h.l0, (h.l1 * TWO26) % TWO32), Or(h.l1 / 0x40, (h.l2 * 0x10_0000) % TWO32),
                   Or(h.l2 / 0x1000, (h.l3 * 0x4000) % TWO32), Or(h.l3 / 0x4_0000, (h.l4 * 0x100) % TWO32));
    assert Value(h) == TWO128 * (h.l4 / 0x100_0000) + WordsValue(w);
    WordsBound(w);
    DivModUnique(Value(h), TWO128, h.l4 / 0x100_0000, WordsValue(w));
    w
  }

  /** Addition of the second key half with the carry passed from word to word. */
  function AddPad(h: Words, pad: Words): (w: Words)
    ensures WordsValue(w) == (WordsValue(h) + WordsValue(pad)) % TWO128
  {
    var f0: u64 := h.w0 as int + pad.w0 as int;
    var f1: u64 := h.w1 as int + pad.w1 as int + f0 / TWO32;
    var f2: u64 := h.w2 as int + pad.w2 as int + f1 / TWO32;
    var f3: u64 := h.w3 as int + pad.w3 as int + f2 / TWO32;
    var w := Words(f0 % TWO32, f1 % TWO32, f2 % TWO32, f3 % TWO32);
    assert WordsValue(h) + WordsValue(pad) == TWO128 * (f3 / TWO32) + WordsValue(w);
    WordsBound(w);
    DivModUnique(WordsValue(h) + WordsValue(pad), TWO128, f3 / TWO32, WordsValue(w));
    w
  }

  lemma StoredBytes(v: u32)
    ensures v / 0x100_0000 % 0x100 == v / 0x100_0000
    ensures v % 0x100 + v / 0x100 % 0x100 * 0x100 + v / 0x1_0000 % 0x100 * 0x1_0000 + v / 0x100_0000 % 0x100 * 0x100_0000 == v
  {
    DivDiv(v, 0x100, 0x100);
    DivDiv(v, 0x1_0000, 0x100);
    FourDigits(v, v / 0x100, v / 0x1_0000, v / 0x100_0000);
  }

  lemma FourDigits(v: u32, a: nat, b: nat, c: nat)
    requires a == v / 0x100 && b == a / 0x100 && c == b / 0x100
    ensures c % 0x100 == c && v % 0x100 + a % 0x100 * 0x100 + b % 0x100 * 0x1_0000 + c % 0x100 * 0x100_0000 == v
  {
    assert v == 0x100 * a + v % 0x100 && a == 0x100 * b + a % 0x100 && b == 0x100 * c + b % 0x100;
    assert c < 0x100;
    DivModUnique(c, 0x100, 0, c);
  }

  /** A 32-bit little-endian store. */
  function St32(v: u32): (b: seq<byte>)
    ensures |b| == 4 && Ld32(b, 0) == v
  {
    StoredBytes(v);
    [v % 0x100, v / 0x100 % 0x100, v / 0x1_0000 % 0x100, v / 0x100_0000 % 0x100]
  }

  function WordBytes(w: Words): (b: seq<byte>)
    ensures |b| == 16 && b == ToLe(WordsValue(w), 16)
  {
    var b := St32(w.w0) + St32(w.w1) + St32(w.w2) + St32(w.w3);
    assert Le(b) == WordsValue(w) by {
      LeFourWords(b);
      LoadStored(w);
    }
    LeInverse(b);
    b
  }

  lemma LoadStored(w: Words)
    ensures var b := St32(w.w0) + St32(w.w1) + St32(w.w2) + St32(w.w3);
            Ld32(b, 0) == w.w0 && Ld32(b, 4) == w.w1 && Ld32(b, 8) == w.w2 && Ld32(b, 12) == w.w3
  {
    var b := St32(w.w0) + St32(w.w1) + St32(w.w2) + St32(w.w3);
    assert Ld32(b, 0) == Ld32(St32(w.w0), 0) && Ld32(b, 4) == Ld32(St32(w.w1), 0);
    assert Ld32(b, 8) == Ld32(St32(w.w2), 0) && Ld32(b, 12) == Ld32(St32(w.w3), 0);
  }

  function LoadPad(key: seq<byte>): (w: Words)
    requires |key| == 32
    ensures WordsValue(w) == Le(key[16..])
  {
    LeFourWords(key[16..]);
    Words(Ld32(key, 16), Ld32(key, 20), Ld32(key, 24), Ld32(key, 28))
  }

  // ---------------------------------------------------------------- exactness of the pieces

  /** Every carry is at most one, and the second limb cannot both give and receive one. */
  lemma PropagateExact(h: Limbs, f: Limbs, c0: nat, c1: nat, c2: nat, c3: nat, c4: nat)
    requires HOk(h) && c1 <= 1 && c2 <= c1 && c3 <= c2 && c4 <= c3 && c0 <= c4
    requires h.l1 == f.l1 - c0 + c1 * TWO26 && f.l1 - c0 < TWO26 && h.l2 + c1 == f.l2 + c2 * TWO26
    requires h.l3 + c2 == f.l3 + c3 * TWO26 && h.l4 + c3 == f.l4 + c4 * TWO26
    requires h.l0 + c4 * 5 == f.l0 + c0 * TWO26
    ensures f.l1 < TWO26 && Value(f) % PRIME == Value(h) % PRIME
  {
    assert Value(h) == Value(f) + PRIME * c4;
    hide Value;
    Congruent(Value(f), Value(h), c4);
  }

  lemma WordsBound(w: Words)
    ensures WordsValue(w) < TWO128
  {
  }

  lemma PackWord(low: nat, high: nat, k: nat, p: nat, q: nat)
    requires p == Pow2(k) && low < p && p * q == TWO32 && high < TWO26
    requires (k == 26 && q == 0x40) || (k == 20 && q == 0x1000) || (k == 14 && q == 0x4_0000) || (k == 8 && q == 0x100_0000)
    ensures Or(low, (high * p) % TWO32) == low + (high % q) * p < TWO32
  {
    hide Pow2, Or;
    var a, b := high / q, high % q;
    Pow2Table();
    ShiftSplit(a, b, p, q);
    Below(low, b, p, q);
    DivModUnique(high * p, TWO32, a, b * p);
    OrDisjoint(low, b, k);
  }

  lemma ShiftSplit(a: nat, b: nat, p: nat, q: nat)
    ensures (q * a + b) * p == (p * q) * a + b * p
  {
  }

  lemma Below(low: nat, b: nat, p: nat, q: nat)
    requires low < p && b < q
    ensures b * p + low < p * q
  {
    assert p * q == b * p + p + p * (q - b - 1);
    assert p * (q - b - 1) >= 0;
  }

  lemma SubtractExact(p: Limbs, g: Limbs)
    requires p.l0 < TWO26 && p.l1 < TWO26 && p.l2 < TWO26 && p.l3 < TWO26 && p.l4 < TWO26
    requires g == MinusPrime(p)
    ensures Value(p) >= PRIME ==> g.l4 < TWO26 && Value(g) == Value(p) - PRIME == Value(p) % PRIME
    ensures Value(p) < PRIME ==> g.l4 >= 0x8000_0000 && Value(p) == Value(p) % PRIME
  {
    hide MinusPrime;
    var c := BorrowOut(p);
    var low := g.l0 as int + g.l1 as int * TWO26 + g.l2 as int * TWO52 + g.l3 as int * TWO78;
    Borrowed(Value(p), low, c);
    assert c == TWO26 ==> g.l4 == 0 && Value(g) == low;
    assert c < TWO26 ==> g.l4 == c + TWO32 - TWO26;
    hide Value;
    OneSubtraction(Value(p));
  }

  lemma Borrowed(v: nat, low: nat, c: nat)
    requires v + 5 == low + c * TWO104 && low < TWO104 && c <= TWO26
    ensures v < 2 * PRIME && (v >= PRIME <==> c == TWO26) && (c == TWO26 ==> low == v - PRIME)
  {
  }

  lemma OneSubtraction(x: nat)
    requires x < 2 * PRIME
    ensures x % PRIME == if x >= PRIME then x - PRIME else x
  {
    if x >= PRIME {
      DivModUnique(x, PRIME, 1, x - PRIME);
    } else {
      DivModUnique(x, PRIME, 0, x);
    }
  }

  /** h + 5 in limbs: the top sum c reaches 2^26 exactly when h is at least the prime. */
  lemma BorrowOut(p: Limbs) returns (c: nat)
    requires p.l0 < TWO26 && p.l1 < TWO26 && p.l2 < TWO26 && p.l3 < TWO26 && p.l4 < TWO26
    ensures var g := MinusPrime(p);
            && g.l4 == (c - TWO26) % TWO32 && c <= TWO26
            && Value(p) + 5 == g.l0 + g.l1 as int * TWO26 + g.l2 as int * TWO52 + g.l3 as int * TWO78 + c * TWO104
            && g.l0 < TWO26 && g.l1 < TWO26 && g.l2 < TWO26 && g.l3 < TWO26
  {
    c := p.l4 + (p.l3 + (p.l2 + (p.l1 + (p.l0 + 5) / TWO26) / TWO26) / TWO26) / TWO26;
  }

  lemma ClampExact(key: seq<byte>)
    requires |key| == 32
    ensures And(Ld32(key, 0), 0x3ff_ffff) < TWO26
    ensures And(Ld32(key, 3) / 4, 0x3ff_ff03) < TWO26
    ensures And(Ld32(key, 6) / 16, 0x3ff_c0ff) < TWO26
    ensures And(Ld32(key, 9) / 64, 0x3f0_3fff) < TWO26
    ensures And(Ld32(key, 12) / 256, 0xf_ffff) < 0x10_0000
    ensures And(Ld32(key, 0), 0x3ff_ffff) + And(Ld32(key, 3) / 4, 0x3ff_ff03) * TWO26
            + And(Ld32(key, 6) / 16, 0x3ff_c0ff) * TWO52 + And(Ld32(key, 9) / 64, 0x3f0_3fff) * TWO78
            + And(Ld32(key, 12) / 256, 0xf_ffff) * TWO104 == Le(ClampBytes(key[..16]))
  {
    ClampLimb0(key[0], key[1], key[2], key[3]);
    ClampLimb1(key[3], key[4], key[5], key[6]);
    ClampLimb2(key[6], key[7], key[8], key[9]);
    ClampLimb3(key[9], key[10], key[11], key[12]);
    ClampLimb4(key[12], key[13], key[14], key[15]);
    ClampValue(key[..16]);
    ClampJoin(key[0], key[1], key[2], key[3], key[4], key[5], key[6], key[7],
              key[8], key[9], key[10], key[11], key[12], key[13], key[14], key[15]);
  }

  /** The masked limbs and the clamped words are the same number. */
  lemma ClampJoin(k0: byte, k1: byte, k2: byte, k3: byte, k4: byte, k5: byte, k6: byte, k7: byte,
                  k8: byte, k9: byte, k10: byte, k11: byte, k12: byte, k13: byte, k14: byte, k15: byte)
    ensures (k0 as int + k1 as int * 0x100 + k2 as int * 0x1_0000 + (k3 % 4) * 0x100_0000)
            + (k3 / 4 % 4 + (k4 / 4) * 0x100 + k5 as int * 0x4000 + (k6 % 16) * 0x40_0000) * TWO26
            + (k6 / 16 + (k7 % 16) * 0x10 + (k8 / 4) * 0x4000 + (k9 % 64) * 0x10_0000) * TWO52
            + (k9 / 64 + k10 as int * 4 + (k11 % 16) * 0x400 + (k12 / 4) * 0x10_0000) * TWO78
            + (k13 as int + k14 as int * 0x100 + (k15 % 16) * 0x1_0000) * TWO104
            == Word(k0, k1, k2, k3 % 16)
               + Word(k4 - k4 % 4, k5, k6, k7 % 16) * 0x1_0000_0000
               + Word(k8 - k8 % 4, k9, k10, k11 % 16) * 0x1_0000_0000_0000_0000
               + Word(k12 - k12 % 4, k13, k14, k15 % 16) * 0x1_0000_0000_0000_0000_0000_0000
  {
    assert k3 % 16 == k3 % 4 + 4 * (k3 / 4 % 4);
  }

  lemma ClampValue(k: seq<byte>)
    requires |k| == 16
    ensures Le(ClampBytes(k)) ==
            Word(k[0], k[1], k[2], k[3] % 16)
            + Word(k[4] - k[4] % 4, k[5], k[6], k[7] % 16) * 0x1_0000_0000
            + Word(k[8] - k[8] % 4, k[9], k[10], k[11] % 16) * 0x1_0000_0000_0000_0000
            + Word(k[12] - k[12] % 4, k[13], k[14], k[15] % 16) * 0x1_0000_0000_0000_0000_0000_0000
  {
    LeFourWords(ClampBytes(k));
  }

  lemma ClampLimb0(a: byte, b: byte, c: byte, d: byte)
    ensures And(Word(a, b, c, d), 0x3ff_ffff) == a as int + b as int * 0x100 + c as int * 0x1_0000 + (d % 4) * 0x100_0000
  {
    LowLimb(Word(a, b, c, d));
    CutLow(a, b, c, d);
  }

  /** A mask with a gap keeps the low ones and the high ones of the word. */
  lemma GapMask(high: nat, low: nat, k: nat, n: nat, m: nat)
    requires low < Pow2(k) && m <= k
    ensures And(high * Pow2(k) + low, (Pow2(n) - 1) * Pow2(k) + (Pow2(m) - 1)) == (high % Pow2(n)) * Pow2(k) + low % Pow2(m)
  {
    Pow2Monotone(m, k);
    AndSplit(high, low, Pow2(n) - 1, Pow2(m) - 1, k);
    AndOnes(high, n);
    AndOnes(low, m);
  }

  lemma {:induction false} Pow2Monotone(m: nat, k: nat)
    requires m <= k
    ensures Pow2(m) <= Pow2(k)
    decreases k
  {
    if m < k {
      Pow2Monotone(m, k - 1);
    }
  }

  lemma ClampLimb1(a: byte, b: byte, c: byte, d: byte)
    ensures And(Word(a, b, c, d) / 4, 0x3ff_ff03) == a / 4 % 4 + (b / 4) * 0x100 + c as int * 0x4000 + (d % 16) * 0x40_0000
  {
    hide And, Pow2;
    var high, low := b / 4 + c as int * 0x40 + d as int * 0x4000, a / 4 + (b % 4) * 0x40;
    assert And(high * 0x100 + low, 0x3ff_ff03) == (high % 0x4_0000) * 0x100 + low % 4 by {
      Pow2Table();
      GapMask(high, low, 8, 18, 2);
    }
    Fields1(a, b, c, d);
  }

  lemma Fields1(a: byte, b: byte, c: byte, d: byte)
    ensures Word(a, b, c, d) / 4 == (b / 4 + c as int * 0x40 + d as int * 0x4000) * 0x100 + (a / 4 + (b % 4) * 0x40)
    ensures (b / 4 + c as int * 0x40 + d as int * 0x4000) % 0x4_0000 == b / 4 + c as int * 0x40 + (d % 16) * 0x4000
    ensures (a / 4 + (b % 4) * 0x40) % 4 == a / 4 % 4
  {
    var x := b / 4 + c as int * 0x40 + d as int * 0x4000;
    DivModUnique(x, 0x4_0000, d / 16, b / 4 + c as int * 0x40 + (d % 16) * 0x4000);
    DivModUnique(Word(a, b, c, d), 4, x * 0x100 + (a / 4 + (b % 4) * 0x40), a % 4);
    DivModUnique(a / 4 + (b % 4) * 0x40, 4, a / 4 / 4 + (b % 4) * 0x10, a / 4 % 4);
  }

  lemma ClampLimb2(a: byte, b: byte, c: byte, d: byte)
    ensures And(Word(a, b, c, d) / 16, 0x3ff_c0ff) ==
            a / 16 + (b % 16) * 0x10 + (c / 4) * 0x4000 + (d % 64) * 0x10_0000
  {
    hide And, Pow2;
    var high, low := c / 4 + d as int * 0x40, a / 16 + b as int * 0x10 + (c % 4) * 0x1000;
    assert And(high * 0x4000 + low, 0x3ff_c0ff) == (high % 0x1000) * 0x4000 + low % 0x100 by {
      Pow2Table();
      GapMask(high, low, 14, 12, 8);
    }
    Fields2(a, b, c, d);
  }

  lemma Fields2(a: byte, b: byte, c: byte, d: byte)
    ensures Word(a, b, c, d) / 16 == (c / 4 + d as int * 0x40) * 0x4000 + (a / 16 + b as int * 0x10 + (c % 4) * 0x1000)
    ensures (c / 4 + d as int * 0x40) % 0x1000 == c / 4 + (d % 64) * 0x40
    ensures (a / 16 + b as int * 0x10 + (c % 4) * 0x1000) % 0x100 == a / 16 + (b % 16) * 0x10
  {
    var x, y := c / 4 + d as int * 0x40, a / 16 + b as int * 0x10 + (c % 4) * 0x1000;
    DivModUnique(x, 0x1000, d / 64, c / 4 + (d % 64) * 0x40);
    DivModUnique(y, 0x100, b / 16 + (c % 4) * 0x10, a / 16 + (b % 16) * 0x10);
    DivModUnique(Word(a, b, c, d), 16, x * 0x4000 + y, a % 16);
  }

  lemma ClampLimb3(a: byte, b: byte, c: byte, d: byte)
    ensures And(Word(a, b, c, d) / 64, 0x3f0_3fff) ==
            a / 64 + b as int * 4 + (c % 16) * 0x400 + (d / 4) * 0x10_0000
  {
    hide And, Pow2;
    var high, low := d / 4, a / 64 + b as int * 4 + c as int * 0x400 + (d % 4) * 0x4_0000;
    assert And(high * 0x10_0000 + low, 0x3f0_3fff) == (high % 0x40) * 0x10_0000 + low % 0x4000 by {
      Pow2Table();
      GapMask(high, low, 20, 6, 14);
    }
    Fields3(a, b, c, d);
  }

  lemma Fields3(a: byte, b: byte, c: byte, d: byte)
    ensures Word(a, b, c, d) / 64 == (d / 4) * 0x10_0000 + (a / 64 + b as int * 4 + c as int * 0x400 + (d % 4) * 0x4_0000)
    ensures (a / 64 + b as int * 4 + c as int * 0x400 + (d % 4) * 0x4_0000) % 0x4000 == a / 64 + b as int * 4 + (c % 16) * 0x400
  {
    var y := a / 64 + b as int * 4 + c as int * 0x400 + (d % 4) * 0x4_0000;
    DivModUnique(y, 0x4000, c / 16 + (d % 4) * 0x10, a / 64 + b as int * 4 + (c % 16) * 0x400);
    DivModUnique(Word(a, b, c, d), 64, (d / 4) * 0x10_0000 + y, a % 64);
  }

  lemma ClampLimb4(a: byte, b: byte, c: byte, d: byte)
    ensures And(Word(a, b, c, d) / 256, 0xf_ffff) == b as int + c as int * 0x100 + (d % 16) * 0x1_0000
  {
    hide And, Pow2;
    Pow2Table();
    assert Word(a, b, c, d) / 256 == b as int + c as int * 0x100 + d as int * 0x1_0000;
    AndOnes(Word(a, b, c, d) / 256, 20);
  }

  // ---------------------------------------------------------------- limbs against the standard

  lemma {:induction false} LeAppend(a: seq<byte>, b: seq<byte>)
    ensures Le(a + b) == Le(a) + Pow2(8 * |a|) * Le(b)
  {
    if |a| == 0 {
      assert a + b == b;
    } else {
      var k := 8 * |a[1..]|;
      assert (a + b)[1..] == a[1..] + b;
      LeAppend(a[1..], b);
      EightMore(k);
      Regroup256(Pow2(k), Le(b));
    }
  }

  lemma Regroup256(p: nat, x: nat)
    ensures 256 * p * x == 256 * (p * x)
  {
  }

  lemma {:induction false} LeZeros(n: nat)
    ensures Le(seq(n, i => 0)) == 0
  {
    if n > 0 {
      var z: seq<byte> := seq(n, i => 0);
      assert z[1..] == seq(n - 1, i => 0);
      LeZeros(n - 1);
    }
  }

  lemma Pow2At128()
    ensures Pow2(128) == TWO128
  {
    Pow2Table();
    assert Pow2(40) == Pow2(32) * 0x100 by { EightMore(32); }
    assert Pow2(48) == Pow2(32) * 0x1_0000 by { EightMore(40); }
    assert Pow2(56) == Pow2(32) * 0x100_0000 by { EightMore(48); }
    assert Pow2(64) == Pow2(32) * 0x1_0000_0000 by { EightMore(56); }
    assert Pow2(72) == Pow2(64) * 0x100 by { EightMore(64); }
    assert Pow2(80) == Pow2(64) * 0x1_0000 by { EightMore(72); }
    assert Pow2(88) == Pow2(64) * 0x100_0000 by { EightMore(80); }
    assert Pow2(96) == Pow2(64) * 0x1_0000_0000 by { EightMore(88); }
    assert Pow2(104) == Pow2(96) * 0x100 by { EightMore(96); }
    assert Pow2(112) == Pow2(96) * 0x1_0000 by { EightMore(104); }
    assert Pow2(120) == Pow2(96) * 0x100_0000 by { EightMore(112); }
    assert Pow2(128) == Pow2(96) * 0x1_0000_0000 by { EightMore(120); }
  }

  /** A full block with the appended one: the top bit the code sets in the last limb. */
  lemma FullBlock(b: seq<byte>)
    requires |b| == 16
    ensures Le(b + [1]) == Le(b) + 0x100_0000 * TWO104
  {
    LeAppend(b, [1]);
    Pow2At128();
  }

  /** What the buffer holds for a last partial block. */
  function Padded(t: seq<byte>): (b: seq<byte>)
    requires |t| < 16
    ensures |b| == 16
  {
    t + [1] + seq(15 - |t|, i => 0)
  }

  /** A partial block with the appended one and zeros has the same value as without the zeros. */
  lemma PaddedBlock(t: seq<byte>)
    requires |t| < 16
    ensures Le(Padded(t)) == Le(t + [1])
  {
    LeTrailing(t + [1], 15 - |t|);
  }

  lemma {:induction false} LeTrailing(a: seq<byte>, n: nat)
    ensures Le(a + seq(n, i => 0)) == Le(a)
  {
    var z: seq<byte> := seq(n, i => 0);
    if |a| == 0 {
      LeZeros(n);
      assert a + z == z;
    } else {
      LeTrailing(a[1..], n);
      assert (a + z)[1..] == a[1..] + z;
    }
  }

  /** Whole blocks: the limbs are the running value of the standard modulo the prime. */
  lemma {:induction false} LimbsEvaluate(r: Limbs, h: Limbs, acc: nat, msg: seq<byte>)
    requires ROk(r) && HOk(h) && acc % PRIME == Value(h) % PRIME && |msg| % 16 == 0
    ensures Evaluate(Value(r), acc, msg) % PRIME == Value(LimbsAfter(r, h, msg, 0x100_0000)) % PRIME
    decreases |msg|
  {
    hide BlockStep, Value, Le;
    if |msg| > 0 {
      var b := msg[..16];
      var h' := BlockStep(r, h, b, 0x100_0000);
      var acc' := ((acc + Le(b + [1])) * Value(r)) % PRIME;
      FullBlockStep(r, h, acc, b);
      LimbsEvaluate(r, h', acc', msg[16..]);
    }
  }

  lemma FullBlockStep(r: Limbs, h: Limbs, acc: nat, b: seq<byte>)
    requires ROk(r) && HOk(h) && acc % PRIME == Value(h) % PRIME && |b| == 16
    ensures (((acc + Le(b + [1])) * Value(r)) % PRIME) % PRIME == Value(BlockStep(r, h, b, 0x100_0000)) % PRIME
  {
    hide BlockStep, Value, Le;
    var v := Le(b + [1]);
    FullBlock(b);
    ReduceSum(acc, Value(h), v);
    ReduceFactor(acc + v, Value(h) + v, Value(r));
    SmallMod(((acc + v) * Value(r)) % PRIME);
  }

  lemma {:induction false} EvaluateSplit(r: nat, acc: nat, a: seq<byte>, b: seq<byte>)
    requires |a| % 16 == 0
    ensures Evaluate(r, acc, a + b) == Evaluate(r, Evaluate(r, acc, a), b)
    decreases |a|
  {
    if |a| == 0 {
      assert a + b == b;
    } else {
      assert (a + b)[..16] == a[..16] && (a + b)[16..] == a[16..] + b;
      EvaluateSplit(r, ((acc + Le(a[..16] + [1])) * r) % PRIME, a[16..], b);
    }
  }

  lemma {:induction false} EvaluateReduced(r: nat, acc: nat, msg: seq<byte>)
    requires acc < PRIME
    ensures Evaluate(r, acc, msg) < PRIME
    decreases |msg|
  {
    if |msg| > 0 {
      var n := if |msg| < 16 then |msg| else 16;
      EvaluateReduced(r, ((acc + Le(msg[..n] + [1])) * r) % PRIME, msg[n..]);
    }
  }

  /** Whole blocks may be absorbed in any grouping. */
  lemma {:induction false} LimbsSplit(r: Limbs, h: Limbs, a: seq<byte>, b: seq<byte>, hibit: u32)
    requires ROk(r) && HOk(h) && |a| % 16 == 0 && (hibit == 0 || hibit == 0x100_0000)
    ensures LimbsAfter(r, h, a + b, hibit) == LimbsAfter(r, LimbsAfter(r, h, a, hibit), b, hibit)
    decreases |a|
  {
    hide BlockStep;
    if |a| == 0 {
      assert a + b == b;
    } else {
      assert (a + b)[..16] == a[..16] && (a + b)[16..] == a[16..] + b;
      LimbsSplit(r, BlockStep(r, h, a[..16], hibit), a[16..], b, hibit);
    }
  }

  /** A trailing partial block leaves the accumulator alone. */
  lemma LimbsPartial(r: Limbs, h: Limbs, a: seq<byte>, t: seq<byte>)
    requires ROk(r) && HOk(h) && |a| % 16 == 0 && |t| < 16
    ensures LimbsAfter(r, h, a + t, 0x100_0000) == LimbsAfter(r, h, a, 0x100_0000)
  {
    LimbsSplit(r, h, a, t, 0x100_0000);
  }

  /** The whole blocks of a message and the bytes after them. */
  function Head(msg: seq<byte>): (a: seq<byte>)
    ensures |a| % 16 == 0
  {
    msg[..|msg| - |msg| % 16]
  }

  function Tail(msg: seq<byte>): (t: seq<byte>)
    ensures |t| == |msg| % 16 && msg == Head(msg) + t
  {
    msg[|msg| - |msg| % 16..]
  }

  lemma TailOfConcat(a: seq<byte>, t: seq<byte>)
    requires |a| % 16 == 0 && |t| < 16
    ensures Tail(a + t) == t
  {
  }

  /** The accumulator just before the reduction, with the last partial block included. */
  function FinalLimbs(r: Limbs, msg: seq<byte>): (h: Limbs)
    requires ROk(r)
    ensures HOk(h)
  {
    var whole := LimbsAfter(r, ZERO, msg, 0x100_0000);
    var t := Tail(msg);
    if |t| == 0 then whole else BlockStep(r, whole, Padded(t), 0)
  }

  /** The whole message, last partial block included. */
  lemma FinalEvaluate(r: Limbs, msg: seq<byte>)
    requires ROk(r)
    ensures Evaluate(Value(r), 0, msg) % PRIME == Value(FinalLimbs(r, msg)) % PRIME
  {
    hide BlockStep, Value, Le, Head, Tail, Padded, Evaluate, LimbsAfter;
    var a, t := Head(msg), Tail(msg);
    var acc, h := Evaluate(Value(r), 0, a), LimbsAfter(r, ZERO, a, 0x100_0000);
    assert acc % PRIME == Value(h) % PRIME by { WholeEvaluate(r, a); }
    assert h == LimbsAfter(r, ZERO, msg, 0x100_0000) by { LimbsPartial(r, ZERO, a, t); }
    assert Evaluate(Value(r), 0, msg) == Evaluate(Value(r), acc, t) by { EvaluateSplit(Value(r), 0, a, t); }
    if |t| > 0 {
      LastBlock(r, h, acc, t);
    } else {
      EvaluateNone(Value(r), acc, t);
    }
  }

  lemma EvaluateNone(r: nat, acc: nat, t: seq<byte>)
    requires |t| == 0
    ensures Evaluate(r, acc, t) == acc
  {
  }

  lemma WholeEvaluate(r: Limbs, a: seq<byte>)
    requires ROk(r) && |a| % 16 == 0
    ensures Evaluate(Value(r), 0, a) % PRIME == Value(LimbsAfter(r, ZERO, a, 0x100_0000)) % PRIME
  {
    assert Value(ZERO) == 0;
    hide Value, Evaluate, LimbsAfter;
    LimbsEvaluate(r, ZERO, 0, a);
  }

  /** The tag the limb code writes is the tag of the standard. */
  lemma TagExact(key: seq<byte>, msg: seq<byte>)
    requires |key| == 32
    ensures WordBytes(AddPad(Pack(Reduce(FinalLimbs(LoadR(key), msg))), LoadPad(key))) == Mac(key, msg)
  {
    hide Value, Reduce, Pack, AddPad, WordBytes, LoadR, LoadPad, Le, FinalLimbs, Evaluate, ClampBytes;
    var e := Evaluate(Value(LoadR(key)), 0, msg);
    FinalEvaluate(LoadR(key), msg);
    EvaluateReduced(Value(LoadR(key)), 0, msg);
    SmallMod(e);
    TailMod(e, Le(key[16..]));
  }

  lemma SmallMod(e: nat)
    requires e < PRIME
    ensures e % PRIME == e
  {
    DivModUnique(e, PRIME, 0, e);
  }

  lemma TailMod(e: nat, s: nat)
    ensures (e % TWO128 + s) % TWO128 == (e + s) % TWO128
  {
    DivModUnique(e + s, TWO128, e / TWO128 + (e % TWO128 + s) / TWO128, (e % TWO128 + s) % TWO128);
  }

  lemma LastBlock(r: Limbs, h: Limbs, acc: nat, t: seq<byte>)
    requires ROk(r) && HOk(h) && acc % PRIME == Value(h) % PRIME && 0 < |t| < 16
    ensures Evaluate(Value(r), acc, t) % PRIME == Value(BlockStep(r, h, Padded(t), 0)) % PRIME
  {
    hide BlockStep, Value, Le, Padded;
    var v := Le(t + [1]);
    EvaluateLast(Value(r), acc, t);
    PaddedBlock(t);
    ReduceSum(acc, Value(h), v);
    ReduceFactor(acc + v, Value(h) + v, Value(r));
    SmallMod((((acc + v) * Value(r)) % PRIME));
  }

  lemma EvaluateLast(r: nat, acc: nat, t: seq<byte>)
    requires 0 < |t| < 16
    ensures Evaluate(r, acc, t) == ((acc + Le(t + [1])) * r) % PRIME
  {
    hide Le;
    assert t[..|t|] == t && t[|t|..] == [];
  }

  /** A started block, completed or not, behind whole blocks. */
  lemma AfterTopUp(r: Limbs, head: seq<byte>, block: seq<byte>)
    requires ROk(r) && |head| % 16 == 0 && |block| <= 16
    ensures HOk(ZERO)
    ensures |head + block| % 16 == |block| % 16
    ensures Tail(head + block) == if |block| == 16 then [] else block
    ensures LimbsAfter(r, ZERO, head + block, 0x100_0000) ==
            if |block| == 16 then LimbsAfter(r, LimbsAfter(r, ZERO, head, 0x100_0000), block, 0x100_0000)
            else LimbsAfter(r, ZERO, head, 0x100_0000)
  {
    hide BlockStep, LimbsAfter, ROk;
    if |block| == 16 {
      LimbsSplit(r, ZERO, head, block, 0x100_0000);
    } else {
      LimbsPartial(r, ZERO, head, block);
    }
  }

  lemma Regrouped(fed: seq<byte>, m: seq<byte>)
    ensures fed + m == Head(fed) + (Tail(fed) + m)
  {
  }

  lemma Rejoined(fed: seq<byte>, m: seq<byte>, k: nat)
    requires k <= |m|
    ensures fed + m[..k] + m[k..] == fed + m
  {
  }

  // ---------------------------------------------------------------- the tag as the standard writes it

  /** The clamping mask of section 2.5, byte by byte. */
  ghost function MaskBytes(): (m: seq<byte>)
    ensures |m| == 16
  {
    [255, 255, 255, 15, 252, 255, 255, 15, 252, 255, 255, 15, 252, 255, 255, 15]
  }

  lemma MaskIs()
    ensures Le(MaskBytes()) == 0x0fff_fffc_0fff_fffc_0fff_fffc_0fff_ffff
  {
    LeFourWords(MaskBytes());
  }

  lemma {:induction false} AndBytes(k: seq<byte>, m: seq<byte>, c: seq<byte>)
    requires |k| == |m| == |c| && forall i | 0 <= i < |k| :: And(k[i], m[i]) == c[i]
    ensures And(Le(k), Le(m)) == Le(c)
  {
    hide And;
    if |k| == 0 {
      AndZero(0);
    } else {
      AndBytes(k[1..], m[1..], c[1..]);
      Pow2Table();
      AndSplit(Le(k[1..]), k[0], Le(m[1..]), m[0], 8);
    }
  }

  lemma AndByte(x: byte)
    ensures And(x, 255) == x && And(x, 15) == x % 16 && And(x, 252) == x - x % 4
  {
    hide And;
    assert Pow2(4) == 16;
    assert Pow2(2) == 4;
    Pow2Table();
    AndOnes(x, 8);
    AndOnes(x, 4);
    AndOnes(x / 4, 6);
    AndSplit(x / 4, x % 4, 63, 0, 2);
    AndZero(x % 4);
  }

  /** The clamped multiplier is the key's first half under the mask of the standard. */
  lemma ClampMask(k: seq<byte>)
    requires |k| == 16
    ensures Le(ClampBytes(k)) == And(Le(k), 0x0fff_fffc_0fff_fffc_0fff_fffc_0fff_ffff)
  {
    hide And, Le, MaskBytes, ClampBytes;
    MaskIs();
    forall i | 0 <= i < 16
      ensures And(k[i], MaskBytes()[i]) == ClampBytes(k)[i]
    {
      ClampAt(k, i);
    }
    AndBytes(k, MaskBytes(), ClampBytes(k));
  }

  lemma ClampAt(k: seq<byte>, i: nat)
    requires i < |k| == 16
    ensures And(k[i], MaskBytes()[i]) == ClampBytes(k)[i]
  {
    hide And;
    AndByte(k[i]);
    MaskAt(i);
    ClampedAt(k, i);
    hide MaskBytes, ClampBytes;
  }

  lemma MaskAt(i: nat)
    requires i < 16
    ensures MaskBytes()[i] == if i % 4 == 3 then 15 else if i % 4 == 0 && i > 0 then 252 else 255
  {
  }

  lemma ClampedAt(k: seq<byte>, i: nat)
    requires i < |k| == 16
    ensures ClampBytes(k)[i] == if i % 4 == 3 then k[i] % 16 else if i % 4 == 0 && i > 0 then k[i] - k[i] % 4 else k[i]
  {
  }

  ghost function Power(r: nat, n: nat): nat {
    if n == 0 then 1 else Power(r, n - 1) * r
  }

  /** The number a block stands for: its bytes and a one above them. */
  ghost function BlockNumber(b: seq<byte>): nat {
    Le(b) + Pow2(8 * |b|)
  }

  ghost function BlockCount(n: nat): nat {
    (n + 15) / 16
  }

  /** c1 r^q + c2 r^(q-1) + ... + cq r over the blocks of the message. */
  ghost function Polynomial(r: nat, msg: seq<byte>): nat
    decreases |msg|
  {
    if |msg| == 0 then 0
    else
      var n := if |msg| < 16 then |msg| else 16;
      BlockNumber(msg[..n]) * Power(r, BlockCount(|msg|)) + Polynomial(r, msg[n..])
  }

  ghost function First(msg: seq<byte>): (n: nat)
    ensures n <= |msg| && (|msg| > 0 ==> n > 0)
  {
    if |msg| < 16 then |msg| else 16
  }

  /** The loop is Horner's rule: what it computes is the polynomial of the blocks at r, modulo the prime. */
  lemma {:induction false} EvaluateIs(r: nat, acc: nat, msg: seq<byte>)
    requires acc < PRIME
    ensures Evaluate(r, acc, msg) == (acc * Power(r, BlockCount(|msg|)) + Polynomial(r, msg)) % PRIME
    decreases |msg|
  {
    hide Evaluate, BlockNumber, BlockCount, Polynomial, Power, First;
    if |msg| == 0 {
      NothingLeft(r, acc);
    } else {
      var b, rest := BlockNumber(msg[..First(msg)]), msg[First(msg)..];
      BlockStepIs(r, acc, msg);
      EvaluateIs(r, Reduced(acc, b, r), rest);
      Horner(acc, b, r, Power(r, BlockCount(|rest|)), Polynomial(r, rest));
    }
  }

  ghost function Reduced(acc: nat, b: nat, r: nat): (x: nat)
    ensures x < PRIME
  {
    ((acc + b) * r) % PRIME
  }

  lemma NothingLeft(r: nat, acc: nat)
    requires acc < PRIME
    ensures Evaluate(r, acc, []) == (acc * Power(r, BlockCount(0)) + Polynomial(r, [])) % PRIME
  {
    DivModUnique(acc, PRIME, 0, acc);
  }

  lemma BlockStepIs(r: nat, acc: nat, msg: seq<byte>)
    requires |msg| > 0
    ensures var n := First(msg);
            && Evaluate(r, acc, msg) == Evaluate(r, Reduced(acc, BlockNumber(msg[..n]), r), msg[n..])
            && Polynomial(r, msg) == BlockNumber(msg[..n]) * Power(r, BlockCount(|msg|)) + Polynomial(r, msg[n..])
            && Power(r, BlockCount(|msg|)) == Power(r, BlockCount(|msg[n..]|)) * r
  {
    hide Le, Pow2;
    var n := First(msg);
    LeAppend(msg[..n], [1]);
    OneIs(n);
    assert BlockCount(|msg|) == BlockCount(|msg| - n) + 1;
    hide BlockCount;
  }

  lemma OneIs(n: nat)
    ensures Le([1]) == 1 && Pow2(8 * n) * 1 == Pow2(8 * n)
  {
  }

  lemma Horner(acc: nat, b: nat, r: nat, p: nat, rest: nat)
    ensures (Reduced(acc, b, r) * p + rest) % PRIME == (acc * (p * r) + (b * (p * r) + rest)) % PRIME
  {
    var x := (acc + b) * r;
    var q, m := x / PRIME, x % PRIME;
    assert x == PRIME * q + m;
    assert x * p == PRIME * (q * p) + m * p by { Regrouping(q, m, p); }
    assert x * p == acc * (p * r) + b * (p * r) by { Sums(acc, b, r, p); }
    Congruent(m * p + rest, x * p + rest, q * p);
  }

  lemma Regrouping(q: nat, m: nat, p: nat)
    ensures (PRIME * q + m) * p == PRIME * (q * p) + m * p
  {
  }

  lemma Sums(a: nat, b: nat, r: nat, p: nat)
    ensures ((a + b) * r) * p == a * (p * r) + b * (p * r)
  {
    assert (a + b) * r == a * r + b * r;
    assert (a * r + b * r) * p == a * r * p + b * r * p;
    assert a * r * p == a * (p * r) && b * r * p == b * (p * r);
  }

  /** The tag is the polynomial of the message at the masked half of the key, modulo 2^130 - 5, plus the other
      half, in its low 128 bits, least significant byte first. */
  lemma MacIs(key: seq<byte>, msg: seq<byte>)
    requires |key| == 32
    ensures Le(Mac(key, msg)) ==
            (Polynomial(And(Le(key[..16]), 0x0fff_fffc_0fff_fffc_0fff_fffc_0fff_ffff), msg)
             % 0x3_ffff_ffff_ffff_ffff_ffff_ffff_ffff_fffb + Le(key[16..])) % 0x1_0000_0000_0000_0000_0000_0000_0000_0000
  {
    hide And, Le, ToLe, Polynomial, Evaluate, ClampBytes;
    var r := Le(ClampBytes(key[..16]));
    ClampMask(key[..16]);
    EvaluateIs(r, 0, msg);
    assert 0 * Power(r, BlockCount(|msg|)) == 0;
    var v := (Evaluate(r, 0, msg) + Le(key[16..])) % TWO128;
    Pow2At128();
    hide Pow2;
    ToLeInverse(v, 16);
  }

  // ---------------------------------------------------------------- the streaming object

  /** The state `lc_poly`. `fed` is every byte passed to Update so far. */
  class Poly {
    ghost const key: seq<byte>
    ghost var fed: seq<byte>
    var r: Limbs
    var h: Limbs
    var pad: Words
    var leftover: nat
    const buffer: array<byte>
    var final: bool

    /** The whole state is a function of the key and of the bytes fed, however they were split. */
    ghost predicate Valid()
      reads this, buffer
    {
      && |key| == 32 && buffer.Length == 16 && !final
      && leftover == |fed| % 16 && buffer[..leftover] == Tail(fed)
      && ROk(r) && r == LoadR(key) && pad == LoadPad(key)
      && h == LimbsAfter(r, ZERO, fed, 0x100_0000)
    }

    constructor (k: seq<byte>)
      requires |k| == 32
      ensures Valid() && fresh(buffer)
      ensures key == k && fed == []
    {
      hide LoadR, LoadPad;
      key := k;
      fed := [];
      r := LoadR(k);
      h := ZERO;
      pad := LoadPad(k);
      leftover := 0;
      buffer := new byte[16];
      final := false;
    }

    /** Absorbs the whole blocks of `m`; the top bit is clear only for the last partial block. */
    method Blocks(m: seq<byte>)
      requires ROk(r) && HOk(h)
      modifies this`h
      ensures h == LimbsAfter(r, old(h), m, if final then 0 else 0x100_0000)
    {
      hide BlockStep;
      var hibit: u32 := if final then 0 else 0x100_0000;
      var off := 0;
      while |m| - off >= 16
        invariant 0 <= off <= |m| && HOk(h)
        invariant LimbsAfter(r, old(h), m, hibit) == LimbsAfter(r, h, m[off..], hibit)
        modifies this`h
      {
        assert m[off..][..16] == m[off..off + 16] && m[off..][16..] == m[off + 16..];
        h := BlockStep(r, h, m[off..off + 16], hibit);
        off := off + 16;
      }
    }

    /** Copies bytes behind the ones already buffered. */
    method Stash(m: seq<byte>)
      requires buffer.Length == 16 && leftover + |m| <= 16
      modifies this`leftover, buffer
      ensures leftover == old(leftover) + |m|
      ensures buffer[..leftover] == old(buffer[..leftover]) + m
    {
      forall i | 0 <= i < |m| {
        buffer[leftover + i] := m[i];
      }
      leftover := leftover + |m|;
    }

    /** The part of Update after the buffer is empty: whole blocks at once, the rest buffered. */
    method Bulk(m: seq<byte>, ghost head: seq<byte>)
      requires buffer.Length == 16 && leftover == 0 && !final && |head| % 16 == 0 && ROk(r)
      requires h == LimbsAfter(r, ZERO, head, 0x100_0000)
      modifies this`h, this`leftover, buffer
      ensures h == LimbsAfter(r, ZERO, head + m, 0x100_0000)
      ensures leftover == |head + m| % 16 && buffer[..leftover] == Tail(head + m)
    {
      hide BlockStep, LimbsAfter, Tail, Value, ROk;
      ghost var done, rest := head, m;
      var at := 0;
      if |m| >= 16 {
        at := |m| - |m| % 16;
        Blocks(m[..at]);
        LimbsSplit(r, ZERO, head, m[..at], 0x100_0000);
        done := head + m[..at];
      }
      assert head + m == done + m[at..];
      LimbsPartial(r, ZERO, done, m[at..]);
      TailOfConcat(done, m[at..]);
      if |m| > at {
        Stash(m[at..]);
      }
    }

    /** The part of Update that completes a started block: the bytes it took from `m`. */
    method TopUp(m: seq<byte>, ghost head: seq<byte>) returns (want: nat)
      requires buffer.Length == 16 && leftover < 16 && !final && |head| % 16 == 0 && ROk(r)
      requires h == LimbsAfter(r, ZERO, head, 0x100_0000)
      modifies this`h, this`leftover, buffer
      ensures want <= |m| && (leftover > 0 ==> want == |m|)
      ensures var all := head + (old(buffer[..leftover]) + m[..want]);
              && leftover == |all| % 16 && buffer[..leftover] == Tail(all)
              && h == LimbsAfter(r, ZERO, all, 0x100_0000)
    {
      hide BlockStep, LimbsAfter, Tail, Value, ROk, HOk;
      want := if 16 - leftover > |m| then |m| else 16 - leftover;
      Stash(m[..want]);
      AfterTopUp(r, head, buffer[..leftover]);
      if leftover == 16 {
        Blocks(buffer[..16]);
        leftover := 0;
      }
    }

    /** Fills a started block first; if it stays incomplete all of `m` was taken. */
    method Resume(m: seq<byte>) returns (at: nat)
      requires Valid()
      modifies this`h, this`leftover, this`fed, buffer
      ensures Valid() && at <= |m| && fed == old(fed) + m[..at]
      ensures leftover > 0 ==> at == |m|
    {
      assert HOk(ZERO);
      hide BlockStep, LoadR, LoadPad, LimbsAfter, Head, Tail, Value, ROk, HOk;
      if leftover == 0 {
        assert fed + m[..0] == fed;
        return 0;
      }
      LimbsPartial(r, ZERO, Head(fed), Tail(fed));
      at := TopUp(m, Head(fed));
      Regrouped(fed, m[..at]);
      fed := fed + m[..at];
    }

    /** Feeding pieces one after the other is feeding their concatenation. */
    method Update(m: seq<byte>)
      requires Valid()
      modifies this`h, this`leftover, this`fed, buffer
      ensures Valid() && fed == old(fed) + m
    {
      hide BlockStep, LoadR, LoadPad, LimbsAfter, Tail, Value, ROk, HOk;
      var at := Resume(m);
      Rejoined(old(fed), m, at);
      if leftover > 0 {
        assert m[..at] == m;
        return;
      }
      Bulk(m[at..], fed);
      fed := fed + m[at..];
    }

    /** Zero bytes up to the next multiple of sixteen. */
    method Pad16(len: nat)
      requires Valid()
      modifies this`h, this`leftover, this`fed, buffer
      ensures Valid() && fed == old(fed) + ZeroPad(len)
    {
      if len % 16 != 0 {
        Update(seq(16 - len % 16, i => 0));
      }
    }

    /** The buffered bytes, a one and zeros. */
    method PadLast()
      requires buffer.Length == 16 && leftover < 16
      modifies buffer
      ensures buffer[..] == Padded(old(buffer[..leftover]))
    {
      var i := leftover;
      buffer[i] := 1;
      i := i + 1;
      while i < 16
        invariant leftover < i <= 16
        invariant buffer[..i] == old(buffer[..leftover]) + [1] + seq(i - 1 - leftover, j => 0)
      {
        buffer[i] := 0;
        i := i + 1;
      }
    }

    /** The tag of everything fed. */
    method Finish() returns (mac: seq<byte>)
      requires Valid()
      modifies this`h, this`final, buffer
      ensures mac == Mac(key, fed)
    {
      hide BlockStep, LoadR, LoadPad, Reduce, Pack, AddPad, WordBytes, Mac, Tail, Evaluate, Value;
      ghost var t, whole := Tail(fed), h;
      if leftover > 0 {
        PadLast();
        final := true;
        Blocks(buffer[..]);
        assert LimbsAfter(r, whole, buffer[..], 0) == BlockStep(r, whole, buffer[..], 0) by {
          assert buffer[..][..16] == buffer[..];
        }
      }
      assert h == FinalLimbs(r, fed);
      TagExact(key, fed);
      mac := WordBytes(AddPad(Pack(Reduce(h)), pad));
    }
  }

  function ZeroPad(len: nat): seq<byte> {
    if len % 16 == 0 then [] else seq(16 - len % 16, i => 0)
  }
}

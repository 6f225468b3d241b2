/** One Poly1305 block on five 26-bit limbs, and the full reduction at the end:
    the arithmetic modulo 2^130 - 5 that the limb code has to compute. */
module Poly1305Limbs {
  import opened Bits

  /** 2^130 - 5. */
  const PRIME: nat := 0x3_ffff_ffff_ffff_ffff_ffff_ffff_ffff_fffb
  const TWO52: nat := 0x10_0000_0000_0000
  const TWO78: nat := 0x4000_0000_0000_0000_0000
  const TWO104: nat := 0x100_0000_0000_0000_0000_0000_0000
  const TWO128: nat := 0x1_0000_0000_0000_0000_0000_0000_0000_0000
  const LOW26: nat := 0x3ff_ffff

  datatype Limbs = Limbs(l0: u32, l1: u32, l2: u32, l3: u32, l4: u32)

  /** The five double-width column sums of one multiplication. */
  datatype Columns = Columns(d0: u64, d1: u64, d2: u64, d3: u64, d4: u64)

  const ZERO: Limbs := Limbs(0, 0, 0, 0, 0)

  function Value(l: Limbs): nat {
    l.l0 as int + l.l1 as int * TWO26 + l.l2 as int * TWO52 + l.l3 as int * TWO78 + l.l4 as int * TWO104
  }

  ghost function ColumnsValue(d: Columns): nat {
    d.d0 as int + d.d1 as int * TWO26 + d.d2 as int * TWO52 + d.d3 as int * TWO78 + d.d4 as int * TWO104
  }

  /** What the clamped multiplier satisfies. */
  predicate ROk(r: Limbs) {
    r.l0 < TWO26 && r.l1 < TWO26 && r.l2 < TWO26 && r.l3 < TWO26 && r.l4 < 0x10_0000
  }

  /** The limb invariant between blocks: only the second limb may exceed 26 bits. */
  predicate HOk(h: Limbs) {
    h.l0 < TWO26 && h.l1 < TWO26 + 0x40 && h.l2 < TWO26 && h.l3 < TWO26 && h.l4 < TWO26
  }

  /** The accumulator right after a block has been added. */
  predicate SumOk(h: Limbs) {
    && h.l0 < 2 * TWO26 && h.l1 < 2 * TWO26 + 0x40 && h.l2 < 2 * TWO26
    && h.l3 < 2 * TWO26 && h.l4 < TWO26 + 0x200_0000
  }

  /** Every column is below 2^57, so that a carry of its bits from the 26th on fits 32 bits. */
  predicate ColumnsOk(d: Columns) {
    && d.d0 < 0x200_0000_0000_0000 && d.d1 < 0x200_0000_0000_0000 && d.d2 < 0x200_0000_0000_0000
    && d.d3 < 0x200_0000_0000_0000 && d.d4 < 0x7c_0000_0000_0000
  }

  /** The limbs of one 16-byte block; `hibit` is 2^24 (that is, 2^128) for a full block. */
  function BlockLimbs(b: seq<byte>, hibit: u32): (m: Limbs)
    requires |b| == 16 && (hibit == 0 || hibit == 0x100_0000)
    ensures m.l0 < TWO26 && m.l1 < TWO26 && m.l2 < TWO26 && m.l3 < TWO26 && m.l4 < 0x200_0000
    ensures Value(m) == Le(b) + hibit * TWO104
  {
    BlockLimbsExact(b, hibit);
    Limbs(And(Ld32(b, 0), LOW26), And(Ld32(b, 3) / 4, LOW26), And(Ld32(b, 6) / 16, LOW26),
          And(Ld32(b, 9) / 64, LOW26), Or(Ld32(b, 12) / 256, hibit))
  }

  function AddBlock(h: Limbs, m: Limbs): (s: Limbs)
    requires HOk(h)
    requires m.l0 < TWO26 && m.l1 < TWO26 && m.l2 < TWO26 && m.l3 < TWO26 && m.l4 < 0x200_0000
    ensures SumOk(s) && Value(s) == Value(h) + Value(m)
  {
    Limbs(h.l0 + m.l0, h.l1 + m.l1, h.l2 + m.l2, h.l3 + m.l3, h.l4 + m.l4)
  }

  /** The products of one accumulator limb with every multiplier limb r and with s = 5 * r. */
  datatype Row = Row(r0: nat, r1: nat, r2: nat, r3: nat, r4: nat, s1: nat, s2: nat, s3: nat, s4: nat)

  /** The factors of s are 32-bit words. */
  function RowOf(x: nat, r: Limbs): Row
    requires ROk(r)
  {
    var s1: u32 := r.l1 * 5;
    var s2: u32 := r.l2 * 5;
    var s3: u32 := r.l3 * 5;
    var s4: u32 := r.l4 * 5;
    Row(x * r.l0, x * r.l1, x * r.l2, x * r.l3, x * r.l4, x * s1, x * s2, x * s3, x * s4)
  }

  function Multiply(h: Limbs, r: Limbs): (d: Columns)
    requires SumOk(h) && ROk(r)
    ensures ColumnsOk(d)
    ensures ColumnsValue(d) % PRIME == (Value(h) * Value(r)) % PRIME
  {
    MultiplyExact(h, r);
    Sums(RowOf(h.l0, r), RowOf(h.l1, r), RowOf(h.l2, r), RowOf(h.l3, r), RowOf(h.l4, r))
  }

  /** The five column sums d0..d4. */
  function Sums(p0: Row, p1: Row, p2: Row, p3: Row, p4: Row): Columns
    requires RowOk(p0, 2 * TWO26) && RowOk(p1, 2 * TWO26 + 0x40) && RowOk(p2, 2 * TWO26)
    requires RowOk(p3, 2 * TWO26) && RowOk(p4, TWO26 + 0x200_0000)
  {
    Columns(p0.r0 + p1.s4 + p2.s3 + p3.s2 + p4.s1,
            p0.r1 + p1.r0 + p2.s4 + p3.s3 + p4.s2,
            p0.r2 + p1.r1 + p2.r0 + p3.s4 + p4.s3,
            p0.r3 + p1.r2 + p2.r1 + p3.r0 + p4.s4,
            p0.r4 + p1.r3 + p2.r2 + p3.r1 + p4.r0)
  }

  /** Bounds of the products of a limb below `b`. */
  predicate RowOk(p: Row, b: nat) {
    var m, n := (b - 1) * 0x3ff_ffff, (b - 1) * 0xf_ffff;
    && p.r0 <= m && p.r1 <= m && p.r2 <= m && p.r3 <= m && p.r4 <= n
    && p.s1 == 5 * p.r1 && p.s2 == 5 * p.r2 && p.s3 == 5 * p.r3 && p.s4 == 5 * p.r4
  }

  /** The carry chain of one block, ending with the carry out of the top limb folded back times 5. Every
      carry is a 32-bit word and every sum a 64-bit one: the code's conversions drop nothing. */
  function Carry(d: Columns): (h: Limbs)
    requires ColumnsOk(d)
    ensures HOk(h)
    ensures Value(h) % PRIME == ColumnsValue(d) % PRIME
  {
    var c0: u32 := d.d0 / TWO26;
    var d1: u64 := d.d1 + c0;
    var c1: u32 := d1 / TWO26;
    var d2: u64 := d.d2 + c1;
    var c2: u32 := d2 / TWO26;
    var d3: u64 := d.d3 + c2;
    var c3: u32 := d3 / TWO26;
    var d4: u64 := d.d4 + c3;
    var c4: u32 := d4 / TWO26;
    var f: u32 := c4 * 5;
    var h0: u32 := d.d0 % TWO26 + f;
    var c5: u32 := h0 / TWO26;
    var h := Limbs(h0 % TWO26, d1 % TWO26 + c5, d2 % TWO26, d3 % TWO26, d4 % TWO26);
    assert ColumnsValue(d) == Value(h) + PRIME * c4;
    Congruent(Value(h), ColumnsValue(d), c4);
    h
  }

  /** One iteration of the block loop. */
  function BlockStep(r: Limbs, h: Limbs, b: seq<byte>, hibit: u32): (h': Limbs)
    requires ROk(r) && HOk(h) && |b| == 16 && (hibit == 0 || hibit == 0x100_0000)
    ensures HOk(h')
    ensures Value(h') % PRIME == ((Value(h) + Le(b) + hibit * TWO104) * Value(r)) % PRIME
  {
    hide Carry, Multiply, AddBlock, BlockLimbs, Value, ColumnsValue, Le, And, Or;
    var s := AddBlock(h, BlockLimbs(b, hibit));
    var out := Carry(Multiply(s, r));
    assert Value(s) == Value(h) + Le(b) + hibit * TWO104;
    assert Value(out) % PRIME == (Value(s) * Value(r)) % PRIME;
    out
  }

  // ---------------------------------------------------------------- block limbs

  lemma LowLimb(x: nat)
    ensures And(x, LOW26) == x % TWO26
  {
    Pow2Table();
    AndOnes(x, 26);
  }

  lemma BlockLimbsExact(b: seq<byte>, hibit: u32)
    requires |b| == 16 && (hibit == 0 || hibit == 0x100_0000)
    ensures And(Ld32(b, 0), LOW26) < TWO26
    ensures And(Ld32(b, 3) / 4, LOW26) < TWO26
    ensures And(Ld32(b, 6) / 16, LOW26) < TWO26
    ensures And(Ld32(b, 9) / 64, LOW26) < TWO26
    ensures Or(Ld32(b, 12) / 256, hibit) < 0x200_0000
    ensures And(Ld32(b, 0), LOW26) + And(Ld32(b, 3) / 4, LOW26) * TWO26
            + And(Ld32(b, 6) / 16, LOW26) * TWO52 + And(Ld32(b, 9) / 64, LOW26) * TWO78
            + Or(Ld32(b, 12) / 256, hibit) * TWO104 == Le(b) + hibit * TWO104
  {
    LowLimb(Ld32(b, 0));
    LowLimb(Ld32(b, 3) / 4);
    LowLimb(Ld32(b, 6) / 16);
    LowLimb(Ld32(b, 9) / 64);
    HighLimb(Ld32(b, 12) / 256, hibit);
    LimbsJoin(b);
  }

  lemma LimbsJoin(b: seq<byte>)
    requires |b| == 16
    ensures Le(b) == Ld32(b, 0) % TWO26 + (Ld32(b, 3) / 4 % TWO26) * TWO26 + (Ld32(b, 6) / 16 % TWO26) * TWO52
                     + (Ld32(b, 9) / 64 % TWO26) * TWO78 + (Ld32(b, 12) / 256) * TWO104
  {

    assert Le(b) == Ld32(b, 0) + Ld32(b, 4) * 0x1_0000_0000 + Ld32(b, 8) * 0x1_0000_0000_0000_0000
                    + Ld32(b, 12) * 0x1_0000_0000_0000_0000_0000_0000 by {
      LeFourWords(b);
    }
    Join(b[0], b[1], b[2], b[3], b[4], b[5], b[6], b[7], b[8], b[9], b[10], b[11], b[12], b[13], b[14], b[15]);
  }

  lemma HighLimb(x: nat, hibit: u32)
    requires x < 0x100_0000 && (hibit == 0 || hibit == 0x100_0000)
    ensures Or(x, hibit) == x + hibit
  {
    Pow2Table();
    if hibit == 0 {
      OrZero(x);
    } else {
      OrDisjoint(x, 1, 24);
    }
  }

  /** The four words of a block and its five limbs are the same sixteen bytes. */
  lemma Join(b0: byte, b1: byte, b2: byte, b3: byte, b4: byte, b5: byte, b6: byte, b7: byte,
             b8: byte, b9: byte, b10: byte, b11: byte, b12: byte, b13: byte, b14: byte, b15: byte)
    ensures Word(b0, b1, b2, b3) % TWO26 + (Word(b3, b4, b5, b6) / 4 % TWO26) * TWO26
            + (Word(b6, b7, b8, b9) / 16 % TWO26) * TWO52 + (Word(b9, b10, b11, b12) / 64 % TWO26) * TWO78
            + (Word(b12, b13, b14, b15) / 256) * TWO104
            == Word(b0, b1, b2, b3) + Word(b4, b5, b6, b7) * 0x1_0000_0000
               + Word(b8, b9, b10, b11) * 0x1_0000_0000_0000_0000
               + Word(b12, b13, b14, b15) * 0x1_0000_0000_0000_0000_0000_0000
  {
    CutLow(b0, b1, b2, b3);
    Cut4(b3, b4, b5, b6);
    Cut16(b6, b7, b8, b9);
    Cut64(b9, b10, b11, b12);
    assert Word(b12, b13, b14, b15) / 256 == b13 as int + b14 as int * 0x100 + b15 as int * 0x1_0000;
  }

  lemma CutLow(a: byte, b: byte, c: byte, d: byte)
    ensures Word(a, b, c, d) % TWO26 == a as int + b as int * 0x100 + c as int * 0x1_0000 + (d % 4) * 0x100_0000
  {
    DivModUnique(Word(a, b, c, d), TWO26, d / 4, a as int + b as int * 0x100 + c as int * 0x1_0000 + (d % 4) * 0x100_0000);
  }

  lemma Cut4(a: byte, b: byte, c: byte, d: byte)
    ensures Word(a, b, c, d) / 4 % TWO26 == a / 4 + b as int * 0x40 + c as int * 0x4000 + (d % 16) * 0x40_0000
  {
    var x := a / 4 + b as int * 0x40 + c as int * 0x4000 + d as int * 0x40_0000;
    assert Word(a, b, c, d) / 4 == x;
    DivModUnique(x, TWO26, d / 16, a / 4 + b as int * 0x40 + c as int * 0x4000 + (d % 16) * 0x40_0000);
  }

  lemma Cut16(a: byte, b: byte, c: byte, d: byte)
    ensures Word(a, b, c, d) / 16 % TWO26 == a / 16 + b as int * 0x10 + c as int * 0x1000 + (d % 64) * 0x10_0000
  {
    var x := a / 16 + b as int * 0x10 + c as int * 0x1000 + d as int * 0x10_0000;
    assert Word(a, b, c, d) / 16 == x;
    DivModUnique(x, TWO26, d / 64, a / 16 + b as int * 0x10 + c as int * 0x1000 + (d % 64) * 0x10_0000);
  }

  lemma Cut64(a: byte, b: byte, c: byte, d: byte)
    ensures Word(a, b, c, d) / 64 % TWO26 == a / 64 + b as int * 4 + c as int * 0x400 + d as int * 0x4_0000
  {
    assert Word(a, b, c, d) / 64 == a / 64 + b as int * 4 + c as int * 0x400 + d as int * 0x4_0000;
  }

  // ---------------------------------------------------------------- congruences

  lemma Congruent(a: nat, b: nat, k: nat)
    requires b == a + PRIME * k
    ensures a % PRIME == b % PRIME
  {
    DivModUnique(b, PRIME, a / PRIME + k, a % PRIME);
  }

  /** Reducing a factor first does not change the product modulo the prime. */
  lemma ReduceFactor(a: nat, b: nat, x: nat)
    requires a % PRIME == b % PRIME
    ensures (a * x) % PRIME == (b * x) % PRIME
  {
    var q, p, m := a / PRIME, b / PRIME, a % PRIME;
    Distribute(PRIME * q, m, x);
    Distribute(PRIME * p, m, x);
    Regroup(q, x);
    Regroup(p, x);
    Congruent(m * x, a * x, q * x);
    Congruent(m * x, b * x, p * x);
  }

  lemma ReduceSum(a: nat, b: nat, x: nat)
    requires a % PRIME == b % PRIME
    ensures (a + x) % PRIME == (b + x) % PRIME
  {
    Congruent(a % PRIME + x, a + x, a / PRIME);
    Congruent(a % PRIME + x, b + x, b / PRIME);
  }

  lemma Distribute(a: int, b: int, x: int)
    ensures (a + b) * x == a * x + b * x
  {
  }

  lemma Regroup(q: nat, x: nat)
    ensures (PRIME * q) * x == PRIME * (q * x)
  {
  }

  lemma Times5(h: nat, r: nat)
    ensures h * (r * 5) == 5 * (h * r)
  {
  }

  lemma Bound(h: nat, r: nat, hb: nat, rb: nat)
    requires h < hb && r < rb
    ensures 0 <= h * r <= (hb - 1) * (rb - 1)
  {
    Monotone(h, r, rb - 1);
    Monotone(rb - 1, h, hb - 1);
  }

  lemma Monotone(a: nat, x: nat, y: nat)
    requires x <= y
    ensures 0 <= a * x <= a * y && a * y == y * a && a * x == x * a
  {
    assert a * y == a * x + a * (y - x);
  }

  /** A product of a limb vector with a number, limb by limb. */
  lemma ScaleValue(l: Limbs, x: nat)
    ensures Value(l) * x == l.l0 * x + (l.l1 * x) * TWO26 + (l.l2 * x) * TWO52 + (l.l3 * x) * TWO78 + (l.l4 * x) * TWO104
  {
    Distribute(l.l0 as int + l.l1 as int * TWO26 + l.l2 as int * TWO52 + l.l3 as int * TWO78, l.l4 * TWO104, x);
    Distribute(l.l0 as int + l.l1 as int * TWO26 + l.l2 as int * TWO52, l.l3 * TWO78, x);
    Distribute(l.l0 as int + l.l1 as int * TWO26, l.l2 * TWO52, x);
    Distribute(l.l0, l.l1 * TWO26, x);
    Swap(l.l1, TWO26, x);
    Swap(l.l2, TWO52, x);
    Swap(l.l3, TWO78, x);
    Swap(l.l4, TWO104, x);
  }

  lemma Swap(a: nat, w: nat, x: nat)
    ensures (a * w) * x == (a * x) * w
  {
  }

  lemma RowOfOk(x: nat, b: nat, r: Limbs)
    requires ROk(r) && x < b
    ensures RowOk(RowOf(x, r), b)
  {
    Bound(x, r.l0, b, TWO26);
    Bound(x, r.l1, b, TWO26);
    Bound(x, r.l2, b, TWO26);
    Bound(x, r.l3, b, TWO26);
    Bound(x, r.l4, b, 0x10_0000);
    Times5(x, r.l1);
    Times5(x, r.l2);
    Times5(x, r.l3);
    Times5(x, r.l4);
  }

  function RowValue(p: Row): nat {
    p.r0 + p.r1 * TWO26 + p.r2 * TWO52 + p.r3 * TWO78 + p.r4 * TWO104
  }

  /** The schoolbook product of two limb vectors. */
  lemma FullProduct(h: Limbs, r: Limbs)
    requires ROk(r)
    ensures Value(h) * Value(r) ==
            RowValue(RowOf(h.l0, r)) + RowValue(RowOf(h.l1, r)) * TWO26 + RowValue(RowOf(h.l2, r)) * TWO52
            + RowValue(RowOf(h.l3, r)) * TWO78 + RowValue(RowOf(h.l4, r)) * TWO104
  {
    ScaleValue(h, Value(r));
    RowProduct(h.l0, r);
    RowProduct(h.l1, r);
    RowProduct(h.l2, r);
    RowProduct(h.l3, r);
    RowProduct(h.l4, r);
  }

  lemma RowProduct(x: nat, r: Limbs)
    requires ROk(r)
    ensures x * Value(r) == RowValue(RowOf(x, r))
  {
    ScaleValue(r, x);
    Commute(x, Value(r));
    Commute(x, r.l0);
    Commute(x, r.l1);
    Commute(x, r.l2);
    Commute(x, r.l3);
    Commute(x, r.l4);
  }

  lemma Commute(a: nat, b: nat)
    ensures a * b == b * a
  {
  }

  /** No column overflows, and what the columns leave out of the product is a multiple of the prime. */
  lemma SumsFold(p0: Row, p1: Row, p2: Row, p3: Row, p4: Row) returns (k: nat)
    requires RowOk(p0, 2 * TWO26) && RowOk(p1, 2 * TWO26 + 0x40) && RowOk(p2, 2 * TWO26)
    requires RowOk(p3, 2 * TWO26) && RowOk(p4, TWO26 + 0x200_0000)
    ensures ColumnsOk(Sums(p0, p1, p2, p3, p4))
    ensures RowValue(p0) + RowValue(p1) * TWO26 + RowValue(p2) * TWO52 + RowValue(p3) * TWO78 + RowValue(p4) * TWO104
            == ColumnsValue(Sums(p0, p1, p2, p3, p4)) + PRIME * k
  {
    k := (p1.r4 + p2.r3 + p3.r2 + p4.r1) + (p2.r4 + p3.r3 + p4.r2) * TWO26 + (p3.r4 + p4.r3) * TWO52 + p4.r4 * TWO78;
  }

  lemma MultiplyExact(h: Limbs, r: Limbs)
    requires SumOk(h) && ROk(r)
    ensures RowOk(RowOf(h.l0, r), 2 * TWO26) && RowOk(RowOf(h.l1, r), 2 * TWO26 + 0x40)
    ensures RowOk(RowOf(h.l2, r), 2 * TWO26) && RowOk(RowOf(h.l3, r), 2 * TWO26)
    ensures RowOk(RowOf(h.l4, r), TWO26 + 0x200_0000)
    ensures var d := Sums(RowOf(h.l0, r), RowOf(h.l1, r), RowOf(h.l2, r), RowOf(h.l3, r), RowOf(h.l4, r));
            ColumnsOk(d) && ColumnsValue(d) % PRIME == (Value(h) * Value(r)) % PRIME
  {
    RowOfOk(h.l0, 2 * TWO26, r);
    RowOfOk(h.l1, 2 * TWO26 + 0x40, r);
    RowOfOk(h.l2, 2 * TWO26, r);
    RowOfOk(h.l3, 2 * TWO26, r);
    RowOfOk(h.l4, TWO26 + 0x200_0000, r);
    FullProduct(h, r);
    var k := SumsFold(RowOf(h.l0, r), RowOf(h.l1, r), RowOf(h.l2, r), RowOf(h.l3, r), RowOf(h.l4, r));
    Congruent(ColumnsValue(Sums(RowOf(h.l0, r), RowOf(h.l1, r), RowOf(h.l2, r), RowOf(h.l3, r), RowOf(h.l4, r))),
              Value(h) * Value(r), k);
  }
}

/** Body buffers and cursors: little-endian numbers, fixed bytes, and counted printable text. */
module Wire {
  import opened Bits
  import opened Wrappers

  /** One value on the wire, and what a reader expects there. */
  datatype Field = Num(width: nat, value: nat) | Fixed(bytes: seq<byte>) | Text(text: seq<byte>)
  datatype Shape = NumOf(width: nat) | FixedOf(size: nat) | TextOf(cap: nat)

  /** Text a terminal may show: no control character, nothing beyond ASCII. */
  predicate Printable(s: seq<byte>) {
    forall i | 0 <= i < |s| :: 32 <= s[i] < 127
  }

  predicate FieldOk(f: Field, shape: Shape) {
    match shape
    case NumOf(w) => f.Num? && f.width == w && f.value < Pow2(8 * w)
    case FixedOf(n) => f.Fixed? && |f.bytes| == n
    case TextOf(cap) => f.Text? && |f.text| < cap && |f.text| < 0x1_0000 && Printable(f.text)
  }

  /** What the writer appends for one value. */
  function Written(f: Field): seq<byte> {
    match f
    case Num(w, v) => ToLe(v, w)
    case Fixed(b) => b
    case Text(s) => ToLe(|s|, 2) + s
  }

  function AllWritten(fs: seq<Field>): seq<byte> {
    if |fs| == 0 then [] else Written(fs[0]) + AllWritten(fs[1..])
  }

  /** A value and the offset after it. */
  datatype Read<T> = Read(value: T, off: nat)

  /** One read at an offset; None is the error return. */
  function ReadField(b: seq<byte>, off: nat, shape: Shape): (r: Option<Read<Field>>)
    ensures r.Some? ==> off <= r.value.off <= |b|
  {
    match shape
    case NumOf(w) =>
      if off > |b| || w > |b| - off then None else Some(Read(Num(w, Le(b[off..off + w])), off + w))
    case FixedOf(n) =>
      if off > |b| || n > |b| - off then None else Some(Read(Fixed(b[off..off + n]), off + n))
    case TextOf(cap) =>
      if off > |b| || 2 > |b| - off then None
      else
        var n := Le(b[off..off + 2]);
        if n >= cap || n > |b| - (off + 2) || !Printable(b[off + 2..off + 2 + n]) then None
        else Some(Read(Text(b[off + 2..off + 2 + n]), off + 2 + n))
  }

  function ReadFields(b: seq<byte>, off: nat, shapes: seq<Shape>): (r: Option<Read<seq<Field>>>)
    ensures r.Some? ==> |r.value.value| == |shapes|
    ensures r.Some? && off <= |b| ==> off <= r.value.off <= |b|
    decreases |shapes|
  {
    if |shapes| == 0 then Some(Read([], off))
    else
      var first := ReadField(b, off, shapes[0]);
      if first.None? then None
      else
        var rest := ReadFields(b, first.value.off, shapes[1..]);
        if rest.None? then None else Some(Read([first.value.value] + rest.value.value, rest.value.off))
  }

  ghost predicate AllOk(fs: seq<Field>, shapes: seq<Shape>) {
    |fs| == |shapes| && forall i | 0 <= i < |fs| :: FieldOk(fs[i], shapes[i])
  }

  // ---------------------------------------------------------------- both directions

  lemma Pow2Of16()
    ensures Pow2(16) == 0x1_0000
  {
    EightMore(8);
    Pow2Table();
  }

  lemma Pow2Of64()
    ensures Pow2(64) == 0x1_0000_0000_0000_0000
  {
    EightMore(32);
    EightMore(40);
    EightMore(48);
    EightMore(56);
    Pow2Table();
  }

  /** What was written at an offset is what is read there. */
  lemma ReadWritten(b: seq<byte>, off: nat, f: Field, shape: Shape)
    requires FieldOk(f, shape) && off + |Written(f)| <= |b| && b[off..off + |Written(f)|] == Written(f)
    ensures ReadField(b, off, shape) == Some(Read(f, off + |Written(f)|))
  {
    hide Pow2, Le, ToLe;
    match f {
      case Num(w, v) =>
        ToLeInverse(v, w);
      case Fixed(bytes) =>
      case Text(s) =>
        Pow2Of16();
        ToLeInverse(|s|, 2);
        assert b[off..off + 2] == Written(f)[..2] == ToLe(|s|, 2);
        assert b[off + 2..off + 2 + |s|] == Written(f)[2..] == s;
    }
  }

  /** What is read at an offset is exactly what a writer of that value would have put there. */
  lemma WrittenRead(b: seq<byte>, off: nat, shape: Shape)
    requires ReadField(b, off, shape).Some?
    ensures var r := ReadField(b, off, shape).value; FieldOk(r.value, shape) && b[off..r.off] == Written(r.value)
  {
    hide Pow2, Le, ToLe;
    match shape {
      case NumOf(w) =>
        LeInverse(b[off..off + w]);
        LeBound(b[off..off + w]);
      case FixedOf(n) =>
      case TextOf(cap) =>
        LeInverse(b[off..off + 2]);
        LeBound(b[off..off + 2]);
        Pow2Of16();
        var n := Le(b[off..off + 2]);
        assert b[off..off + 2 + n] == b[off..off + 2] + b[off + 2..off + 2 + n];
    }
  }

  lemma {:induction false} ReadAllWritten(b: seq<byte>, off: nat, fs: seq<Field>, shapes: seq<Shape>)
    requires AllOk(fs, shapes) && off + |AllWritten(fs)| <= |b| && b[off..off + |AllWritten(fs)|] == AllWritten(fs)
    ensures ReadFields(b, off, shapes) == Some(Read(fs, off + |AllWritten(fs)|))
    decreases |fs|
  {
    hide FieldOk, ReadField, Written;
    if |fs| > 0 {
      var w, rest := Written(fs[0]), AllWritten(fs[1..]);
      assert AllWritten(fs) == w + rest;
      assert b[off..off + |w|] == b[off..off + |AllWritten(fs)|][..|w|] == w;
      ReadWritten(b, off, fs[0], shapes[0]);
      assert b[off + |w|..off + |w| + |rest|] == b[off..off + |AllWritten(fs)|][|w|..] == rest;
      ReadAllWritten(b, off + |w|, fs[1..], shapes[1..]);
      assert fs == [fs[0]] + fs[1..];
    }
  }

  lemma {:induction false} AllWrittenRead(b: seq<byte>, off: nat, shapes: seq<Shape>)
    requires off <= |b| && ReadFields(b, off, shapes).Some?
    ensures var r := ReadFields(b, off, shapes).value; AllOk(r.value, shapes) && b[off..r.off] == AllWritten(r.value)
    decreases |shapes|
  {
    hide FieldOk, ReadField, Written;
    if |shapes| > 0 {
      WrittenRead(b, off, shapes[0]);
      var first := ReadField(b, off, shapes[0]).value;
      AllWrittenRead(b, first.off, shapes[1..]);
      var r := ReadFields(b, off, shapes).value;
      assert r.value[1..] == ReadFields(b, first.off, shapes[1..]).value.value;
      assert b[off..r.off] == b[off..first.off] + b[first.off..r.off];
    }
  }

  /** Every value read is one a writer may write. */
  lemma ReadsOk(b: seq<byte>, off: nat, shapes: seq<Shape>)
    requires ReadFields(b, off, shapes).Some?
    ensures AllOk(ReadFields(b, off, shapes).value.value, shapes)
  {
    if |shapes| > 0 {
      AllWrittenRead(b, off, shapes);
    }
  }

  lemma {:induction false} WrittenAppend(a: seq<Field>, c: seq<Field>)
    ensures AllWritten(a + c) == AllWritten(a) + AllWritten(c)
  {
    hide Written;
    if |a| == 0 {
      assert a + c == c;
    } else {
      assert (a + c)[1..] == a[1..] + c && (a + c)[0] == a[0];
      WrittenAppend(a[1..], c);
    }
  }

  // ---------------------------------------------------------------- the growing buffer

  class Buf {
    var p: array<byte>
    var len: nat

    ghost predicate Valid()
      reads this, p
    {
      len <= p.Length
    }

    ghost function Bytes(): seq<byte>
      requires Valid()
      reads this, p
    {
      p[..len]
    }

    constructor ()
      ensures Valid() && Bytes() == [] && fresh(p)
    {
      p, len := new byte[0], 0;
    }

    /** Room for `extra` more bytes; the block doubles and moves, its contents stay. */
    method Reserve(extra: nat)
      requires Valid()
      modifies this`p
      ensures Valid() && len + extra <= p.Length && Bytes() == old(Bytes()) && (p == old(p) || fresh(p))
    {
      var need := len + extra;
      if need <= p.Length {
        return;
      }
      var cap := if p.Length == 0 then 256 else p.Length;
      while cap < need
        invariant cap > 0
        decreases need - cap
      {
        cap := cap * 2;
      }
      var q := new byte[cap](i reads this, p requires i >= 0 && Valid() => if i < len then p[i] else 0);
      assert q[..len] == p[..len];
      p := q;
    }

    method Append(b: seq<byte>)
      requires Valid()
      modifies this, p
      ensures Valid() && Bytes() == old(Bytes()) + b && (p == old(p) || fresh(p))
    {
      Reserve(|b|);
      ghost var was := Bytes();
      for i := 0 to |b|
        invariant Valid() && len + |b| <= p.Length
        invariant forall k | 0 <= k < len :: p[k] == was[k]
        invariant forall k | 0 <= k < i :: p[len + k] == b[k]
        modifies p
      {
        p[len + i] := b[i];
      }
      len := len + |b|;
      assert p[..len] == was + b;
    }

    method U32(v: u32)
      requires Valid()
      modifies this, p
      ensures Valid() && Bytes() == old(Bytes()) + Written(Num(4, v)) && (p == old(p) || fresh(p))
    {
      Word4Is(v);
      Append(Word4(v));
    }

    method U64(v: u64)
      requires Valid()
      modifies this, p
      ensures Valid() && Bytes() == old(Bytes()) + Written(Num(8, v)) && (p == old(p) || fresh(p))
    {
      hide Written, ToLe;
      TwoWords(v);
      U32(v % TWO32);
      U32(v / TWO32);
    }

    /** A counted string; the reader's cap is not the writer's business, the 16-bit count is. */
    method Str(s: seq<byte>) returns (ok: bool)
      requires Valid()
      modifies this, p
      ensures Valid() && (p == old(p) || fresh(p)) && (ok <==> |s| < 0x1_0000)
      ensures Bytes() == if ok then old(Bytes()) + Written(Text(s)) else old(Bytes())
    {
      if |s| >= 0x1_0000 {
        return false;
      }
      CountBytes(|s|);
      hide ToLe, Count, Buf.Bytes;
      ghost var was := Bytes();
      Append(Count(|s|));
      Append(s);
      assert was + Count(|s|) + s == was + (Count(|s|) + s);
      ok := true;
    }

    method Put(f: Field)
      requires Valid() && Puttable(f)
      modifies this, p
      ensures Valid() && Bytes() == old(Bytes()) + Written(f) && (p == old(p) || fresh(p))
    {
      match f {
        case Num(w, v) =>
          if w == 4 {
            U32(v);
          } else {
            U64(v);
          }
        case Fixed(b) =>
          Append(b);
        case Text(t) =>
          var ok := Str(t);
      }
    }

    /** A run of values, one after the other. */
    method PutAll(fs: seq<Field>)
      requires Valid() && forall f | f in fs :: Puttable(f)
      modifies this, p
      ensures Valid() && Bytes() == old(Bytes()) + AllWritten(fs) && (p == old(p) || fresh(p))
    {
      hide Written, AllWritten, Puttable;
      ghost var start := Bytes();
      NoFields();
      for i := 0 to |fs|
        invariant Valid() && Bytes() == start + AllWritten(fs[..i]) && (p == old(p) || fresh(p))
      {
        WrittenNext(fs, i);
        Put(fs[i]);
      }
      assert fs[..|fs|] == fs;
    }
  }

  lemma NoFields()
    ensures AllWritten([]) == []
  {
  }

  /** One more value written. */
  lemma WrittenNext(fs: seq<Field>, i: nat)
    requires i < |fs|
    ensures AllWritten(fs[..i + 1]) == AllWritten(fs[..i]) + Written(fs[i])
  {
    hide Written;
    assert fs[..i + 1] == fs[..i] + [fs[i]];
    WrittenAppend(fs[..i], [fs[i]]);
    assert [fs[i]][1..] == [];
    assert AllWritten([fs[i]]) == Written(fs[i]) + AllWritten([]);
  }

  /** The values a buffer can take. */
  predicate Puttable(f: Field) {
    match f
    case Num(w, v) => (w == 4 && v < 0x1_0000_0000) || (w == 8 && v < 0x1_0000_0000_0000_0000)
    case Fixed(b) => true
    case Text(t) => |t| < 0x1_0000
  }

  /** The four bytes of a word, least significant first. */
  function Word4(v: u32): seq<byte> {
    [v % 256, v / 0x100 % 256, v / 0x1_0000 % 256, v / 0x100_0000]
  }

  lemma Word4Is(v: u32)
    ensures Word4(v) == ToLe(v, 4)
  {
    var a, b, c := v / 256, v / 256 / 256, v / 256 / 256 / 256;
    assert b == v / 0x1_0000 && c == v / 0x100_0000;
    assert c % 256 == c;
    assert ToLe(c, 1) == [c];
    assert ToLe(b, 2) == [b % 256] + ToLe(c, 1);
    assert ToLe(a, 3) == [a % 256] + ToLe(b, 2);
    assert ToLe(v, 4) == [v % 256] + ToLe(a, 3);
  }

  /** The count in front of a string. */
  function Count(n: nat): (b: seq<byte>)
    requires n < 0x1_0000
  {
    [n % 256, n / 256]
  }

  lemma CountBytes(n: nat)
    requires n < 0x1_0000
    ensures ToLe(n, 2) == Count(n)
  {
    assert ToLe(n / 256, 1) == [n / 256];
  }

  /** The bytes of a low and a high part. */
  lemma {:induction false} ToLeJoin(lo: nat, hi: nat, n: nat, m: nat)
    requires lo < Pow2(8 * n)
    ensures ToLe(lo + Pow2(8 * n) * hi, n + m) == ToLe(lo, n) + ToLe(hi, m)
  {
    hide Pow2, ToLe;
    if n == 0 {
      PowZero();
      NoBytes(lo);
      assert 0 + m == m && lo + 1 * hi == hi;
    } else {
      EightMore(8 * (n - 1));
      var p := Pow2(8 * (n - 1));
      var k := p * hi;
      assert 8 * (n - 1) + 8 == 8 * n;
      assert 256 * p * hi == 256 * k;
      var v := lo + 256 * k;
      DivModUnique(v, 256, lo / 256 + k, lo % 256);
      assert lo / 256 < p;
      ToLeJoin(lo / 256, hi, n - 1, m);
      ToLeStep(v, n + m);
      ToLeStep(lo, n);
      assert n + m - 1 == n - 1 + m;
    }
  }

  lemma ToLeStep(v: nat, n: nat)
    requires n > 0
    ensures ToLe(v, n) == [v % 256] + ToLe(v / 256, n - 1)
  {
  }

  lemma NoBytes(v: nat)
    ensures ToLe(v, 0) == []
  {
  }

  lemma PowZero()
    ensures Pow2(0) == 1
  {
  }

  lemma TwoWords(v: u64)
    ensures v / TWO32 < TWO32 && Written(Num(8, v)) == Written(Num(4, v % TWO32)) + Written(Num(4, v / TWO32))
  {
    Pow2Table();
    hide ToLe, Pow2;
    ToLeJoin(v % TWO32, v / TWO32, 4, 4);
  }

  // ---------------------------------------------------------------- the cursor

  class Cur {
    const p: seq<byte>
    var off: nat

    constructor (p: seq<byte>)
      ensures this.p == p && off == 0
    {
      this.p, off := p, 0;
    }

    /** What a read of that shape would give here. */
    ghost function Next(shape: Shape): Option<Read<Field>>
      reads this
    {
      ReadField(p, off, shape)
    }

    method U16() returns (v: Option<nat>)
      modifies this
      ensures match old(Next(NumOf(2))) case None => v.None? case Some(r) => v.Some? && r == Read(Num(2, v.value), off)
    {
      if off > |p| || 2 > |p| - off {
        return None;
      }
      TwoBytes(p[off..off + 2]);
      v := Some(p[off] as int + p[off + 1] as int * 256);
      off := off + 2;
    }

    method U32() returns (v: Option<u32>)
      modifies this
      ensures match old(Next(NumOf(4))) case None => v.None? case Some(r) => v.Some? && r == Read(Num(4, v.value), off)
    {
      if off > |p| || 4 > |p| - off {
        return None;
      }
      FourBytes(p, off);
      v := Some(Ld32(p, off));
      off := off + 4;
    }

    method U64() returns (v: Option<u64>)
      modifies this
      ensures match old(Next(NumOf(8))) case None => v.None? case Some(r) => v.Some? && r == Read(Num(8, v.value), off)
    {
      hide Le, Ld32;
      ghost var at := off;
      var lo := U32();
      if lo.None? {
        return None;
      }
      var hi := U32();
      if hi.None? {
        return None;
      }
      EightBytes(p, at);
      FourBytes(p, at);
      FourBytes(p, at + 4);
      v := Some(lo.value as int + hi.value as int * TWO32);
    }

    method Bytes(n: nat) returns (v: Option<seq<byte>>)
      modifies this
      ensures match old(Next(FixedOf(n))) case None => v.None? case Some(r) => v.Some? && r == Read(Fixed(v.value), off)
    {
      if off > |p| || n > |p| - off {
        return None;
      }
      v := Some(p[off..off + n]);
      off := off + n;
    }

    /** A counted string that must fit the cap and be printable; neither holds for a zero byte. */
    method Str(cap: nat) returns (v: Option<seq<byte>>)
      modifies this
      ensures match old(Next(TextOf(cap))) case None => v.None? case Some(r) => v.Some? && r == Read(Text(v.value), off)
    {
      var n := U16();
      if n.None? || n.value >= cap || n.value > |p| - off {
        return None;
      }
      var s := p[off..off + n.value];
      off := off + n.value;
      for i := 0 to |s|
        invariant forall k | 0 <= k < i :: 32 <= s[k] < 127
      {
        if s[i] < 32 || s[i] >= 127 {
          assert !Printable(s);
          return None;
        }
      }
      v := Some(s);
    }

    /** One read of a given shape. */
    method Get(shape: Shape) returns (f: Option<Field>)
      requires shape.NumOf? ==> shape.width == 4 || shape.width == 8
      modifies this
      ensures match old(Next(shape)) case None => f.None? case Some(r) => f.Some? && r == Read(f.value, off)
    {
      match shape {
        case NumOf(w) =>
          if w == 4 {
            var v := U32();
            return if v.None? then None else Some(Num(4, v.value));
          } else {
            var v := U64();
            return if v.None? then None else Some(Num(8, v.value));
          }
        case FixedOf(n) =>
          var v := Bytes(n);
          return if v.None? then None else Some(Fixed(v.value));
        case TextOf(cap) =>
          var v := Str(cap);
          return if v.None? then None else Some(Text(v.value));
      }
    }

    /** A run of reads; the first failure ends it. */
    method GetAll(shapes: seq<Shape>) returns (fs: Option<seq<Field>>)
      requires forall i | 0 <= i < |shapes| && shapes[i].NumOf? :: shapes[i].width == 4 || shapes[i].width == 8
      modifies this
      ensures match ReadFields(p, old(off), shapes) case None => fs.None? case Some(r) => fs.Some? && r == Read(fs.value, off)
    {
      hide ReadField, ReadFields, After;
      var done := [];
      NothingRead(ReadFields(p, off, shapes));
      assert shapes[0..] == shapes;
      for i := 0 to |shapes|
        invariant After(done, ReadFields(p, off, shapes[i..])) == ReadFields(p, old(off), shapes)
      {
        ReadNext(p, off, shapes[i..], done);
        assert shapes[i..][0] == shapes[i] && shapes[i..][1..] == shapes[i + 1..];
        var f := Get(shapes[i]);
        if f.None? {
          return None;
        }
        done := done + [f.value];
      }
      AllRead(p, off, shapes[|shapes|..], done);
      fs := Some(done);
    }
  }

  /** What has been read, before what is still to be read. */
  function After(done: seq<Field>, rest: Option<Read<seq<Field>>>): Option<Read<seq<Field>>> {
    if rest.None? then None else Some(Read(done + rest.value.value, rest.value.off))
  }

  lemma NothingRead(rest: Option<Read<seq<Field>>>)
    ensures After([], rest) == rest
  {
    if rest.Some? {
      assert [] + rest.value.value == rest.value.value;
    }
  }

  lemma ReadNext(b: seq<byte>, off: nat, shapes: seq<Shape>, done: seq<Field>)
    requires |shapes| > 0
    ensures var f := ReadField(b, off, shapes[0]);
            After(done, ReadFields(b, off, shapes)) ==
            if f.None? then None else After(done + [f.value.value], ReadFields(b, f.value.off, shapes[1..]))
  {
    hide ReadField;
    var f := ReadField(b, off, shapes[0]);
    if f.Some? {
      var rest := ReadFields(b, f.value.off, shapes[1..]);
      if rest.Some? {
        assert done + ([f.value.value] + rest.value.value) == (done + [f.value.value]) + rest.value.value;
      }
    }
  }

  lemma AllRead(b: seq<byte>, off: nat, shapes: seq<Shape>, done: seq<Field>)
    requires |shapes| == 0
    ensures After(done, ReadFields(b, off, shapes)) == Some(Read(done, off))
  {
    assert done + [] == done;
  }

  lemma TwoBytes(b: seq<byte>)
    requires |b| == 2
    ensures Le(b) == b[0] + b[1] as int * 256
  {
    assert b[1..][1..] == [];
    assert Le(b[1..]) == b[1];
  }

  lemma FourBytes(p: seq<byte>, off: nat)
    requires off + 4 <= |p|
    ensures Le(p[off..off + 4]) == Ld32(p, off)
  {
    var b := p[off..off + 4];
    LeWord(b);
    assert b[4..] == [];
  }

  lemma EightBytes(p: seq<byte>, off: nat)
    requires off + 8 <= |p|
    ensures Le(p[off..off + 8]) == Ld32(p, off) + TWO32 * Ld32(p, off + 4) < 0x1_0000_0000_0000_0000
  {
    var b := p[off..off + 8];
    LeWord(b);
    LeWord(b[4..]);
    assert b[4..][4..] == [];
  }
}

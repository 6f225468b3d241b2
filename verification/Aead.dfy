/** ChaCha20 (section 2.4 of RFC 8439) and the AEAD built on it and on Poly1305
    (section 2.8): sealing, opening, and why opening undoes sealing. */
module Aead {
  import opened Bits
  import opened Wrappers
  import Poly1305

  // ---------------------------------------------------------------- ChaCha20

  function XorWord(a: u32, b: u32): u32 {
    Pow2Table();
    XorBound(a, b, 32);
    Xor(a, b)
  }

  /** Left rotation by n bits, where p is 2^n and q is 2^(32 - n). */
  function Rotl(x: u32, n: nat): u32
    requires n == 16 || n == 12 || n == 8 || n == 7
  {
    var p := if n == 16 then 0x1_0000 else if n == 12 then 0x1000 else if n == 8 then 0x100 else 0x80;
    Pow2Table();
    assert x / (TWO32 / p) < TWO32;
    OrBound((x * p) % TWO32, x / (TWO32 / p), 32);
    Or((x * p) % TWO32, x / (TWO32 / p))
  }

  function AddWord(a: u32, b: u32): u32 {
    (a + b) % TWO32
  }

  /** The quarter round on positions a, b, c and d of the state. */
  function QuarterRound(x: seq<u32>, a: nat, b: nat, c: nat, d: nat): (y: seq<u32>)
    requires |x| == 16 && a < 16 && b < 16 && c < 16 && d < 16
    ensures |y| == 16
  {
    var x1 := x[a := AddWord(x[a], x[b])];
    var x2 := x1[d := Rotl(XorWord(x1[d], x1[a]), 16)];
    var x3 := x2[c := AddWord(x2[c], x2[d])];
    var x4 := x3[b := Rotl(XorWord(x3[b], x3[c]), 12)];
    var x5 := x4[a := AddWord(x4[a], x4[b])];
    var x6 := x5[d := Rotl(XorWord(x5[d], x5[a]), 8)];
    var x7 := x6[c := AddWord(x6[c], x6[d])];
    x7[b := Rotl(XorWord(x7[b], x7[c]), 7)]
  }

  function ColumnRound(x: seq<u32>): (y: seq<u32>)
    requires |x| == 16
    ensures |y| == 16
  {
    hide QuarterRound;
    QuarterRound(QuarterRound(QuarterRound(QuarterRound(x, 0, 4, 8, 12), 1, 5, 9, 13), 2, 6, 10, 14), 3, 7, 11, 15)
  }

  function DiagonalRound(x: seq<u32>): (y: seq<u32>)
    requires |x| == 16
    ensures |y| == 16
  {
    hide QuarterRound;
    QuarterRound(QuarterRound(QuarterRound(QuarterRound(x, 0, 5, 10, 15), 1, 6, 11, 12), 2, 7, 8, 13), 3, 4, 9, 14)
  }

  function DoubleRounds(x: seq<u32>, n: nat): (y: seq<u32>)
    requires |x| == 16
    ensures |y| == 16
    decreases n
  {
    hide ColumnRound, DiagonalRound;
    if n == 0 then x else DoubleRounds(DiagonalRound(ColumnRound(x)), n - 1)
  }

  /** "expand 32-byte k" as four words. */
  const SIGMA: seq<u32> := [0x6170_7865, 0x3320_646e, 0x7962_2d32, 0x6b20_6574]

  function Block(key: seq<byte>, counter: u32, nonce: seq<byte>): (b: seq<byte>)
    requires |key| == 32 && |nonce| == 12
    ensures |b| == 64
  {
    var s: seq<u32> := SIGMA + [Ld32(key, 0), Ld32(key, 4), Ld32(key, 8), Ld32(key, 12),
                                Ld32(key, 16), Ld32(key, 20), Ld32(key, 24), Ld32(key, 28),
                                counter, Ld32(nonce, 0), Ld32(nonce, 4), Ld32(nonce, 8)];
    Store(s, DoubleRounds(s, 10))
  }

  /** The words of the final state added to those of the initial one, least significant byte first. */
  function Store(s: seq<u32>, x: seq<u32>): (b: seq<byte>)
    requires |s| == |x|
    ensures |b| == 4 * |s|
  {
    if |s| == 0 then [] else Poly1305.St32(AddWord(x[0], s[0])) + Store(s[1..], x[1..])
  }

  /** Byte i of the key stream; the block counter wraps at 32 bits. */
  function KeyByte(key: seq<byte>, counter: u32, nonce: seq<byte>, i: nat): byte
    requires |key| == 32 && |nonce| == 12
  {
    Block(key, (counter + i / 64) % TWO32, nonce)[i % 64]
  }

  function Crypt(key: seq<byte>, counter: u32, nonce: seq<byte>, text: seq<byte>): (c: seq<byte>)
    requires |key| == 32 && |nonce| == 12
    ensures |c| == |text|
  {
    seq(|text|, i requires 0 <= i < |text| => XorByte(text[i], KeyByte(key, counter, nonce, i)))
  }

  /** The cipher in place or from one buffer to another. */
  method CryptBuffer(key: seq<byte>, counter: u32, nonce: seq<byte>, input: array<byte>, output: array<byte>, n: nat)
    requires |key| == 32 && |nonce| == 12 && n <= input.Length && n <= output.Length
    modifies output
    ensures output[..n] == Crypt(key, counter, nonce, old(input[..n]))
    ensures output[n..] == old(output[n..])
  {
    hide Block, XorByte, KeyByte;
    var off, c := 0, counter;
    while off < n
      invariant 0 <= off <= n && (off % 64 == 0 || off == n)
      invariant off < n ==> c == (counter + off / 64) % TWO32
      invariant forall k | 0 <= k < off :: output[k] == XorByte(old(input[k]), KeyByte(key, counter, nonce, k))
      invariant forall k | off <= k < output.Length :: output[k] == old(output[k])
      invariant forall k | off <= k < input.Length :: input[k] == old(input[k])
    {
      var block := Block(key, c, nonce);
      var m := if n - off < 64 then n - off else 64;
      BlockBytes(key, counter, nonce, off);
      XorBlock(input, output, off, m, block);
      NextBlock(counter, off);
      c := (c + 1) % TWO32;
      off := off + m;
    }
  }

  /** The inner byte loop. */
  method XorBlock(input: array<byte>, output: array<byte>, off: nat, m: nat, block: seq<byte>)
    requires m <= |block| && off + m <= input.Length && off + m <= output.Length
    modifies output
    ensures forall k | 0 <= k < m :: output[off + k] == XorByte(old(input[off + k]), block[k])
    ensures forall k | 0 <= k < output.Length && !(off <= k < off + m) :: output[k] == old(output[k])
  {
    hide XorByte;
    for i := 0 to m
      invariant forall k | 0 <= k < i :: output[off + k] == XorByte(old(input[off + k]), block[k])
      invariant forall k | 0 <= k < output.Length && !(off <= k < off + i) :: output[k] == old(output[k])
    {
      output[off + i] := XorByte(input[off + i], block[i]);
    }
  }

  lemma BlockBytes(key: seq<byte>, counter: u32, nonce: seq<byte>, off: nat)
    requires |key| == 32 && |nonce| == 12 && off % 64 == 0
    ensures forall k | off <= k < off + 64 ::
              KeyByte(key, counter, nonce, k) == Block(key, (counter + off / 64) % TWO32, nonce)[k - off]
  {
    hide Block;
    forall k | off <= k < off + 64
      ensures k / 64 == off / 64 && k % 64 == k - off
    {
    }
  }

  lemma NextBlock(counter: u32, off: nat)
    requires off % 64 == 0
    ensures ((counter + off / 64) % TWO32 + 1) % TWO32 == (counter + (off + 64) / 64) % TWO32
  {
  }

  /** Encrypting twice under the same key, counter and nonce is the identity. */
  lemma CryptInverse(key: seq<byte>, counter: u32, nonce: seq<byte>, text: seq<byte>)
    requires |key| == 32 && |nonce| == 12
    ensures Crypt(key, counter, nonce, Crypt(key, counter, nonce, text)) == text
  {
    hide Block;
    var c := Crypt(key, counter, nonce, text);
    var p := Crypt(key, counter, nonce, c);
    forall i | 0 <= i < |text|
      ensures p[i] == text[i]
    {
      XorInverse(text[i], KeyByte(key, counter, nonce, i));
    }
  }

  /** Every byte of the text is combined with its own byte of the key stream: byte i with byte i % 64 of
      the i / 64-th block from the first one on. */
  lemma KeyStream(key: seq<byte>, counter: u32, nonce: seq<byte>, text: seq<byte>, i: nat)
    requires |key| == 32 && |nonce| == 12 && i < |text|
    ensures var k := Block(key, (counter + i / 64) % TWO32, nonce)[i % 64];
            XorByte(Crypt(key, counter, nonce, text)[i], text[i]) == k
  {
    hide Block, Xor;
    var k := Block(key, (counter + i / 64) % TWO32, nonce)[i % 64];
    XorCommutes(text[i], k);
    XorInverse(k, text[i]);
  }

  // ---------------------------------------------------------------- the AEAD

  /** Section 2.8: what the tag authenticates. */
  function MacInput(aad: seq<byte>, ct: seq<byte>): seq<byte> {
    aad + Poly1305.ZeroPad(|aad|) + ct + Poly1305.ZeroPad(|ct|) + ToLe(|aad|, 8) + ToLe(|ct|, 8)
  }

  function Tag(key: seq<byte>, nonce: seq<byte>, aad: seq<byte>, ct: seq<byte>): (tag: seq<byte>)
    requires |key| == 32 && |nonce| == 12
    ensures |tag| == 16
  {
    Poly1305.Mac(Block(key, 0, nonce)[..32], MacInput(aad, ct))
  }

  /** Section 2.6: the one-time key is the first 32 bytes of the key stream from block 0, which encrypts
      nothing (the text starts at block 1). */
  lemma OneTimeKey(key: seq<byte>, nonce: seq<byte>, aad: seq<byte>, ct: seq<byte>)
    requires |key| == 32 && |nonce| == 12
    ensures Tag(key, nonce, aad, ct) == Poly1305.Mac(Crypt(key, 0, nonce, seq(32, i => 0)), MacInput(aad, ct))
  {
    hide Block, MacInput, Poly1305.Mac, Xor;
    var zeros: seq<byte> := seq(32, i => 0);
    var c, b := Crypt(key, 0, nonce, zeros), Block(key, 0, nonce);
    forall i | 0 <= i < 32
      ensures c[i] == b[i]
    {
      XorZero(b[i]);
    }
    assert c == b[..32];
  }

  function Round16(n: nat): nat {
    (n + 15) / 16 * 16
  }

  /** Where everything is in the authenticated string: the data and the text, each behind zeros up to a
      multiple of sixteen, and the two lengths. */
  lemma MacInputLayout(aad: seq<byte>, ct: seq<byte>)
    requires |aad| < Pow2(64) && |ct| < Pow2(64)
    ensures var m, p := MacInput(aad, ct), Round16(|aad|);
            var q := p + Round16(|ct|);
            && |aad| <= p && p + |ct| <= q && |m| == q + 16
            && m[..|aad|] == aad && m[p..p + |ct|] == ct
            && (forall i | |aad| <= i < p || p + |ct| <= i < q :: m[i] == 0)
            && Le(m[q..q + 8]) == |aad| && Le(m[q + 8..]) == |ct|
  {
    hide ToLe, Le, Pow2;
    PadRounds(|aad|);
    PadRounds(|ct|);
    ToLeInverse(|aad|, 8);
    ToLeInverse(|ct|, 8);
    var m, p := MacInput(aad, ct), Round16(|aad|);
    var q := p + Round16(|ct|);
    hide Poly1305.ZeroPad, Round16;
    assert m[q..q + 8] == ToLe(|aad|, 8) && m[q + 8..] == ToLe(|ct|, 8);
    assert m[p..p + |ct|] == ct;
  }

  lemma PadRounds(n: nat)
    ensures n + |Poly1305.ZeroPad(n)| == Round16(n)
    ensures forall b | b in Poly1305.ZeroPad(n) :: b == 0
  {
  }

  /** No two pairs of data and text are authenticated as the same string. */
  lemma MacInputTells(aad: seq<byte>, ct: seq<byte>, aad': seq<byte>, ct': seq<byte>)
    requires |aad| < Pow2(64) && |ct| < Pow2(64) && |aad'| < Pow2(64) && |ct'| < Pow2(64)
    requires MacInput(aad, ct) == MacInput(aad', ct')
    ensures aad == aad' && ct == ct'
  {
    hide MacInput, Le, Pow2, Round16;
    MacInputLayout(aad, ct);
    MacInputLayout(aad', ct');
    var m := MacInput(aad, ct);
    assert m[|m| - 16..|m| - 8] == m[|m| - 16..|m| - 16 + 8];
    assert |aad| == |aad'|;
  }

  /** The 64-bit lengths of the associated data and of the text. */
  method LengthBytes(aadLength: nat, textLength: nat) returns (lens: array<byte>)
    ensures fresh(lens) && lens.Length == 16
    ensures lens[..] == ToLe(aadLength, 8) + ToLe(textLength, 8)
  {
    lens := new byte[16];
    for i := 0 to 8
      invariant forall k | 0 <= k < i :: lens[k] == ToLe(aadLength, 8)[k]
    {
      lens[i] := (aadLength / Pow2(8 * i)) % 256;
      ToLeAt(aadLength, 8, i);
    }
    for i := 0 to 8
      invariant forall k | 0 <= k < 8 :: lens[k] == ToLe(aadLength, 8)[k]
      invariant forall k | 0 <= k < i :: lens[8 + k] == ToLe(textLength, 8)[k]
    {
      lens[8 + i] := (textLength / Pow2(8 * i)) % 256;
      ToLeAt(textLength, 8, i);
    }
  }

  lemma {:induction false} ToLeAt(v: nat, n: nat, i: nat)
    requires i < n
    ensures ToLe(v, n)[i] == (v / Pow2(8 * i)) % 256
  {
    if i > 0 {
      ToLeAt(v / 256, n - 1, i - 1);
      EightMore(8 * (i - 1));
      DivDiv(v, 256, Pow2(8 * (i - 1)));
    }
  }

  /** The authentication shared by sealing and opening. */
  method Authenticate(key: seq<byte>, nonce: seq<byte>, aad: seq<byte>, ct: seq<byte>) returns (tag: seq<byte>)
    requires |key| == 32 && |nonce| == 12
    ensures tag == Tag(key, nonce, aad, ct)
  {
    hide Block, Poly1305.Mac, Poly1305.ZeroPad, ToLe, MacInput, Poly1305.Poly.Valid;
    var polyKey := Block(key, 0, nonce);
    var st := new Poly1305.Poly(polyKey[..32]);
    if |aad| > 0 {
      st.Update(aad);
      assert st.fed == aad;
      st.Pad16(|aad|);
    } else {
      NoPad(aad);
    }
    st.Update(ct);
    st.Pad16(|ct|);
    var lens := LengthBytes(|aad|, |ct|);
    st.Update(lens[..]);
    MacInputParts(aad, ct, lens[..]);
    tag := st.Finish();
  }

  lemma MacInputParts(aad: seq<byte>, ct: seq<byte>, lens: seq<byte>)
    requires lens == ToLe(|aad|, 8) + ToLe(|ct|, 8)
    ensures aad + Poly1305.ZeroPad(|aad|) + ct + Poly1305.ZeroPad(|ct|) + lens == MacInput(aad, ct)
  {
    hide ToLe, Poly1305.ZeroPad;
  }

  lemma NoPad(aad: seq<byte>)
    requires |aad| == 0
    ensures aad + Poly1305.ZeroPad(|aad|) == []
  {
  }

  method Seal(key: seq<byte>, nonce: seq<byte>, aad: seq<byte>, pt: array<byte>, ct: array<byte>, n: nat)
    returns (tag: seq<byte>)
    requires |key| == 32 && |nonce| == 12 && n <= pt.Length && n <= ct.Length
    modifies ct
    ensures ct[..n] == Crypt(key, 1, nonce, old(pt[..n])) && ct[n..] == old(ct[n..])
    ensures tag == Tag(key, nonce, aad, ct[..n])
  {
    CryptBuffer(key, 1, nonce, pt, ct, n);
    tag := Authenticate(key, nonce, aad, ct[..n]);
  }

  /** The comparison without early exit. */
  method Equal16(a: seq<byte>, b: seq<byte>) returns (same: bool)
    requires |a| == 16 && |b| == 16
    ensures same <==> a == b
  {
    hide XorByte, OrByte;
    var d: byte := 0;
    for i := 0 to 16
      invariant d == 0 <==> a[..i] == b[..i]
    {
      DifferenceBits(d, a[i], b[i]);
      d := OrByte(d, XorByte(a[i], b[i]));
      assert a[..i + 1] == a[..i] + [a[i]] && b[..i + 1] == b[..i] + [b[i]];
    }
    assert a[..16] == a && b[..16] == b;
    same := d == 0;
  }

  lemma DifferenceBits(d: byte, a: byte, b: byte)
    ensures OrByte(d, XorByte(a, b)) == 0 <==> d == 0 && a == b
  {
    XorIsZero(a, b);
    OrIsZero(d, Xor(a, b));
  }

  /** Zero and the plain text when the tag is right; otherwise -1 and an untouched buffer. */
  method Open(key: seq<byte>, nonce: seq<byte>, aad: seq<byte>, ct: array<byte>, n: nat, tag: seq<byte>, pt: array<byte>)
    returns (status: int)
    requires |key| == 32 && |nonce| == 12 && |tag| == 16 && n <= ct.Length && n <= pt.Length
    modifies pt
    ensures status == if tag == Tag(key, nonce, aad, old(ct[..n])) then 0 else -1
    ensures status == 0 ==> pt[..n] == Crypt(key, 1, nonce, old(ct[..n])) && pt[n..] == old(pt[n..])
    ensures status == -1 ==> pt[..] == old(pt[..])
  {
    hide Tag, Crypt;
    var want := Authenticate(key, nonce, aad, ct[..n]);
    var same := Equal16(want, tag);
    if !same {
      return -1;
    }
    CryptBuffer(key, 1, nonce, ct, pt, n);
    status := 0;
  }

  /** Opening as a function of its inputs: what the method Open computes. */
  function Opened(key: seq<byte>, nonce: seq<byte>, aad: seq<byte>, ct: seq<byte>, tag: seq<byte>): Option<seq<byte>>
    requires |key| == 32 && |nonce| == 12
  {
    if tag == Tag(key, nonce, aad, ct) then Some(Crypt(key, 1, nonce, ct)) else None
  }

  /** Opening what was sealed gives the text back, and only that tag opens it. */
  lemma OpenInvertsSeal(key: seq<byte>, nonce: seq<byte>, aad: seq<byte>, pt: seq<byte>, tag: seq<byte>)
    requires |key| == 32 && |nonce| == 12
    ensures var ct := Crypt(key, 1, nonce, pt);
            Opened(key, nonce, aad, ct, tag) == if tag == Tag(key, nonce, aad, ct) then Some(pt) else None
  {
    CryptInverse(key, 1, nonce, pt);
  }

  /** Sealing into a buffer and opening it in place restores the buffer. */
  method SealThenOpen(key: seq<byte>, nonce: seq<byte>, aad: seq<byte>, text: array<byte>) returns (status: int)
    requires |key| == 32 && |nonce| == 12
    modifies text
    ensures status == 0 && text[..] == old(text[..])
  {
    hide Tag, Crypt;
    assert text[..text.Length] == text[..];
    var tag := Seal(key, nonce, aad, text, text, text.Length);
    status := Open(key, nonce, aad, text, text.Length, tag, text);
    CryptInverse(key, 1, nonce, old(text[..]));
    assert text[..text.Length] == text[..];
  }
}

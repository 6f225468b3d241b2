/** The reply stream of an engine: everything before the END sentinel, without the dashboard lines,
    however the bytes are cut into reads. */
module ReplyFilter {
  import opened Bits
  import opened Wrappers

  const NEWLINE: byte := 10
  /** Two 1 bytes, "END", two 1 bytes. */
  const END: seq<byte> := [1, 1, 69, 78, 68, 1, 1]
  const PREFIX_MAX: nat := 8

  const KEYWORDS: nat := 5

  /** "TIERS ", "EMAP ", "HITS ", "HWINFO " and "PROF ". */
  function Keyword(k: nat): (w: seq<byte>)
    ensures |w| <= 7 && NEWLINE !in w
  {
    if k == 0 then [84, 73, 69, 82, 83, 32]
    else if k == 1 then [69, 77, 65, 80, 32]
    else if k == 2 then [72, 73, 84, 83, 32]
    else if k == 3 then [72, 87, 73, 78, 70, 79, 32]
    else [80, 82, 79, 70, 32]
  }

  predicate Digit(b: byte) {
    48 <= b <= 57
  }

  /** The text starts with the k-th keyword and a digit. */
  predicate StartsWith(s: seq<byte>, k: nat) {
    |s| > |Keyword(k)| && s[..|Keyword(k)|] == Keyword(k) && Digit(s[|Keyword(k)|])
  }

  predicate Dashboard(s: seq<byte>) {
    exists k | 0 <= k < KEYWORDS :: StartsWith(s, k)
  }

  /** The text may still become a dashboard line: it is the start of a keyword. */
  predicate Begins(s: seq<byte>, k: nat) {
    |s| <= |Keyword(k)| && s == Keyword(k)[..|s|]
  }

  predicate Undecided(s: seq<byte>) {
    exists k | 0 <= k < KEYWORDS :: Begins(s, k)
  }

  // ---------------------------------------------------------------- what the filter is for

  /** A line with its newline, or all that is left. */
  function FirstLine(s: seq<byte>): (l: seq<byte>)
    ensures |l| <= |s| && l == s[..|l|] && (|s| > 0 ==> |l| > 0)
  {
    if |s| == 0 then [] else if s[0] == NEWLINE then [NEWLINE] else [s[0]] + FirstLine(s[1..])
  }

  /** The lines that are not dashboard lines. */
  function Kept(s: seq<byte>): seq<byte> {
    if |s| == 0 then []
    else
      var l := FirstLine(s);
      (if Dashboard(l) then [] else l) + Kept(s[|l|..])
  }

  // ---------------------------------------------------------------- the character machine

  datatype Mode = LineStart | Mid | Drop

  datatype Filter = Filter(mode: Mode, prefix: seq<byte>)

  datatype Fed = Fed(t: Filter, out: seq<byte>)

  function Feed(t: Filter, c: byte): Fed {
    if t.mode == Drop then Fed(if c == NEWLINE then Filter(LineStart, t.prefix) else t, [])
    else if t.mode == Mid then Fed(if c == NEWLINE then Filter(LineStart, t.prefix) else t, [c])
    else if c == NEWLINE then Fed(Filter(LineStart, []), t.prefix + [NEWLINE])
    else
      var p := if |t.prefix| < PREFIX_MAX then t.prefix + [c] else t.prefix;
      if Dashboard(p) then Fed(Filter(Drop, []), [])
      else if !Undecided(p) || |p| == PREFIX_MAX then Fed(Filter(Mid, []), p)
      else Fed(Filter(LineStart, p), [])
  }

  function FeedAll(t: Filter, s: seq<byte>): Fed {
    if |s| == 0 then Fed(t, [])
    else
      var was := FeedAll(t, s[..|s| - 1]);
      var now := Feed(was.t, s[|s| - 1]);
      Fed(now.t, was.out + now.out)
  }

  function Flush(t: Filter): seq<byte> {
    if t.mode == LineStart then t.prefix else []
  }

  const START: Filter := Filter(LineStart, [])

  /** Feeding in two parts is feeding the whole. */
  lemma {:induction false} FeedSplit(t: Filter, a: seq<byte>, b: seq<byte>)
    ensures FeedAll(t, a + b) == Fed(FeedAll(FeedAll(t, a).t, b).t, FeedAll(t, a).out + FeedAll(FeedAll(t, a).t, b).out)
  {
    hide Feed;
    if |b| == 0 {
      assert a + b == a;
    } else {
      var h := b[..|b| - 1];
      FeedSplit(t, a, h);
      assert (a + b)[..|a + b| - 1] == a + h;
    }
  }

  /** The machine inside a line: what it has seen of it decides its state, and what it has let out. */
  function Inside(l: seq<byte>): Filter {
    if Dashboard(l) then Filter(Drop, []) else if Undecided(l) then Filter(LineStart, l) else Filter(Mid, [])
  }

  function Emitted(l: seq<byte>): seq<byte> {
    if Dashboard(l) || Undecided(l) then [] else l
  }

  lemma DashboardGrows(l: seq<byte>, c: byte)
    ensures Dashboard(l) ==> Dashboard(l + [c])
    ensures Dashboard(l + [c]) ==> Dashboard(l) || Undecided(l)
    ensures Undecided(l + [c]) ==> Undecided(l)
    ensures Dashboard(l + [NEWLINE]) ==> Dashboard(l)
  {
    hide Keyword;
    if k :| 0 <= k < KEYWORDS && StartsWith(l, k) {
      assert StartsWith(l + [c], k);
    }
    if k :| 0 <= k < KEYWORDS && StartsWith(l + [c], k) {
      Shorter(l, c, k);
    }
    if k :| 0 <= k < KEYWORDS && Begins(l + [c], k) {
      assert l == (l + [c])[..|l|] == Keyword(k)[..|l|];
      assert Begins(l, k);
    }
    if k :| 0 <= k < KEYWORDS && StartsWith(l + [NEWLINE], k) {
      Shorter(l, NEWLINE, k);
    }
  }

  lemma Shorter(l: seq<byte>, c: byte, k: nat)
    requires k < KEYWORDS && StartsWith(l + [c], k)
    ensures StartsWith(l, k) || (Begins(l, k) && Digit(c))
    ensures Dashboard(l) || (Undecided(l) && Digit(c))
  {
    hide Keyword;
    var w := Keyword(k);
    if |l| > |w| {
      assert (l + [c])[..|w|] == l[..|w|];
      assert StartsWith(l, k);
    } else {
      assert l == (l + [c])[..|w|] == w;
      assert Begins(l, k);
    }
  }

  /** A keyword is never a dashboard line yet, and never seven characters without being decided at eight. */
  lemma UndecidedShort(l: seq<byte>)
    requires Undecided(l)
    ensures |l| < PREFIX_MAX && !Dashboard(l)
  {
    var k :| 0 <= k < KEYWORDS && Begins(l, k);
    forall j | 0 <= j < KEYWORDS
      ensures !StartsWith(l, j)
    {
    }
  }

  /** One more character of a line. */
  lemma FeedInside(l: seq<byte>, c: byte)
    requires c != NEWLINE
    ensures Feed(Inside(l), c).t == Inside(l + [c]) && Emitted(l) + Feed(Inside(l), c).out == Emitted(l + [c])
  {
    DashboardGrows(l, c);
    if Undecided(l) {
      UndecidedShort(l);
    }
    if Undecided(l + [c]) {
      UndecidedShort(l + [c]);
    }
    hide Dashboard, Undecided;
  }

  /** The newline that ends a line. */
  lemma FeedNewline(l: seq<byte>)
    ensures Feed(Inside(l), NEWLINE).t == START
    ensures Emitted(l) + Feed(Inside(l), NEWLINE).out == if Dashboard(l) then [] else l + [NEWLINE]
  {
    if Undecided(l) {
      UndecidedShort(l);
    }
    hide Dashboard, Undecided;
  }

  lemma FlushInside(l: seq<byte>)
    ensures Emitted(l) + Flush(Inside(l)) == if Dashboard(l) then [] else l
  {
    if Undecided(l) {
      UndecidedShort(l);
    }
    hide Dashboard, Undecided;
  }

  /** The lines of l + s that are kept, for an l without a newline. */
  function KeptFrom(l: seq<byte>, s: seq<byte>): seq<byte>
    decreases |s|
  {
    if |s| == 0 then (if Dashboard(l) then [] else l)
    else if s[0] == NEWLINE then (if Dashboard(l) then [] else l + [NEWLINE]) + KeptFrom([], s[1..])
    else KeptFrom(l + [s[0]], s[1..])
  }

  lemma FeedFirst(t: Filter, s: seq<byte>)
    requires |s| > 0
    ensures var f := Feed(t, s[0]); FeedAll(t, s) == Fed(FeedAll(f.t, s[1..]).t, f.out + FeedAll(f.t, s[1..]).out)
  {
    hide Feed;
    FeedSplit(t, [s[0]], s[1..]);
    assert s == [s[0]] + s[1..];
    assert [s[0]][..0] == [];
    assert FeedAll(t, [s[0]]) == Fed(Feed(t, s[0]).t, [] + Feed(t, s[0]).out);
  }

  lemma {:induction false} MachineKeeps(l: seq<byte>, s: seq<byte>)
    ensures var f := FeedAll(Inside(l), s); Emitted(l) + f.out + Flush(f.t) == KeptFrom(l, s)
    decreases |s|
  {
    hide Feed, Inside, Emitted, Flush, Dashboard, FeedAll;
    if |s| == 0 {
      NothingFed(Inside(l), s);
      FlushInside(l);
    } else {
      FeedFirst(Inside(l), s);
      var f := Feed(Inside(l), s[0]);
      var g := FeedAll(f.t, s[1..]);
      if s[0] == NEWLINE {
        FeedNewline(l);
        StartInside();
        MachineKeeps([], s[1..]);
        assert Emitted(l) + (f.out + g.out) + Flush(g.t) == (Emitted(l) + f.out) + (g.out + Flush(g.t));
        assert [] + g.out == g.out;
      } else {
        FeedInside(l, s[0]);
        MachineKeeps(l + [s[0]], s[1..]);
        assert Emitted(l) + (f.out + g.out) + Flush(g.t) == (Emitted(l) + f.out) + g.out + Flush(g.t);
      }
    }
  }

  lemma NothingFed(t: Filter, s: seq<byte>)
    requires |s| == 0
    ensures FeedAll(t, s) == Fed(t, [])
  {
  }

  lemma StartInside()
    ensures Inside([]) == START && Emitted([]) == []
  {
    assert Begins([], 0);
    UndecidedShort([]);
  }

  lemma {:induction false} KeptFromKept(l: seq<byte>, s: seq<byte>)
    requires |s| > 0
    ensures var h := FirstLine(s); KeptFrom(l, s) == (if Dashboard(l + h) then [] else l + h) + Kept(s[|h|..])
    decreases |s|, 0
  {
    hide Dashboard, Kept, KeptFrom, FirstLine;
    if s[0] == NEWLINE {
      DashboardEnd(l);
      KeptFromStart(s[1..]);
      LineEnds(l, s);
    } else if |s| == 1 {
      LastCharacter(l, s);
    } else {
      var h := FirstLine(s[1..]);
      LineGoesOn(l, s);
      KeptFromKept(l + [s[0]], s[1..]);
      assert l + [s[0]] + h == l + ([s[0]] + h);
      assert s[1..][|h|..] == s[1 + |h|..];
    }
  }

  lemma LineEnds(l: seq<byte>, s: seq<byte>)
    requires |s| > 0 && s[0] == NEWLINE
    ensures FirstLine(s) == [NEWLINE] && KeptFrom(l, s) == (if Dashboard(l) then [] else l + [NEWLINE]) + KeptFrom([], s[1..])
  {
    hide Dashboard;
  }

  lemma LineGoesOn(l: seq<byte>, s: seq<byte>)
    requires |s| > 0 && s[0] != NEWLINE
    ensures FirstLine(s) == [s[0]] + FirstLine(s[1..]) && KeptFrom(l, s) == KeptFrom(l + [s[0]], s[1..])
  {
    hide Dashboard;
  }

  lemma LastCharacter(l: seq<byte>, s: seq<byte>)
    requires |s| == 1 && s[0] != NEWLINE
    ensures FirstLine(s) == s && KeptFrom(l, s) == (if Dashboard(l + s) then [] else l + s) + Kept(s[1..])
  {
    hide Dashboard;
    LineGoesOn(l, s);
    assert s[1..] == [] && [s[0]] == s;
  }

  lemma DashboardEnd(l: seq<byte>)
    ensures Dashboard(l + [NEWLINE]) == Dashboard(l)
  {
    DashboardGrows(l, NEWLINE);
  }

  lemma {:induction false} KeptFromStart(s: seq<byte>)
    ensures KeptFrom([], s) == Kept(s)
    decreases |s|, 1
  {
    if |s| > 0 {
      KeptFromKept([], s);
      assert [] + FirstLine(s) == FirstLine(s);
    } else {
      assert !Dashboard([]);
    }
  }

  /** The filter's whole output is the lines that are not dashboard lines. */
  lemma FilterIsKept(s: seq<byte>)
    ensures FeedAll(START, s).out + Flush(FeedAll(START, s).t) == Kept(s)
  {
    hide FeedAll, Flush, Kept, KeptFrom;
    StartInside();
    MachineKeeps([], s);
    KeptFromStart(s);
    assert [] + FeedAll(START, s).out == FeedAll(START, s).out;
  }

  // ---------------------------------------------------------------- the sentinel

  predicate EndsAt(b: seq<byte>, i: nat) {
    i + |END| <= |b| && b[i..i + |END|] == END
  }

  /** The first sentinel from i on. */
  function FirstEnd(b: seq<byte>, i: nat): (r: Option<nat>)
    ensures r.Some? ==> i <= r.value && EndsAt(b, r.value) && forall k | i <= k < r.value :: !EndsAt(b, k)
    ensures r.None? ==> forall k | i <= k :: !EndsAt(b, k)
    decreases |b| - i
  {
    if i + |END| > |b| then None else if b[i..i + |END|] == END then Some(i) else FirstEnd(b, i + 1)
  }

  lemma FirstEndIs(b: seq<byte>, i: nat, h: nat)
    requires i <= h && EndsAt(b, h) && forall k | i <= k < h :: !EndsAt(b, k)
    ensures FirstEnd(b, i) == Some(h)
  {
  }

  /** More bytes do not move a sentinel already found, and a new one starts where the old bytes no
      longer decide. */
  lemma EndInPrefix(a: seq<byte>, b: seq<byte>)
    ensures FirstEnd(a, 0).Some? ==> FirstEnd(a + b, 0) == FirstEnd(a, 0)
    ensures FirstEnd(a, 0).None? && FirstEnd(a + b, 0).Some? ==> FirstEnd(a + b, 0).value + |END| > |a|
  {
    forall k: nat | k + |END| <= |a|
      ensures EndsAt(a + b, k) == EndsAt(a, k)
    {
      assert (a + b)[k..k + |END|] == a[k..k + |END|];
    }
    if FirstEnd(a, 0).Some? {
      FirstEndIs(a + b, 0, FirstEnd(a, 0).value);
    }
  }

  function Joined(parts: seq<seq<byte>>): seq<byte> {
    if |parts| == 0 then [] else parts[0] + Joined(parts[1..])
  }

  /** How far the filter may go before the sentinel is seen. */
  function Safe(b: seq<byte>): (n: nat)
    ensures n <= |b|
  {
    var hit := FirstEnd(b, 0);
    if hit.Some? then hit.value else if |b| > |END| then |b| - |END| else 0
  }

  /** The safe part only grows as bytes arrive. */
  lemma SafeGrows(a: seq<byte>, b: seq<byte>)
    ensures Safe(a) <= Safe(a + b)
  {
    EndInPrefix(a, b);
  }

  /** The filter of one reply: its mode, its buffered prefix, and what has gone to the screen. */
  class TelFilter {
    var mode: Mode
    const pfx: array<byte>
    var pfxn: nat
    var shown: seq<byte>

    ghost predicate Valid()
      reads this, pfx
    {
      pfx.Length == PREFIX_MAX && pfxn <= PREFIX_MAX && (mode != LineStart ==> pfxn == 0)
    }

    ghost function Now(): Filter
      requires Valid()
      reads this, pfx
    {
      Filter(mode, pfx[..pfxn])
    }

    constructor ()
      ensures Valid() && Now() == START && shown == [] && fresh(pfx)
    {
      mode, pfx, pfxn, shown := LineStart, new byte[PREFIX_MAX], 0, [];
    }

    method IsDashboard() returns (tel: bool, maybe: bool)
      requires Valid()
      ensures tel == Dashboard(pfx[..pfxn]) && (!tel ==> maybe == Undecided(pfx[..pfxn]))
    {
      ghost var p := pfx[..pfxn];
      tel, maybe := false, false;
      for k := 0 to KEYWORDS
        invariant !tel && (forall j | 0 <= j < k :: !StartsWith(p, j))
        invariant maybe <==> exists j | 0 <= j < k :: Begins(p, j)
      {
        var w := Keyword(k);
        if pfxn > |w| {
          if pfx[..|w|] == w && Digit(pfx[|w|]) {
            assert p[..|w|] == pfx[..|w|] && StartsWith(p, k);
            return true, maybe;
          }
          assert p[..|w|] == pfx[..|w|];
        } else if pfx[..pfxn] == w[..pfxn] {
          assert Begins(p, k);
          maybe := true;
        }
      }
    }

    /** One character. */
    method Put(c: byte)
      requires Valid()
      modifies this, pfx
      ensures Valid() && Fed(Now(), shown) == Fed(Feed(old(Now()), c).t, old(shown) + Feed(old(Now()), c).out)
    {
      hide Dashboard, Undecided;
      if mode == Drop {
        if c == NEWLINE {
          mode := LineStart;
        }
        return;
      }
      if mode == Mid {
        shown := shown + [c];
        if c == NEWLINE {
          mode := LineStart;
        }
        return;
      }
      if c == NEWLINE {
        shown := shown + pfx[..pfxn] + [NEWLINE];
        pfxn := 0;
        return;
      }
      ghost var was := pfx[..pfxn];
      if pfxn < PREFIX_MAX {
        pfx[pfxn] := c;
        pfxn := pfxn + 1;
        assert pfx[..pfxn] == was + [c];
      }
      var tel, maybe := IsDashboard();
      if tel {
        pfxn, mode := 0, Drop;
      } else if !maybe || pfxn == PREFIX_MAX {
        shown := shown + pfx[..pfxn];
        pfxn, mode := 0, Mid;
      }
    }

    method Emit(s: seq<byte>)
      requires Valid()
      modifies this, pfx
      ensures Valid() && Fed(Now(), shown) == Fed(FeedAll(old(Now()), s).t, old(shown) + FeedAll(old(Now()), s).out)
    {
      hide Feed;
      ghost var t, out := Now(), shown;
      for i := 0 to |s|
        invariant Valid() && Now() == FeedAll(t, s[..i]).t && shown == out + FeedAll(t, s[..i]).out
      {
        assert s[..i + 1][..i] == s[..i];
        Put(s[i]);
      }
      assert s[..|s|] == s;
    }

    method FlushTel()
      requires Valid()
      modifies this
      ensures Valid() && shown == old(shown) + Flush(old(Now()))
    {
      if mode == LineStart && pfxn > 0 {
        shown := shown + pfx[..pfxn];
        pfxn := 0;
      }
    }

    /** What has been let through so far is the safe part of the bytes. */
    ghost predicate Through(out: seq<byte>, b: seq<byte>, done: nat)
      reads this, pfx
    {
      Valid() && done <= |b| && Now() == FeedAll(START, b[..done]).t && shown == out + FeedAll(START, b[..done]).out
    }

    /** After a read: look for the sentinel and let the newly safe bytes through. */
    method Absorb(ghost out: seq<byte>, ghost was: seq<byte>, buf: seq<byte>, done: nat) returns (hit: Option<nat>, safe: nat)
      requires was <= buf && done == Safe(was) && Through(out, was, done)
      modifies this, pfx
      ensures hit == FirstEnd(buf, 0) && safe == Safe(buf) && Through(out, buf, safe)
    {
      hide FeedAll, Feed, FirstEnd;
      assert buf == was + buf[|was|..];
      SafeGrows(was, buf[|was|..]);
      hit := FirstEnd(buf, 0);
      safe := if hit.Some? then hit.value else if |buf| > |END| then |buf| - |END| else 0;
      Advance(START, was, buf, done, safe);
      if safe > done {
        Emit(buf[done..safe]);
      }
    }

    /** The sentinel was seen at byte h: let the last partial line out. */
    method AtEnd(ghost out: seq<byte>, ghost buf: seq<byte>, ghost rest: seq<byte>, ghost h: nat)
      requires FirstEnd(buf, 0) == Some(h) && Through(out, buf, h)
      modifies this
      ensures Valid() && FirstEnd(buf + rest, 0) == Some(h) && shown == out + Kept((buf + rest)[..h])
    {
      hide FeedAll, Flush, Kept, FirstEnd;
      EndInPrefix(buf, rest);
      FilterIsKept(buf[..h]);
      assert (buf + rest)[..h] == buf[..h];
      FlushTel();
    }

    ghost predicate Reading(out: seq<byte>, all: seq<byte>, parts: seq<seq<byte>>, buf: seq<byte>, done: nat)
      reads this, pfx
    {
      all == buf + Joined(parts) && FirstEnd(buf, 0).None? && done == Safe(buf) && Through(out, buf, done)
    }

    /** One read: the bytes are appended, and what is safe goes through the filter. */
    method Read(ghost out: seq<byte>, ghost all: seq<byte>, parts: seq<seq<byte>>, buf: seq<byte>, done: nat)
      returns (hit: Option<nat>, now: seq<byte>, safe: nat)
      requires |parts| > 0 && Reading(out, all, parts, buf, done)
      modifies this, pfx
      ensures hit.None? ==> Reading(out, all, parts[1..], now, safe)
      ensures hit.Some? ==> Valid() && FirstEnd(all, 0) == hit && shown == out + Kept(all[..hit.value])
    {
      hide FeedAll, Flush, Kept, Feed, FirstEnd, Valid, Now, Through;
      now := buf + parts[0];
      assert buf + Joined(parts) == now + Joined(parts[1..]);
      hit, safe := Absorb(out, buf, now, done);
      if hit.Some? {
        AtEnd(out, now, Joined(parts[1..]), hit.value);
      }
    }

    /** The reading loop. It ends at the sentinel, or when the stream does. */
    method StreamUntilEnd(parts: seq<seq<byte>>) returns (hit: Option<nat>)
      requires Valid() && Now() == START
      modifies this, pfx
      ensures hit == FirstEnd(Joined(parts), 0)
      ensures shown == old(shown) + if hit.Some? then Kept(Joined(parts)[..hit.value])
                                    else FeedAll(START, Joined(parts)[..Safe(Joined(parts))]).out
    {
      ghost var out, all := shown, Joined(parts);
      var buf: seq<byte>, done, i := [], 0, 0;
      NothingFed(START, []);
      assert parts[0..] == parts && buf + all == all;
      assert Reading(out, all, parts[0..], buf, done);
      hide FeedAll, Flush, Kept, Feed, FirstEnd, Joined, Valid, Now, Through, Reading, Safe;
      hit := None;
      while i < |parts|
        invariant 0 <= i <= |parts| && hit.None? && Reading(out, all, parts[i..], buf, done)
        decreases |parts| - i
      {
        hit, buf, done := Read(out, all, parts[i..], buf, done);
        if hit.Some? {
          return;
        }
        assert parts[i..][1..] == parts[i + 1..];
        i := i + 1;
      }
      ReadAll(out, all, parts[|parts|..], buf, done);
    }

    /** Nothing is left to read and no sentinel was seen. */
    lemma ReadAll(out: seq<byte>, all: seq<byte>, parts: seq<seq<byte>>, buf: seq<byte>, done: nat)
      requires |parts| == 0 && Reading(out, all, parts, buf, done)
      ensures Valid() && FirstEnd(all, 0).None? && shown == out + FeedAll(START, all[..Safe(all)]).out
    {
      hide FeedAll, FirstEnd;
      assert all == buf;
    }
  }

  /** Feeding the next safe part continues the feeding of the earlier one. */
  lemma Advance(t: Filter, was: seq<byte>, buf: seq<byte>, done: nat, safe: nat)
    requires was <= buf && done <= |was| && done <= safe <= |buf|
    ensures var f := FeedAll(t, was[..done]);
            FeedAll(t, buf[..safe]) == Fed(FeedAll(f.t, buf[done..safe]).t, f.out + FeedAll(f.t, buf[done..safe]).out)
    ensures buf[..done] == was[..done]
  {
    assert buf[..safe] == was[..done] + buf[done..safe];
    FeedSplit(t, was[..done], buf[done..safe]);
  }
}

/** Which replica of an expert answers a call: the measurements decide outside a band around the best
    score, the storage tier decides inside it, and with spreading the choice is one all chatters share. */
module ReplicaPick {
  import opened Bits
  import opened Wrappers

  const NO_SCORE: u64 := 0xffff_ffff_ffff_ffff

  /** One entry of an expert's row: a peer or a free place, tried already or not. */
  datatype Replica = Replica(known: bool, tried: bool, dead: bool, available: bool, score: u64,
                             resident: int, held: u32, hot: u32, addr: string)

  predicate Eligible(p: Replica) {
    p.known && !p.tried && !p.dead && p.available
  }

  function TierOffset(residency: int): u64 {
    if residency == 2 then 0 else if residency == 1 then 10000 else if residency == 0 then 48000 else 10000
  }

  /** The price of a cache in front of a disk, by the hit rate it reports; no counts, no blend. */
  function BlendOffset(p: Replica): u64 {
    if p.held == 0 then TierOffset(p.resident)
    else
      var warm := TierOffset(if p.resident == 0 then 1 else p.resident);
      var cold := if p.resident == 0 then 48000 else warm;
      var hot := if p.hot > 1000 then 1000 else p.hot;
      (warm as int * hot + cold as int * (1000 - hot)) / 1000
  }

  /** A blend lies between its two prices. */
  lemma BlendBounds(p: Replica)
    requires p.held > 0 && p.resident == 0
    ensures 10000 <= BlendOffset(p) <= 48000
    ensures p.hot >= 1000 ==> BlendOffset(p) == 10000
    ensures p.hot == 0 ==> BlendOffset(p) == 48000
  {
  }

  /** The prices of a call: nothing more from video memory, 10 ms from memory or from an unknown place, 48 ms
      from a disk, and in between by the hit rate of a cache in front of it. */
  lemma PriceIs(p: Replica)
    ensures BlendOffset(p) as int ==
            if p.resident == 2 then 0
            else if p.resident != 0 then 10000
            else 48000 - (if p.held == 0 then 0 else if p.hot > 1000 then 38000 else 38 * p.hot)
  {
  }

  // ---------------------------------------------------------------- sequences of replicas

  function Filter(s: seq<Replica>, keep: Replica -> bool): seq<Replica> {
    if |s| == 0 then []
    else
      var last := s[|s| - 1];
      Filter(s[..|s| - 1], keep) + if keep(last) then [last] else []
  }

  lemma {:induction false} FilterMembers(s: seq<Replica>, keep: Replica -> bool)
    ensures forall p :: p in Filter(s, keep) <==> p in s && keep(p)
  {
    if |s| > 0 {
      FilterMembers(s[..|s| - 1], keep);
      assert s == s[..|s| - 1] + [s[|s| - 1]];
    }
  }

  lemma {:induction false} FilterCount(s: seq<Replica>, keep: Replica -> bool, p: Replica)
    ensures multiset(Filter(s, keep))[p] == if keep(p) then multiset(s)[p] else 0
  {
    if |s| > 0 {
      FilterCount(s[..|s| - 1], keep, p);
      assert s == s[..|s| - 1] + [s[|s| - 1]];
    }
  }

  lemma FilterPermuted(s: seq<Replica>, t: seq<Replica>, keep: Replica -> bool)
    requires multiset(s) == multiset(t)
    ensures multiset(Filter(s, keep)) == multiset(Filter(t, keep)) && |Filter(s, keep)| == |Filter(t, keep)|
  {
    hide Filter;
    forall p: Replica
      ensures multiset(Filter(s, keep))[p] == multiset(Filter(t, keep))[p]
    {
      FilterCount(s, keep, p);
      FilterCount(t, keep, p);
    }
    assert multiset(Filter(s, keep)) == multiset(Filter(t, keep));
    assert |multiset(Filter(s, keep))| == |Filter(s, keep)|;
  }

  /** The first of the best scores. */
  function Fastest(s: seq<Replica>): Replica
    requires |s| > 0
  {
    if |s| == 1 then s[0]
    else
      var was := Fastest(s[..|s| - 1]);
      if s[|s| - 1].score < was.score then s[|s| - 1] else was
  }

  lemma {:induction false} FastestLeast(s: seq<Replica>)
    requires |s| > 0
    ensures Fastest(s) in s && forall p | p in s :: Fastest(s).score <= p.score
  {
    if |s| > 1 {
      FastestLeast(s[..|s| - 1]);
      assert s == s[..|s| - 1] + [s[|s| - 1]];
    }
  }

  /** Where it stands: nobody before it is as fast. */
  lemma {:induction false} FastestAt(s: seq<Replica>) returns (i: nat)
    requires |s| > 0
    ensures i < |s| && s[i] == Fastest(s) && forall j | 0 <= j < i :: s[j].score > s[i].score
  {
    if |s| == 1 {
      i := 0;
    } else {
      i := FastestAt(s[..|s| - 1]);
      FastestLeast(s[..|s| - 1]);
      assert forall j | 0 <= j < |s| - 1 :: s[j] in s[..|s| - 1];
      if s[|s| - 1].score < s[i].score {
        i := |s| - 1;
      }
    }
  }

  function LowestTier(s: seq<Replica>): u64
    requires |s| > 0
  {
    if |s| == 1 then BlendOffset(s[0])
    else
      var was := LowestTier(s[..|s| - 1]);
      if BlendOffset(s[|s| - 1]) < was then BlendOffset(s[|s| - 1]) else was
  }

  lemma {:induction false} LowestTierLeast(s: seq<Replica>) returns (p: Replica)
    requires |s| > 0
    ensures p in s && BlendOffset(p) == LowestTier(s) && forall q | q in s :: LowestTier(s) <= BlendOffset(q)
  {
    hide BlendOffset;
    var last := s[|s| - 1];
    if |s| == 1 {
      p := last;
    } else {
      p := LowestTierLeast(s[..|s| - 1]);
      assert s == s[..|s| - 1] + [last];
      if BlendOffset(last) < BlendOffset(p) {
        p := last;
      }
    }
  }

  // ---------------------------------------------------------------- byte order of addresses

  /** The order of strcmp. */
  predicate Less(a: string, b: string) {
    |b| > 0 && (|a| == 0 || a[0] < b[0] || (a[0] == b[0] && Less(a[1..], b[1..])))
  }

  /** The first place where they differ decides; a proper prefix comes first. */
  ghost predicate DiffersAt(a: string, b: string, k: nat) {
    k <= |a| && k < |b| && a[..k] == b[..k] && (k < |a| ==> a[k] < b[k])
  }

  lemma DiffersLater(a: string, b: string, k: nat)
    requires DiffersAt(a, b, k)
    ensures k > 0 ==> |a| > 0 && |b| > 0 && a[0] == b[0]
  {
    if k > 0 {
      assert a[..k][0] == b[..k][0];
    }
  }

  lemma {:induction false} LessIff(a: string, b: string)
    ensures Less(a, b) <==> exists k: nat :: DiffersAt(a, b, k)
  {
    if |a| > 0 && |b| > 0 && a[0] == b[0] {
      LessIff(a[1..], b[1..]);
      if k: nat :| DiffersAt(a[1..], b[1..], k) {
        assert a[..k + 1] == [a[0]] + a[1..][..k] && b[..k + 1] == [b[0]] + b[1..][..k];
        assert DiffersAt(a, b, k + 1);
      }
      if k: nat :| DiffersAt(a, b, k) {
        assert k > 0;
        assert a[1..][..k - 1] == a[..k][1..] && b[1..][..k - 1] == b[..k][1..];
        assert DiffersAt(a[1..], b[1..], k - 1);
      }
    } else if Less(a, b) {
      assert DiffersAt(a, b, 0);
    } else if k: nat :| DiffersAt(a, b, k) {
      DiffersLater(a, b, k);
    }
  }

  lemma {:induction false} LessTotal(a: string, b: string)
    ensures Less(a, b) || Less(b, a) || a == b
    ensures !(Less(a, b) && Less(b, a))
  {
    if |a| > 0 && |b| > 0 && a[0] == b[0] {
      LessTotal(a[1..], b[1..]);
      if a[1..] == b[1..] {
        assert a == [a[0]] + a[1..] && b == [b[0]] + b[1..];
      }
    }
  }

  lemma {:induction false} LessTransitive(a: string, b: string, c: string)
    requires Less(a, b) && Less(b, c)
    ensures Less(a, c)
  {
    if |a| > 0 && a[0] == b[0] == c[0] {
      LessTransitive(a[1..], b[1..], c[1..]);
    }
  }

  /** The insertion sort of the band. */
  function Insert(s: seq<Replica>, p: Replica): (t: seq<Replica>)
    ensures |t| == |s| + 1
  {
    if |s| > 0 && Less(p.addr, s[|s| - 1].addr) then Insert(s[..|s| - 1], p) + [s[|s| - 1]] else s + [p]
  }

  function Sort(s: seq<Replica>): (t: seq<Replica>)
    ensures |t| == |s|
  {
    if |s| == 0 then [] else Insert(Sort(s[..|s| - 1]), s[|s| - 1])
  }

  lemma {:induction false} InsertPermutes(s: seq<Replica>, p: Replica)
    ensures multiset(Insert(s, p)) == multiset(s) + multiset{p}
  {
    hide Less;
    if |s| > 0 && Less(p.addr, s[|s| - 1].addr) {
      InsertPermutes(s[..|s| - 1], p);
      assert s == s[..|s| - 1] + [s[|s| - 1]];
    }
  }

  lemma {:induction false} SortPermutes(s: seq<Replica>)
    ensures multiset(Sort(s)) == multiset(s)
  {
    hide Insert;
    if |s| > 0 {
      SortPermutes(s[..|s| - 1]);
      InsertPermutes(Sort(s[..|s| - 1]), s[|s| - 1]);
      assert s == s[..|s| - 1] + [s[|s| - 1]];
    }
  }

  ghost predicate Sorted(s: seq<Replica>) {
    forall i, j | 0 <= i < j < |s| :: Less(s[i].addr, s[j].addr)
  }

  /** Different replicas have different addresses, and none is listed twice. */
  ghost predicate AddressesDiffer(s: seq<Replica>) {
    forall i, j | 0 <= i < j < |s| :: s[i].addr != s[j].addr
  }

  lemma {:induction false} InsertSorted(s: seq<Replica>, p: Replica)
    requires Sorted(s) && forall i | 0 <= i < |s| :: s[i].addr != p.addr
    ensures Sorted(Insert(s, p))
  {
    if |s| > 0 {
      var last := s[|s| - 1];
      LessTotal(p.addr, last.addr);
      if Less(p.addr, last.addr) {
        var t := Insert(s[..|s| - 1], p);
        InsertSorted(s[..|s| - 1], p);
        InsertPermutes(s[..|s| - 1], p);
        forall i | 0 <= i < |t|
          ensures Less(t[i].addr, last.addr)
        {
          assert t[i] in multiset(t);
          assert t[i] == p || t[i] in s[..|s| - 1];
        }
      } else {
        forall i | 0 <= i < |s|
          ensures Less(s[i].addr, p.addr)
        {
          if i < |s| - 1 {
            LessTransitive(s[i].addr, last.addr, p.addr);
          }
        }
      }
    }
  }

  lemma {:induction false} SortSorted(s: seq<Replica>)
    requires AddressesDiffer(s)
    ensures Sorted(Sort(s))
  {
    if |s| > 0 {
      var h := s[..|s| - 1];
      SortSorted(h);
      SortPermutes(h);
      forall i | 0 <= i < |Sort(h)|
        ensures Sort(h)[i].addr != s[|s| - 1].addr
      {
        assert Sort(h)[i] in multiset(Sort(h));
        assert Sort(h)[i] in h;
      }
      InsertSorted(Sort(h), s[|s| - 1]);
    }
  }

  /** Two sorted lists of the same replicas are the same list. */
  lemma {:induction false} SortedUnique(s: seq<Replica>, t: seq<Replica>)
    requires Sorted(s) && Sorted(t) && multiset(s) == multiset(t)
    ensures s == t
  {
    hide Sorted, Less;
    SameLength(s, t);
    if |s| == 0 {
      assert s == t;
    } else {
      Fronts(s, t);
      SortedUnique(s[..|s| - 1], t[..|t| - 1]);
      assert s == s[..|s| - 1] + [s[|s| - 1]] && t == t[..|t| - 1] + [t[|t| - 1]];
    }
  }

  lemma Fronts(s: seq<Replica>, t: seq<Replica>)
    requires Sorted(s) && Sorted(t) && multiset(s) == multiset(t) && |s| == |t| > 0
    ensures s[|s| - 1] == t[|t| - 1]
    ensures Sorted(s[..|s| - 1]) && Sorted(t[..|t| - 1]) && multiset(s[..|s| - 1]) == multiset(t[..|t| - 1])
  {
    hide Sorted, Less;
    LastSame(s, t);
    Front(s);
    Front(t);
  }

  lemma Front(s: seq<Replica>)
    requires |s| > 0 && Sorted(s)
    ensures Sorted(s[..|s| - 1]) && multiset(s[..|s| - 1]) == multiset(s) - multiset{s[|s| - 1]}
  {
    assert s == s[..|s| - 1] + [s[|s| - 1]];
  }

  lemma SameLength(s: seq<Replica>, t: seq<Replica>)
    requires multiset(s) == multiset(t)
    ensures |s| == |t|
  {
    assert |s| == |multiset(s)| == |multiset(t)| == |t|;
  }

  lemma LastSame(s: seq<Replica>, t: seq<Replica>)
    requires Sorted(s) && Sorted(t) && multiset(s) == multiset(t) && |s| == |t| > 0
    ensures s[|s| - 1] == t[|s| - 1]
  {
    hide Less;
    var n := |s| - 1;
    assert s[n] in multiset(t) && t[n] in multiset(s);
    var i :| 0 <= i < |t| && t[i] == s[n];
    var j :| 0 <= j < |s| && s[j] == t[n];
    if i < n {
      LessTotal(s[n].addr, s[j].addr);
    }
  }

  // ---------------------------------------------------------------- the choice

  function Able(): Replica -> bool {
    p => Eligible(p)
  }

  function Within(band: u64): Replica -> bool {
    p => Eligible(p) && p.score <= band
  }

  function AtTier(tier: u64): Replica -> bool {
    p => BlendOffset(p) == tier
  }

  /** The upper end of the band, in 64-bit arithmetic that may wrap. */
  function BandOf(score: u64): u64 {
    (score + score / 4 + 2000) % (NO_SCORE + 1)
  }

  /** The replica chosen from a row. */
  function Choice(row: seq<Replica>, spread: bool, hash: nat): Option<Replica> {
    var able := Filter(row, Able());
    if |able| == 0 then None
    else
      var best := Fastest(able);
      if best.score == NO_SCORE then Some(best)
      else
        var band := Filter(row, Within(BandOf(best.score)));
        if |band| <= 1 then Some(best) else Some(InBand(band, spread, hash))
  }

  /** The place the expert's hash picks among n. */
  function Spread(hash: nat, n: nat): (i: nat)
    requires n > 0
    ensures i < n
  {
    hash % n
  }

  /** The choice among replicas the measurements do not separate. */
  function InBand(band: seq<Replica>, spread: bool, hash: nat): Replica
    requires |band| > 0
  {
    var keep := BestTier(band);
    if |keep| == 1 then keep[0] else if !spread then Fastest(keep) else Sort(keep)[Spread(hash, |keep|)]
  }

  function BestTier(band: seq<Replica>): (keep: seq<Replica>)
    requires |band| > 0
    ensures |keep| > 0
  {
    TierKept(band);
    Filter(band, AtTier(LowestTier(band)))
  }

  lemma TierKept(band: seq<Replica>)
    requires |band| > 0
    ensures |Filter(band, AtTier(LowestTier(band)))| > 0
  {
    hide Filter, BlendOffset;
    var p := LowestTierLeast(band);
    FilterMembers(band, AtTier(LowestTier(band)));
    assert p in Filter(band, AtTier(LowestTier(band)));
  }

  /** A replica is chosen exactly when one is eligible, and it is an eligible one of the row. */
  lemma ChoiceEligible(row: seq<Replica>, spread: bool, hash: nat)
    ensures Choice(row, spread, hash).Some? <==> exists p | p in row :: p.known && !p.tried && !p.dead && p.available
    ensures Choice(row, spread, hash).Some? ==>
              var c := Choice(row, spread, hash).value; c in row && c.known && !c.tried && !c.dead && c.available
  {
    hide BandOf, InBand, Filter;
    var able := Filter(row, Able());
    FilterMembers(row, Able());
    if p :| p in row && Eligible(p) {
      assert p in able;
    }
    if |able| > 0 {
      assert able[0] in able;
      var best := Fastest(able);
      FastestLeast(able);
      var band := Filter(row, Within(BandOf(best.score)));
      FilterMembers(row, Within(BandOf(best.score)));
      if best.score != NO_SCORE && |band| > 1 {
        InBandIs(band, spread, hash);
        assert InBand(band, spread, hash) in band;
      }
    }
  }

  /** Inside the band no replica has a lower tier than the chosen one, and without spreading none of
      its tier a better score. */
  lemma InBandIs(band: seq<Replica>, spread: bool, hash: nat)
    requires |band| > 0
    ensures InBand(band, spread, hash) in band
    ensures forall p | p in band :: BlendOffset(InBand(band, spread, hash)) <= BlendOffset(p)
    ensures !spread ==> forall p | p in band && BlendOffset(p) == BlendOffset(InBand(band, spread, hash)) ::
                          InBand(band, spread, hash).score <= p.score
  {
    hide BlendOffset, Filter;
    var keep, c := BestTier(band), InBand(band, spread, hash);
    var p := LowestTierLeast(band);
    FilterMembers(band, AtTier(LowestTier(band)));
    SortPermutes(keep);
    FastestLeast(keep);
    if |keep| != 1 && spread {
      assert c in multiset(Sort(keep));
    }
    assert c in keep;
    if |keep| == 1 {
      assert forall p | p in keep :: p == keep[0];
    }
  }

  /** With spreading the choice is by the hash among the replicas of the lowest tier in the order of their
      addresses, so every one of them is some expert's choice. */
  lemma SpreadIs(band: seq<Replica>, hash: nat) returns (t: seq<Replica>)
    requires |band| > 0 && AddressesDiffer(band)
    ensures Sorted(t) && |t| > 0 && InBand(band, true, hash) == t[hash % |t|]
    ensures forall p :: p in t <==> p in band && forall o | o in band :: BlendOffset(p) <= BlendOffset(o)
  {
    hide BlendOffset, Filter, Less;
    var keep := BestTier(band);
    var low := LowestTierLeast(band);
    FilterMembers(band, AtTier(LowestTier(band)));
    FilterDiffers(band, AtTier(LowestTier(band)));
    SortSorted(keep);
    SortPermutes(keep);
    t := Sort(keep);
    assert forall p :: p in t <==> p in multiset(t);
    assert forall p :: p in keep <==> p in multiset(keep);
    if |keep| == 1 {
      assert t[0] in multiset(t);
      assert t[0] in keep;
    }
  }

  /** The band does not wrap. */
  predicate BandFits(score: u64) {
    score + score / 4 + 2000 <= NO_SCORE
  }

  /** Absent overflow the chosen score is within the band of the best one, and no eligible replica
      inside that band has a lower tier. */
  lemma ChoiceInBand(row: seq<Replica>, spread: bool, hash: nat)
    requires |Filter(row, Able())| > 0 && BandFits(Fastest(Filter(row, Able())).score)
    ensures var best, c := Fastest(Filter(row, Able())).score, Choice(row, spread, hash).value;
            && c.score <= best + best / 4 + 2000
            && forall p | p in row && Eligible(p) && p.score <= best + best / 4 + 2000 :: BlendOffset(c) <= BlendOffset(p)
  {
    hide BlendOffset, Filter, InBand, Eligible;
    var able := Filter(row, Able());
    var best := Fastest(able);
    var band := Filter(row, Within(BandOf(best.score)));
    FastestLeast(able);
    FilterMembers(row, Able());
    FilterMembers(row, Within(BandOf(best.score)));
    assert best in able && best in band;
    if |band| <= 1 {
      assert forall p | p in band :: p == best;
    } else {
      InBandIs(band, spread, hash);
    }
    assert forall p | p in row && Eligible(p) && p.score <= best.score + best.score / 4 + 2000 :: p in band;
  }

  // ---------------------------------------------------------------- agreement between chatters

  lemma FastestScore(s: seq<Replica>, t: seq<Replica>)
    requires |s| > 0 && multiset(s) == multiset(t)
    ensures |t| > 0 && Fastest(s).score == Fastest(t).score
  {
    SameLength(s, t);
    FastestLeast(s);
    FastestLeast(t);
    assert Fastest(s) in multiset(t) && Fastest(t) in multiset(s);
  }

  lemma LowestTierPermuted(s: seq<Replica>, t: seq<Replica>)
    requires |s| > 0 && multiset(s) == multiset(t)
    ensures |t| > 0 && LowestTier(s) == LowestTier(t)
  {
    SameLength(s, t);
    hide BlendOffset;
    var p := LowestTierLeast(s);
    var q := LowestTierLeast(t);
    assert p in multiset(t) && q in multiset(s);
  }

  lemma {:induction false} FilterDiffers(s: seq<Replica>, keep: Replica -> bool)
    requires AddressesDiffer(s)
    ensures AddressesDiffer(Filter(s, keep))
  {
    if |s| > 0 {
      var h := s[..|s| - 1];
      FilterDiffers(h, keep);
      FilterMembers(h, keep);
      forall i | 0 <= i < |Filter(h, keep)|
        ensures Filter(h, keep)[i].addr != s[|s| - 1].addr
      {
        assert Filter(h, keep)[i] in h;
      }
    }
  }

  /** With spreading, the choice inside the band does not depend on the order of the table. */
  lemma InBandAgrees(band: seq<Replica>, other: seq<Replica>, hash: nat)
    requires |band| > 0 && multiset(band) == multiset(other) && AddressesDiffer(band) && AddressesDiffer(other)
    ensures |other| > 0 && InBand(band, true, hash) == InBand(other, true, hash)
  {
    hide BlendOffset, Filter, Less, LowestTier;
    LowestTierPermuted(band, other);
    var tier := LowestTier(band);
    var keep, kept := Filter(band, AtTier(tier)), Filter(other, AtTier(tier));
    FilterPermuted(band, other, AtTier(tier));
    TierKept(band);
    if |keep| == 1 {
      assert keep[0] in multiset(kept);
    } else {
      FilterDiffers(band, AtTier(tier));
      FilterDiffers(other, AtTier(tier));
      SortAgrees(keep, kept);
    }
  }

  lemma SortAgrees(s: seq<Replica>, t: seq<Replica>)
    requires multiset(s) == multiset(t) && AddressesDiffer(s) && AddressesDiffer(t)
    ensures Sort(s) == Sort(t)
  {
    hide Sorted, Less, AddressesDiffer;
    SortSorted(s);
    SortSorted(t);
    SortPermutes(s);
    SortPermutes(t);
    SortedUnique(Sort(s), Sort(t));
  }

  /** Two chatters that list the same replicas in any order make the same choice, while the band fits. */
  lemma ChoiceAgrees(row: seq<Replica>, other: seq<Replica>, hash: nat)
    requires multiset(row) == multiset(other)
    requires AddressesDiffer(Filter(row, Able())) && AddressesDiffer(Filter(other, Able()))
    requires |Filter(row, Able())| > 0 && BandFits(Fastest(Filter(row, Able())).score)
    ensures Choice(row, true, hash) == Choice(other, true, hash)
  {
    hide InBand, Filter, Eligible, Fastest;
    var able, able' := Filter(row, Able()), Filter(other, Able());
    FilterPermuted(row, other, Able());
    FastestScore(able, able');
    var test := Within(BandOf(Fastest(able).score));
    var band, band' := Filter(row, test), Filter(other, test);
    FilterPermuted(row, other, test);
    BandOfAble(row, BandOf(Fastest(able).score));
    BandOfAble(other, BandOf(Fastest(able).score));
    FilterDiffers(able, test);
    FilterDiffers(able', test);
    FastestLeast(able);
    FastestLeast(able');
    FilterMembers(row, Able());
    FilterMembers(other, Able());
    FilterMembers(row, test);
    FilterMembers(other, test);
    assert Fastest(able) in band && Fastest(able') in band';
    if |band| <= 1 {
      assert band == [Fastest(able)] && band' == [Fastest(able')];
      assert band'[0] in multiset(band);
    } else {
      InBandAgrees(band, band', hash);
    }
  }

  /** The band is a filter of the eligible replicas. */
  lemma BandOfAble(row: seq<Replica>, band: u64)
    ensures Filter(row, Within(band)) == Filter(Filter(row, Able()), Within(band))
  {
    hide Eligible;
    FilterTwice(row, Able(), Within(band));
  }

  lemma {:induction false} FilterTwice(s: seq<Replica>, wide: Replica -> bool, narrow: Replica -> bool)
    requires forall p :: narrow(p) ==> wide(p)
    ensures Filter(s, narrow) == Filter(Filter(s, wide), narrow)
  {
    if |s| > 0 {
      var h, last := s[..|s| - 1], s[|s| - 1];
      FilterTwice(h, wide, narrow);
      if wide(last) {
        FilterAppend(Filter(h, wide), last, narrow);
        assert Filter(s, wide) == Filter(h, wide) + [last];
      } else {
        assert Filter(s, wide) == Filter(h, wide);
      }
    }
  }

  lemma FilterAppend(s: seq<Replica>, p: Replica, keep: Replica -> bool)
    ensures Filter(s + [p], keep) == Filter(s, keep) + if keep(p) then [p] else []
  {
    assert (s + [p])[..|s|] == s;
  }

  /** Only one address has the best score. */
  ghost predicate OneFastest(row: seq<Replica>) {
    forall p, q | p in Filter(row, Able()) && q in Filter(row, Able()) ::
      p.score == q.score == Fastest(Filter(row, Able())).score ==> p.addr == q.addr
  }

  /** The choice does not depend on the order of the table. */
  ghost predicate OrderFree(row: seq<Replica>, hash: nat) {
    forall other: seq<Replica> | multiset(other) == multiset(row) :: SameAddress(Choice(other, true, hash), Choice(row, true, hash))
  }

  predicate SameAddress(a: Option<Replica>, b: Option<Replica>) {
    a.Some? == b.Some? && (a.Some? ==> a.value.addr == b.value.addr)
  }

  /** With spreading, the chosen address is independent of the order of the table exactly when the
      band does not wrap, or only one replica has the best score. */
  lemma OrderFreeIff(row: seq<Replica>, hash: nat)
    requires AddressesDiffer(Filter(row, Able())) && |Filter(row, Able())| > 0
    ensures OrderFree(row, hash) <==> BandFits(Fastest(Filter(row, Able())).score) || OneFastest(row)
  {
    hide Filter, Fastest, Choice, Eligible, BandFits;
    var best := Fastest(Filter(row, Able()));
    if BandFits(best.score) || OneFastest(row) {
      forall other: seq<Replica> | multiset(other) == multiset(row)
        ensures SameAddress(Choice(other, true, hash), Choice(row, true, hash))
      {
        DiffersPermuted(row, other);
        if BandFits(best.score) {
          ChoiceAgrees(row, other, hash);
        } else {
          FastestAgrees(row, other, hash);
        }
      }
    } else {
      OrderMatters(row, hash);
    }
  }

  lemma DiffersPermuted(row: seq<Replica>, other: seq<Replica>)
    requires multiset(row) == multiset(other) && AddressesDiffer(Filter(row, Able()))
    ensures AddressesDiffer(Filter(other, Able())) && |Filter(other, Able())| == |Filter(row, Able())|
  {
    hide Filter;
    FilterPermuted(row, other, Able());
    var a, b := Filter(row, Able()), Filter(other, Able());
    forall i, j | 0 <= i < j < |b|
      ensures b[i].addr != b[j].addr
    {
      DistinctCopies(a, b, i, j);
    }
  }

  lemma DistinctCopies(a: seq<Replica>, b: seq<Replica>, i: nat, j: nat)
    requires multiset(a) == multiset(b) && AddressesDiffer(a) && i < j < |b|
    ensures b[i].addr != b[j].addr
  {
    assert b[i] in multiset(a) && b[j] in multiset(a);
    AtMostOnce(a, b[i]);
    TwiceCounted(b, i, j);
  }

  lemma {:induction false} AtMostOnce(a: seq<Replica>, p: Replica)
    requires AddressesDiffer(a)
    ensures multiset(a)[p] <= 1
  {
    if |a| > 0 {
      var h := a[..|a| - 1];
      assert a == h + [a[|a| - 1]];
      AtMostOnce(h, p);
      if p == a[|a| - 1] {
        assert p !in h;
      }
    }
  }

  lemma TwiceCounted(b: seq<Replica>, i: nat, j: nat)
    requires i < j < |b|
    ensures b[i] == b[j] ==> multiset(b)[b[i]] >= 2
  {
    assert b == b[..j] + [b[j]] + b[j + 1..];
    assert b[i] in b[..j];
  }

  /** When the band wraps the first of the fastest replicas is chosen. */
  lemma WrapsToFastest(row: seq<Replica>, hash: nat)
    requires |Filter(row, Able())| > 0 && !BandFits(Fastest(Filter(row, Able())).score)
    ensures Choice(row, true, hash) == Some(Fastest(Filter(row, Able())))
  {
    hide InBand, Filter, Eligible;
    var able := Filter(row, Able());
    var best := Fastest(able);
    if best.score != NO_SCORE {
      WrappedBelow(best.score);
      FastestLeast(able);
      FilterMembers(row, Able());
      forall p | p in row
        ensures !Within(BandOf(best.score))(p)
      {
        assert Eligible(p) ==> p in able;
      }
      FilterNone(row, Within(BandOf(best.score)));
    }
  }

  lemma WrappedBelow(score: u64)
    requires score != NO_SCORE && !BandFits(score)
    ensures BandOf(score) < score
  {
  }

  lemma {:induction false} FilterNone(s: seq<Replica>, keep: Replica -> bool)
    requires forall p | p in s :: !keep(p)
    ensures Filter(s, keep) == []
  {
    if |s| > 0 {
      assert s[|s| - 1] in s;
      FilterNone(s[..|s| - 1], keep);
    }
  }

  lemma FastestAgrees(row: seq<Replica>, other: seq<Replica>, hash: nat)
    requires multiset(row) == multiset(other) && |Filter(row, Able())| > 0
    requires !BandFits(Fastest(Filter(row, Able())).score) && OneFastest(row)
    ensures SameAddress(Choice(other, true, hash), Choice(row, true, hash))
  {
    hide Filter, Choice, BandFits;
    FilterPermuted(row, other, Able());
    var a, b := Filter(row, Able()), Filter(other, Able());
    FastestScore(a, b);
    WrapsToFastest(row, hash);
    WrapsToFastest(other, hash);
    FastestLeast(a);
    FastestLeast(b);
    assert Fastest(b) in multiset(a);
  }

  /** Two equally fast replicas and a wrapped band: whoever is listed first wins. */
  lemma OrderMatters(row: seq<Replica>, hash: nat)
    requires |Filter(row, Able())| > 0 && !BandFits(Fastest(Filter(row, Able())).score) && !OneFastest(row)
    ensures !OrderFree(row, hash)
  {
    hide Choice, BandFits;
    var able := Filter(row, Able());
    var p, q :| p in able && q in able && p.score == q.score == Fastest(able).score && p.addr != q.addr;
    var first := ListedFirst(row, p, hash);
    var second := ListedFirst(row, q, hash);
    assert !SameAddress(Choice(first, true, hash), Choice(row, true, hash))
           || !SameAddress(Choice(second, true, hash), Choice(row, true, hash));
  }

  /** A replica of average 0xf000_0000 microseconds behind 2^32 - 1 calls. */
  function Slow(addr: string): Replica {
    Replica(true, false, false, true, 0xf000_0000_0000_0000, 1, 0, 0, addr)
  }

  lemma PairIs(a: Replica, b: Replica)
    requires Eligible(a) && Eligible(b) && a.score == b.score
    ensures Filter([a, b], Able()) == [a, b] && Fastest([a, b]) == a
  {
    FilterAppend([], a, Able());
    FilterAppend([a], b, Able());
    FastestAppend([], a);
    FastestAppend([a], b);
    assert [] + [a] == [a] && [a] + [b] == [a, b];
  }

  /** A table whose order decides the address. */
  lemma OrderIsSeen(hash: nat)
    ensures !OrderFree([Slow("a"), Slow("b")], hash)
  {
    hide Choice, Filter, Fastest, OrderFree;
    var a, b := Slow("a"), Slow("b");
    assert a.addr[0] != b.addr[0];
    PairIs(a, b);
    assert a in [a, b] && b in [a, b];
    assert !BandFits(a.score);
    OrderMatters([a, b], hash);
  }

  lemma ListedFirst(row: seq<Replica>, p: Replica, hash: nat) returns (other: seq<Replica>)
    requires p in Filter(row, Able()) && p.score == Fastest(Filter(row, Able())).score && !BandFits(p.score)
    ensures multiset(other) == multiset(row) && Choice(other, true, hash) == Some(p)
  {
    hide Choice, BandFits, Eligible, Filter, Fastest;
    FilterMembers(row, Able());
    var i :| 0 <= i < |row| && row[i] == p;
    other := [p] + row[..i] + row[i + 1..];
    assert row == row[..i] + [p] + row[i + 1..];
    assert other == [p] + (row[..i] + row[i + 1..]);
    FilterFirst(p, row[..i] + row[i + 1..], Able());
    FilterPermuted(row, other, Able());
    FastestScore(Filter(row, Able()), Filter(other, Able()));
    FastestLeast(Filter(other, Able()));
    FirstIsFastest(Filter(other, Able()));
    WrapsToFastest(other, hash);
  }

  lemma {:induction false} FilterFirst(p: Replica, s: seq<Replica>, keep: Replica -> bool)
    requires keep(p)
    ensures |Filter([p] + s, keep)| > 0 && Filter([p] + s, keep)[0] == p
  {
    if |s| == 0 {
      assert [p] + s == [p];
      FilterAppend([], p, keep);
      assert [] + [p] == [p];
    } else {
      assert [p] + s == ([p] + s[..|s| - 1]) + [s[|s| - 1]];
      FilterFirst(p, s[..|s| - 1], keep);
      FilterAppend([p] + s[..|s| - 1], s[|s| - 1], keep);
    }
  }

  lemma {:induction false} FirstIsFastest(s: seq<Replica>)
    requires |s| > 0 && s[0].score == Fastest(s).score
    ensures Fastest(s) == s[0]
  {
    FastestLeast(s);
    FirstFast(s, |s|);
  }

  lemma {:induction false} FirstFast(s: seq<Replica>, n: nat)
    requires 0 < n <= |s| && forall p | p in s :: s[0].score <= p.score
    ensures Fastest(s[..n]) == s[0]
    ensures s[..|s|] == s
  {
    if n > 1 {
      FirstFast(s, n - 1);
      assert s[..n][..n - 1] == s[..n - 1];
      assert s[n - 1] in s;
    }
  }

  // ---------------------------------------------------------------- the loops

  /** The entries a list of indices stands for. */
  function At(row: seq<Replica>, cand: seq<nat>): (s: seq<Replica>)
    requires forall i | 0 <= i < |cand| :: cand[i] < |row|
    ensures |s| == |cand| && forall i | 0 <= i < |cand| :: s[i] == row[cand[i]]
  {
    seq(|cand|, i requires 0 <= i < |cand| => row[cand[i]])
  }

  ghost predicate Into(cand: seq<nat>, n: nat) {
    forall i | 0 <= i < |cand| :: cand[i] < n
  }

  /** The first loop: the first of the best scores. */
  method FindBest(row: seq<Replica>) returns (best: int)
    ensures -1 <= best < |row| && (best < 0 <==> |Filter(row, Able())| == 0)
    ensures best >= 0 ==> row[best] == Fastest(Filter(row, Able()))
  {
    hide Eligible;
    best := -1;
    for r := 0 to |row|
      invariant -1 <= best < r && (best < 0 <==> |Filter(row[..r], Able())| == 0)
      invariant best >= 0 ==> row[best] == Fastest(Filter(row[..r], Able()))
    {
      assert row[..r + 1] == row[..r] + [row[r]];
      FilterAppend(row[..r], row[r], Able());
      if !Eligible(row[r]) {
        assert Filter(row[..r + 1], Able()) == Filter(row[..r], Able());
        continue;
      }
      FastestAppend(Filter(row[..r], Able()), row[r]);
      if best < 0 || row[r].score < row[best].score {
        best := r;
      }
    }
    assert row[..|row|] == row;
  }

  lemma FastestAppend(s: seq<Replica>, p: Replica)
    ensures Fastest(s + [p]) == if |s| == 0 || p.score < Fastest(s).score then p else Fastest(s)
  {
    assert (s + [p])[..|s|] == s;
  }

  lemma TierAppend(s: seq<Replica>, p: Replica)
    ensures LowestTier(s + [p]) == if |s| == 0 || BlendOffset(p) < LowestTier(s) then BlendOffset(p) else LowestTier(s)
  {
    assert (s + [p])[..|s|] == s;
  }

  lemma FilterNext(row: seq<Replica>, r: nat, keep: Replica -> bool)
    requires r < |row|
    ensures Filter(row[..r + 1], keep) == Filter(row[..r], keep) + if keep(row[r]) then [row[r]] else []
  {
    assert row[..r + 1] == row[..r] + [row[r]];
    FilterAppend(row[..r], row[r], keep);
  }

  /** The indices `cand` stand for the entries `found`. */
  ghost predicate Stand(row: seq<Replica>, cand: seq<nat>, found: seq<Replica>) {
    |cand| == |found| && forall i | 0 <= i < |cand| :: cand[i] < |row| && row[cand[i]] == found[i]
  }

  lemma StandIsAt(row: seq<Replica>, cand: seq<nat>, found: seq<Replica>)
    requires Stand(row, cand, found)
    ensures Into(cand, |row|) && At(row, cand) == found
  {
  }

  lemma StandAppend(row: seq<Replica>, cand: seq<nat>, found: seq<Replica>, r: nat)
    requires Stand(row, cand, found) && r < |row|
    ensures Stand(row, cand + [r], found + [row[r]])
  {
  }

  /** The second loop: the band and its lowest tier. */
  method FindBand(row: seq<Replica>, band: u64) returns (cand: seq<nat>, tier: u64)
    ensures Into(cand, |row|) && At(row, cand) == Filter(row, Within(band))
    ensures |cand| > 0 ==> tier == LowestTier(At(row, cand))
  {
    hide Eligible, BlendOffset, Stand, Filter, LowestTier;
    cand, tier := [], NO_SCORE;
    ghost var found: seq<Replica> := [];
    NothingYet(row, Within(band));
    for r := 0 to |row|
      invariant Stand(row, cand, found) && found == Filter(row[..r], Within(band))
      invariant if |found| > 0 then tier == LowestTier(found) else tier == NO_SCORE
    {
      FilterNext(row, r, Within(band));
      if !Eligible(row[r]) || row[r].score > band {
        continue;
      }
      TierAppend(found, row[r]);
      TierFits(row[r]);
      StandAppend(row, cand, found, r);
      if BlendOffset(row[r]) < tier {
        tier := BlendOffset(row[r]);
      }
      cand, found := cand + [r], found + [row[r]];
    }
    assert row[..|row|] == row;
    StandIsAt(row, cand, found);
  }

  lemma NothingYet(row: seq<Replica>, keep: Replica -> bool)
    ensures Filter(row[..0], keep) == [] && Stand(row, [], [])
  {
  }

  lemma TierFits(p: Replica)
    ensures BlendOffset(p) < NO_SCORE
  {
  }

  /** The filter in place: the candidates of the lowest tier move to the front. */
  method KeepTier(row: seq<Replica>, cand: array<nat>, tier: u64) returns (n: nat)
    requires Into(cand[..], |row|)
    modifies cand
    ensures n <= cand.Length && Into(cand[..n], |row|)
    ensures At(row, cand[..n]) == Filter(old(At(row, cand[..])), AtTier(tier))
  {
    hide BlendOffset, Stand, Filter;
    ghost var all, kept := At(row, cand[..]), [];
    n := 0;
    NothingYet(all, AtTier(tier));
    NothingYet(row, AtTier(tier));
    assert cand[..0] == [];
    for i := 0 to cand.Length
      invariant n <= i && Stand(row, cand[..n], kept) && kept == Filter(all[..i], AtTier(tier))
      invariant forall k | i <= k < cand.Length :: cand[k] < |row| && row[cand[k]] == all[k]
    {
      FilterNext(all, i, AtTier(tier));
      if BlendOffset(row[cand[i]]) == tier {
        StandAppend(row, cand[..n], kept, cand[i]);
        ghost var was, c := cand[..n], cand[i];
        kept := kept + [row[cand[i]]];
        cand[n] := cand[i];
        n := n + 1;
        assert cand[..n] == was + [c];
      }
    }
    assert all[..cand.Length] == all;
    StandIsAt(row, cand[..n], kept);
  }

  lemma SortNext(s: seq<Replica>, i: nat)
    requires i < |s|
    ensures Sort(s[..i + 1]) == Insert(Sort(s[..i]), s[i])
  {
    hide Insert;
    assert s[..i + 1][..i] == s[..i];
  }

  /** The insertion sort of the first n candidates by address. */
  method SortByAddress(row: seq<Replica>, cand: array<nat>, n: nat)
    requires n <= cand.Length && Into(cand[..n], |row|)
    modifies cand
    ensures Into(cand[..n], |row|) && At(row, cand[..n]) == Sort(old(At(row, cand[..n])))
  {
    ghost var all := At(row, cand[..n]);
    hide Less, Insert, Sort, At;
    assert all[..0] == [];
    NothingSorted(row);
    assert cand[..0] == [];
    var i := 0;
    while i < n
      invariant 0 <= i <= n && forall k | 0 <= k < n :: cand[k] < |row|
      invariant forall k | i <= k < n :: row[cand[k]] == all[k]
      invariant At(row, cand[..i]) == Sort(all[..i])
    {
      SortNext(all, i);
      SiftDown(row, cand, n, i);
      i := i + 1;
    }
    assert all[..n] == all;
  }

  lemma NothingSorted(row: seq<Replica>)
    ensures At(row, []) == Sort([])
  {
  }

  /** The swaps that take the i-th candidate to its place among the ones before it. */
  method SiftDown(row: seq<Replica>, cand: array<nat>, n: nat, i: nat)
    requires i < n <= cand.Length && forall k | 0 <= k < n :: cand[k] < |row|
    modifies cand
    ensures (forall k | 0 <= k < n :: cand[k] < |row|) && forall k | i < k < n :: cand[k] == old(cand[k])
    ensures At(row, cand[..i + 1]) == Insert(old(At(row, cand[..i])), old(row[cand[i]]))
  {
    ghost var start, s, p := cand[..], At(row, cand[..i]), row[cand[i]];
    hide Less, Insert, At, Sifting;
    SiftStart(row, start, s, i);
    var j := i;
    while j > 0 && Less(row[cand[j]].addr, row[cand[j - 1]].addr)
      invariant 0 <= j <= i && forall k | 0 <= k < n :: cand[k] < |row|
      invariant Sifting(row, cand[..], s, p, j, i)
      invariant forall k | i < k < n :: cand[k] == start[k]
    {
      SiftStep(row, cand[..], s, p, j, i);
      ghost var was := cand[..];
      cand[j], cand[j - 1] := cand[j - 1], cand[j];
      assert cand[..] == was[j := was[j - 1]][j - 1 := was[j]];
      j := j - 1;
    }
    SiftEnd(row, cand[..], s, p, j, i);
  }

  /** p sits at j, the entries it passed are one place further, the others where they were. */
  ghost predicate Sifting(row: seq<Replica>, cand: seq<nat>, s: seq<Replica>, p: Replica, j: nat, i: nat) {
    && j <= i < |cand| && |s| == i && (forall k | 0 <= k <= i :: cand[k] < |row|) && row[cand[j]] == p
    && (forall k | 0 <= k < j :: row[cand[k]] == s[k])
    && (forall k | j < k <= i :: row[cand[k]] == s[k - 1])
    && (forall k | j <= k < i :: Less(p.addr, s[k].addr))
  }

  lemma SiftStart(row: seq<Replica>, cand: seq<nat>, s: seq<Replica>, i: nat)
    requires i < |cand| && (forall k | 0 <= k <= i :: cand[k] < |row|) && s == At(row, cand[..i])
    ensures Sifting(row, cand, s, row[cand[i]], i, i)
  {
  }

  lemma SiftStep(row: seq<Replica>, cand: seq<nat>, s: seq<Replica>, p: Replica, j: nat, i: nat)
    requires 0 < j && Sifting(row, cand, s, p, j, i) && cand[j] < |row| && cand[j - 1] < |row|
    requires Less(row[cand[j]].addr, row[cand[j - 1]].addr)
    ensures Sifting(row, cand[j := cand[j - 1]][j - 1 := cand[j]], s, p, j - 1, i)
  {
    hide Less;
  }

  lemma SiftEnd(row: seq<Replica>, cand: seq<nat>, s: seq<Replica>, p: Replica, j: nat, i: nat)
    requires Sifting(row, cand, s, p, j, i) && (forall k | 0 <= k <= i :: cand[k] < |row|)
    requires j > 0 ==> !Less(row[cand[j]].addr, row[cand[j - 1]].addr)
    ensures At(row, cand[..i + 1]) == Insert(s, p)
  {
    hide Less, Insert;
    Sifted(row, cand[..i + 1], s, p, j);
  }

  lemma Sifted(row: seq<Replica>, cand: seq<nat>, s: seq<Replica>, p: Replica, j: nat)
    requires j < |cand| == |s| + 1 && Into(cand, |row|) && row[cand[j]] == p
    requires forall k | 0 <= k < j :: row[cand[k]] == s[k]
    requires forall k | j < k < |cand| :: row[cand[k]] == s[k - 1]
    requires forall k | j <= k < |s| :: Less(p.addr, s[k].addr)
    requires j > 0 ==> !Less(p.addr, s[j - 1].addr)
    ensures At(row, cand) == Insert(s, p)
  {
    hide Less, Insert;
    InsertAt(s, p, j);
    var t := s[..j] + [p] + s[j..];
    forall k | 0 <= k < |cand|
      ensures At(row, cand)[k] == t[k]
    {
    }
    assert At(row, cand) == t;
  }

  lemma {:induction false} InsertAt(s: seq<Replica>, p: Replica, at: nat)
    requires at <= |s| && forall k | at <= k < |s| :: Less(p.addr, s[k].addr)
    requires at > 0 ==> !Less(p.addr, s[at - 1].addr)
    ensures Insert(s, p) == s[..at] + [p] + s[at..]
  {
    if at < |s| {
      InsertAt(s[..|s| - 1], p, at);
      assert s[..|s| - 1][..at] == s[..at];
      assert s[..|s| - 1][at..] + [s[|s| - 1]] == s[at..];
    } else {
      assert s[..at] == s && s[at..] == [];
    }
  }

  /** The whole choice, by index. */
  method Pick(row: seq<Replica>, spread: bool, hash: nat) returns (r: int)
    ensures -1 <= r < |row|
    ensures if r < 0 then Choice(row, spread, hash).None? else Choice(row, spread, hash) == Some(row[r])
  {
    hide Eligible, BlendOffset, Less, Filter;
    var best := FindBest(row);
    if best < 0 || row[best].score == NO_SCORE {
      return best;
    }
    var list, tier := FindBand(row, BandOf(row[best].score));
    if |list| <= 1 {
      return best;
    }
    r := PickInBand(row, list, tier, spread, hash);
  }

  method PickInBand(row: seq<Replica>, list: seq<nat>, tier: u64, spread: bool, hash: nat) returns (r: nat)
    requires |list| > 0 && Into(list, |row|) && tier == LowestTier(At(row, list))
    ensures r < |row| && row[r] == InBand(At(row, list), spread, hash)
  {
    hide Eligible, BlendOffset, Less, Filter, LowestTier, Spread, Sort;
    ghost var band := At(row, list);
    var cand := new nat[|list|](i requires 0 <= i < |list| => list[i]);
    assert cand[..] == list;
    TierKept(band);
    var n := KeepTier(row, cand, tier);
    ghost var keep := At(row, cand[..n]);
    assert keep == BestTier(band);
    if n == 1 {
      return cand[0];
    }
    if !spread {
      r := FirstFastest(row, cand, n);
      return;
    }
    SortByAddress(row, cand, n);
    var i := Spread(hash, n);
    assert row[cand[i]] == At(row, cand[..n])[i];
    return cand[i];
  }

  method FirstFastest(row: seq<Replica>, cand: array<nat>, n: nat) returns (pick: nat)
    requires 0 < n <= cand.Length && Into(cand[..n], |row|)
    ensures pick < |row| && row[pick] == Fastest(At(row, cand[..n]))
  {
    ghost var keep := At(row, cand[..n]);
    pick := cand[0];
    for i := 1 to n
      invariant pick < |row| && row[pick] == Fastest(keep[..i])
    {
      assert keep[..i + 1] == keep[..i] + [keep[i]];
      FastestAppend(keep[..i], keep[i]);
      if row[cand[i]].score < row[pick].score {
        pick := cand[i];
      }
    }
    assert keep[..n] == keep;
  }
}
